/**
 What one message makes of a handler: TelegramMessageHandler.handle and the two ingest methods of
 TelegramPairMatcher in integrations/telegram/fasttrack_file_bridge.py, case by case, and what a new
 details message makes of a whole run.
 */
module MessageOutcomes {
  import opened Wrappers
  import opened Decimals
  import opened MessageText
  import opened AtomicPublish
  import opened Pairing
  import opened PairingRuns
  import opened TextReadings
  import opened PublishAccepts

  // ---------- which details find the pending seed ----------

  /** A pending seed is found exactly when one of the three rules holds of it, and by the first that does. */
  lemma SeedFoundIff(seed: Seed, details: string, message: InboundMessage)
    ensures MatchRule(Some(seed), details, message).Some? <==>
              exists rule | rule in {ByGroup, ByReply, ByHeader} :: RuleHolds(rule, LinkOf(message), seed, details)
    ensures MatchRule(Some(seed), details, message) ==
              if RuleHolds(ByGroup, LinkOf(message), seed, details) then Some(ByGroup)
              else if RuleHolds(ByReply, LinkOf(message), seed, details) then Some(ByReply)
              else if RuleHolds(ByHeader, LinkOf(message), seed, details) then Some(ByHeader)
              else None
    ensures MatchRule(None, details, message) == None
  {
    hide ParseDetailsHeader, Decimal;
    if MatchRule(Some(seed), details, message).Some? {
      var rule := MatchRule(Some(seed), details, message).value;
      assert rule in {ByGroup, ByReply, ByHeader} && RuleHolds(rule, LinkOf(message), seed, details);
    }
  }

  /** What the rules ask of the texts: the header of the first line of the details, if it is for gold. */
  lemma RulesByReading(link: Link, seed: Seed, details: string)
    ensures RuleHolds(ByHeader, link, seed, details) <==>
              Strip(details) != "" && seed.header.symbol == "gold" && HasHeader(TopLine(details), seed.header)
    ensures RuleHolds(ByGroup, link, seed, details) <==>
              && link.groupedId.Some? && seed.groupedId == Some(Decimal(link.groupedId.value))
              && (forall direction | direction in {"buy", "sell"} && Strip(details) != ""
                    && HasHeader(TopLine(details), Header("gold", direction)) :: seed.header == Header("gold", direction))
    ensures RuleHolds(ByReply, link, seed, details) <==> link.replyToMsgId.Some? && link.replyToMsgId == seed.telegramMessageId
  {
    hide ParseDetailsHeader, HasHeader, TopLine, Strip, Decimal;
    ParsedHeaderIff(details, seed.header);
    ParsedHeaderIff(details, Header("gold", "buy"));
    ParsedHeaderIff(details, Header("gold", "sell"));
    if ParseDetailsHeader(details).Some? {
      ParsedHeaderIff(details, ParseDetailsHeader(details).value);
      HeaderDirection(TopLine(details), ParseDetailsHeader(details).value);
    }
  }

  lemma HeaderDirection(line: string, header: Header)
    requires HasHeader(line, header)
    ensures header.direction in {"buy", "sell"}
  {
  }

  // ---------- one message ----------

  /** The seed that waits when a message comes: the pending one, unless it is older than the timeout. */
  function StillWaiting(m: MatcherState, setup: Setup, now: real): Option<Seed> {
    if m.pending.Some? && now - m.pending.value.receivedAt <= setup.pairTimeoutSeconds as real then m.pending else None
  }

  function ExpiryNote(m: MatcherState, setup: Setup, now: real): seq<Happening> {
    if m.pending.Some? && now - m.pending.value.receivedAt > setup.pairTimeoutSeconds as real
    then [Expired(m.pending.value, now)] else []
  }

  /** A message not seen before, by its key and by its content. */
  predicate Unseen(h: HandlerState, message: InboundMessage) {
    && Decimal(message.channelId) + ":" + Decimal(message.messageId) !in h.seenKeys
    && Sha256(Strip(NormalizeLineEndings(message.text))) !in h.seenHashes
  }

  function MarkedAsSeen(h: HandlerState, message: InboundMessage, m: MatcherState): HandlerState {
    HandlerState(h.seenKeys + {Decimal(message.channelId) + ":" + Decimal(message.messageId)},
                 h.seenHashes + {Sha256(Strip(NormalizeLineEndings(message.text)))}, m)
  }

  function Noted(m: MatcherState, more: seq<Happening>): MatcherState { m.(journal := m.journal + more) }

  /** What is no seed and no details, or was there before, is skipped with its reason. */
  lemma SkippedMessage(h: HandlerState, setup: Setup, message: InboundMessage, moment: Moment)
    requires !Unseen(h, message) || Classify(message.text) in {Empty, NonAscii, Unrecognized}
    ensures var repeated := Decimal(message.channelId) + ":" + Decimal(message.messageId) in h.seenKeys;
            var kind := Classify(message.text);
            var reason := if repeated then TelegramDedup else if kind == Empty then EmptyMessage
                          else if kind == NonAscii then NonAsciiMessage
                          else if !Unseen(h, message) then TelegramDedup else UnrecognizedMessage;
            var m' := Noted(h.matcher, [Skipped(reason)]);
            Handle(h, setup, message, moment) ==
            (if reason == UnrecognizedMessage then MarkedAsSeen(h, message, m') else h.(matcher := m'), Pass)
  {
    hide Classify, Decimal, Strip, NormalizeLineEndings, IngestSeed, IngestDetails;
  }

  /** The seed that a message stands for. */
  function SeedOf(message: InboundMessage, direction: string, receivedAt: real): Seed {
    Seed(Strip(message.text), Decimal(message.messageId), Header("gold", direction), receivedAt, Decimal(message.channelId),
         if message.groupedId.Some? then Some(Decimal(message.groupedId.value)) else None, Some(message.messageId))
  }

  /** A new gold seed takes the slot, and the one still waiting there is replaced. */
  lemma NewSeedWaits(h: HandlerState, setup: Setup, message: InboundMessage, moment: Moment, direction: string)
    requires Unseen(h, message) && SeedLine(message.text) && GoldSeed(message.text, direction)
    ensures var waiting := StillWaiting(h.matcher, setup, moment.checkedAt);
            var seed := SeedOf(message, direction, moment.receivedAt);
            var notes := ExpiryNote(h.matcher, setup, moment.checkedAt)
                         + (if waiting.Some? then [Replaced(waiting.value)] else []) + [Accepted(seed)];
            Handle(h, setup, message, moment)
            == (MarkedAsSeen(h, message, Noted(h.matcher, notes).(pending := Some(seed))), Pass)
  {
    hide Decimal, Strip, NormalizeLineEndings, ValidateSeedFormat, IngestDetails, GoldSeed, SeedLine, Classify, SeedFrom, SeedOf;
    ClassifiedGold(message.text, direction);
    SeedAcceptedIff(message.text, Header("gold", direction));
    SeedFromMessage(message, direction, moment.receivedAt);
    var m, waiting := h.matcher, StillWaiting(h.matcher, setup, moment.checkedAt);
    var note, seed := ExpiryNote(m, setup, moment.checkedAt), SeedOf(message, direction, moment.receivedAt);
    var replaced := if waiting.Some? then [Replaced(waiting.value)] else [];
    assert m.journal + [] == m.journal;
    assert (m.journal + note) + replaced + [Accepted(seed)] == m.journal + (note + replaced + [Accepted(seed)]);
  }

  lemma SeedFromMessage(message: InboundMessage, direction: string, receivedAt: real)
    ensures SeedFrom(message, Header("gold", direction), receivedAt) == SeedOf(message, direction, receivedAt)
  {
    hide Decimal, Strip;
  }

  lemma ClassifiedGold(text: string, direction: string)
    requires SeedLine(text) && GoldSeed(text, direction)
    ensures Classify(text) == SeedMessage
  {
    hide Strip, Classify;
    ClassifyIff(text);
  }

  /** A new seed of another symbol raises for that symbol; the slot is only cleared of what has expired. */
  lemma OtherSeedIsRefused(h: HandlerState, setup: Setup, message: InboundMessage, moment: Moment,
                           symbol: string, gap: string, word: string, gap': string, now: string)
    requires Unseen(h, message) && Classify(message.text) == SeedMessage
    requires ReadsAsSeed(Strip(message.text), symbol, gap, word, gap', now) && Lower(symbol) != "gold"
    ensures Handle(h, setup, message, moment) ==
            (MarkedAsSeen(h, message, Noted(h.matcher, ExpiryNote(h.matcher, setup, moment.checkedAt))
                                        .(pending := StillWaiting(h.matcher, setup, moment.checkedAt))),
             Fail(Invalid(UnsupportedSymbol(Lower(symbol)))))
  {
    hide Decimal, Strip, NormalizeLineEndings, ValidateSeedFormat, IngestDetails, Classify, Lower;
    ClassifyIff(message.text);
    OtherSymbolRefused(message.text, symbol, gap, word, gap', now);
    assert h.matcher.journal + [] == h.matcher.journal;
  }

  /** What the publisher is asked for on account of a waiting seed and a details message. */
  function PairRequest(setup: Setup, seed: Seed, message: InboundMessage, moment: Moment): Request {
    Request(setup.names, seed.text, NormalizeLineEndings(message.text), moment.uuids, setup.dryRun)
  }

  /** The first of the three rules that holds. */
  ghost function FirstRule(seed: Seed, message: InboundMessage): Option<Rule> {
    var details, link := NormalizeLineEndings(message.text), LinkOf(message);
    if RuleHolds(ByGroup, link, seed, details) then Some(ByGroup)
    else if RuleHolds(ByReply, link, seed, details) then Some(ByReply)
    else if RuleHolds(ByHeader, link, seed, details) then Some(ByHeader)
    else None
  }

  /**
   New details: with white space outside ASCII around them they are refused; with no seed waiting, or
   none that a rule joins them to, they are skipped; otherwise that seed and they are published, which
   uses the seed up exactly when the call returns.
   */
  lemma NewDetailsOutcome(h: HandlerState, setup: Setup, message: InboundMessage, moment: Moment)
    requires Unseen(h, message) && Classify(message.text) == DetailsMessage
    ensures var m, now := h.matcher, moment.checkedAt;
            var waiting, note := StillWaiting(m, setup, now), ExpiryNote(m, setup, now);
            var rule := if waiting.None? then None else FirstRule(waiting.value, message);
            Handle(h, setup, message, moment) ==
            if exists i | 0 <= i < |message.text| :: message.text[i] as int >= 128 then
              (MarkedAsSeen(h, message, Noted(m, note).(pending := waiting)), Fail(Invalid(NotAscii)))
            else if rule.None? then
              (MarkedAsSeen(h, message, Noted(m, note + [Skipped(DetailsWithoutSeed)]).(pending := waiting)), Pass)
            else
              var seed, details := waiting.value, NormalizeLineEndings(message.text);
              var (publisher, result) := Publish(m.publisher, PairRequest(setup, seed, message, moment), moment.fault);
              match result
              case Success(published) =>
                (MarkedAsSeen(h, message,
                   MatcherState(None, publisher,
                                m.journal + note + [Consumed(seed, details, rule.value, LinkOf(message), now, published)])), Pass)
              case Failure(error) =>
                (MarkedAsSeen(h, message, MatcherState(waiting, publisher, m.journal + note + [PublishRaised(seed, details, error)])),
                 Fail(error))
  {
    hide Decimal, Strip, NormalizeLineEndings, ValidateDetailsText, IngestSeed, Classify, MatchRule, RuleHolds, Publish;
    DetailsAcceptedIff(message.text);
    DetailsNotBlank(message.text);
    var m, now := h.matcher, moment.checkedAt;
    var waiting, note := StillWaiting(m, setup, now), ExpiryNote(m, setup, now);
    assert m.journal + [] == m.journal;
    assert (m.journal + note) + [Skipped(DetailsWithoutSeed)] == m.journal + (note + [Skipped(DetailsWithoutSeed)]);
    assert note == [] || waiting.None?;
    NothingFound(NormalizeLineEndings(message.text), message);
    if waiting.Some? {
      SeedFoundIff(waiting.value, NormalizeLineEndings(message.text), message);
    }
  }

  lemma NothingFound(details: string, message: InboundMessage)
    ensures MatchRule(None, details, message) == None
  {
  }

  lemma DetailsNotBlank(text: string)
    requires Classify(text) == DetailsMessage
    ensures Strip(text) != ""
  {
    hide Classify, Strip;
    ClassifyIff(text);
  }

  /** So without a fault the seed is used up exactly when the pair is publishable, and then its files are there. */
  lemma FaultlessDetails(h: HandlerState, setup: Setup, message: InboundMessage, moment: Moment)
    requires Unseen(h, message) && Classify(message.text) == DetailsMessage && moment.fault == NoFault
    requires forall i | 0 <= i < |message.text| :: message.text[i] as int < 128
    requires StillWaiting(h.matcher, setup, moment.checkedAt).Some?
    requires FirstRule(StillWaiting(h.matcher, setup, moment.checkedAt).value, message).Some?
    ensures var q := PairRequest(setup, StillWaiting(h.matcher, setup, moment.checkedAt).value, message, moment);
            var (h', r) := Handle(h, setup, message, moment);
            var before, after := h.matcher.publisher, h'.matcher.publisher;
            && (r.Pass? <==> Publishable(q))
            && (r.Fail? ==> h'.matcher.pending == h.matcher.pending && after == before)
            && (r.Pass? ==>
                  && h'.matcher.pending.None? && after.fingerprints == before.fingerprints + {PublishAccepts.PrintOf(q)}
                  && after.directory == if PublishAccepts.PrintOf(q) in before.fingerprints || q.dryRun then before.directory
                                        else WithBoth(before.directory, q))
  {
    hide Handle, Publishable, FirstRule, Classify, Publish, WithBoth, PublishAccepts.PrintOf, NormalizeLineEndings, Unseen;
    NewDetailsOutcome(h, setup, message, moment);
    var q := PairRequest(setup, StillWaiting(h.matcher, setup, moment.checkedAt).value, message, moment);
    FaultlessCall(h.matcher.publisher, q);
    var (publisher, result) := Publish(h.matcher.publisher, q, moment.fault);
    assert result.Failure? ==> publisher == h.matcher.publisher;
    assert Handle(h, setup, message, moment).0.matcher.publisher == publisher;
  }

  // ---------- in a run ----------

  ghost predicate KeyCame(inputs: seq<Input>, key: string) {
    exists input | input in inputs :: MessageKey(input.message) == key
  }

  ghost predicate ContentCame(inputs: seq<Input>, content: Digest) {
    exists input | input in inputs :: RawMessageHash(input.message.text) == content
  }

  lemma OneMoreCame(inputs: seq<Input>, last: Input)
    ensures KeyCame(inputs + [last], MessageKey(last.message)) && ContentCame(inputs + [last], RawMessageHash(last.message.text))
    ensures forall key | KeyCame(inputs, key) :: KeyCame(inputs + [last], key)
    ensures forall content | ContentCame(inputs, content) :: ContentCame(inputs + [last], content)
  {
    hide MessageKey, RawMessageHash;
    assert last in inputs + [last] && forall input | input in inputs :: input in inputs + [last];
  }

  /** What a handler has seen are keys and contents of the messages it was given. */
  lemma {:induction false} SeenCame(d: Directory, setup: Setup, inputs: seq<Input>)
    ensures var h := RunHandler(Initial(d), setup, inputs);
            (forall key | key in h.seenKeys :: KeyCame(inputs, key)) && (forall x | x in h.seenHashes :: ContentCame(inputs, x))
  {
    hide MessageKey, RawMessageHash, Handle, KeyCame, ContentCame;
    if inputs != [] {
      var front, last := inputs[..|inputs| - 1], inputs[|inputs| - 1];
      SeenCame(d, setup, front);
      HandleSees(RunHandler(Initial(d), setup, front), setup, last.message, last.moment);
      OneMoreCame(front, last);
      assert front + [last] == inputs;
    }
  }

  lemma HandleSees(h: HandlerState, setup: Setup, message: InboundMessage, moment: Moment)
    ensures Handle(h, setup, message, moment).0.seenKeys <= h.seenKeys + {MessageKey(message)}
    ensures Handle(h, setup, message, moment).0.seenHashes <= h.seenHashes + {RawMessageHash(message.text)}
  {
    hide MessageKey, RawMessageHash, Classify, IngestSeed, IngestDetails;
  }

  /** No message of the run has the key or the content of the given one. */
  ghost predicate NewTo(inputs: seq<Input>, message: InboundMessage) {
    forall input | input in inputs ::
      && (input.message.channelId != message.channelId || input.message.messageId != message.messageId)
      && Strip(NormalizeLineEndings(input.message.text)) != Strip(NormalizeLineEndings(message.text))
  }

  lemma NewIsUnseen(d: Directory, setup: Setup, inputs: seq<Input>, message: InboundMessage)
    requires NewTo(inputs, message)
    ensures Unseen(RunHandler(Initial(d), setup, inputs), message)
  {
    hide Decimal, Strip, NormalizeLineEndings, RunHandler, MessageKey;
    SeenCame(d, setup, inputs);
    forall input | input in inputs
      ensures MessageKey(input.message) != MessageKey(message) && RawMessageHash(input.message.text) != RawMessageHash(message.text)
    {
      MessageKeyIdentifies(input.message, message);
    }
    assert !KeyCame(inputs, MessageKey(message)) && !ContentCame(inputs, RawMessageHash(message.text));
    KeyOf(message);
  }

  lemma KeyOf(message: InboundMessage)
    ensures MessageKey(message) == Decimal(message.channelId) + ":" + Decimal(message.messageId)
  {
    hide Decimal;
  }

  /**
   Completeness of the pairing over every run: a new ASCII details message that comes while a seed
   waits within its timeout, replies to it, shares its group without a differing header, or has its
   header, adds to the log the consumption of that seed or the raise of its publish, and no other
   new details message adds either.
   */
  lemma EveryMatchIsTried(d: Directory, setup: Setup, inputs: seq<Input>, last: Input)
    requires NewTo(inputs, last.message) && Classify(last.message.text) == DetailsMessage
    requires forall i | 0 <= i < |last.message.text| :: last.message.text[i] as int < 128
    ensures var waiting, details := Waiting(JournalOf(d, setup, inputs)), NormalizeLineEndings(last.message.text);
            var next := LastIn(JournalOf(d, setup, inputs + [last]));
            && JournalOf(d, setup, inputs) < JournalOf(d, setup, inputs + [last])
            && ((next.Consumed? || next.PublishRaised?) <==>
                  && waiting.Some? && last.moment.checkedAt - waiting.value.receivedAt <= setup.pairTimeoutSeconds as real
                  && exists rule | rule in {ByGroup, ByReply, ByHeader} :: RuleHolds(rule, LinkOf(last.message), waiting.value, details))
            && (next.Consumed? || next.PublishRaised? ==> next.seed == waiting.value && next.details == details)
            && (next.Consumed? || next.PublishRaised? || next == Skipped(DetailsWithoutSeed))
  {
    hide Handle, RunHandler, Classify, RuleHolds, Publish, NormalizeLineEndings, Unseen, NewTo, Waiting;
    var h := RunHandler(Initial(d), setup, inputs);
    NewIsUnseen(d, setup, inputs, last.message);
    RunAgrees(d, setup, inputs);
    RunOneMore(d, setup, inputs, last);
    NewDetailsOutcome(h, setup, last.message, last.moment);
    var waiting := StillWaiting(h.matcher, setup, last.moment.checkedAt);
    if waiting.Some? {
      SeedFoundIff(waiting.value, NormalizeLineEndings(last.message.text), last.message);
    }
  }

  function LastIn(journal: seq<Happening>): Happening {
    if journal == [] then Skipped(EmptyMessage) else journal[|journal| - 1]
  }

  lemma RunOneMore(d: Directory, setup: Setup, inputs: seq<Input>, last: Input)
    ensures RunHandler(Initial(d), setup, inputs + [last])
            == Handle(RunHandler(Initial(d), setup, inputs), setup, last.message, last.moment).0
  {
    hide Handle;
    assert (inputs + [last])[..|inputs + [last]| - 1] == inputs;
  }
}
