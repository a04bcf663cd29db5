/**
 Whole runs of the message handler: where every seed goes, which seed every published pair uses,
 why the publisher's own duplicate check is never reached, and what the directory shows.
 */
module PairingRuns {
  import opened Wrappers
  import opened Decimals
  import opened MessageText
  import opened AtomicPublish
  import opened PublishRuns
  import opened Pairing

  datatype Input = Input(message: InboundMessage, moment: Moment)

  function RunHandler(h: HandlerState, setup: Setup, inputs: seq<Input>): HandlerState {
    if inputs == [] then h
    else
      var last := inputs[|inputs| - 1];
      Handle(RunHandler(h, setup, inputs[..|inputs| - 1]), setup, last.message, last.moment).0
  }

  // ---------- legal journals ----------

  /** The seed waiting after a journal, by the journal alone. */
  function Waiting(journal: seq<Happening>): Option<Seed> {
    if journal == [] then None
    else
      match journal[|journal| - 1]
      case Accepted(seed) => Some(seed)
      case Replaced(_) => None
      case Expired(_, _) => None
      case Consumed(_, _, _, _, _, _) => None
      case _ => Waiting(journal[..|journal| - 1])
  }

  /**
   The details reply to the seed's own message, or belong to its group without a header that differs,
   or have a header that agrees with it on symbol and direction.
   */
  predicate RuleHolds(rule: Rule, link: Link, seed: Seed, details: string) {
    var header := ParseDetailsHeader(details);
    match rule
    case ByGroup =>
      && link.groupedId.Some? && seed.groupedId == Some(Decimal(link.groupedId.value))
      && (header.Some? ==> header.value == seed.header)
    case ByReply => link.replyToMsgId.Some? && link.replyToMsgId == seed.telegramMessageId
    case ByHeader => header == Some(seed.header)
    case ByOrder => true
  }

  /** What may happen while the given seed waits. */
  predicate Allowed(waiting: Option<Seed>, next: Happening, timeout: int) {
    match next
    case Accepted(_) => waiting == None
    case Replaced(seed) => waiting == Some(seed)
    case Expired(seed, at) => waiting == Some(seed) && at - seed.receivedAt > timeout as real
    case Consumed(seed, details, rule, link, at, _) =>
      waiting == Some(seed) && at - seed.receivedAt <= timeout as real && RuleHolds(rule, link, seed, details)
    case PublishRaised(seed, _, _) => waiting == Some(seed)
    case Skipped(_) => true
  }

  predicate Legal(journal: seq<Happening>, timeout: int) {
    journal == [] ||
    (Legal(journal[..|journal| - 1], timeout)
     && Allowed(Waiting(journal[..|journal| - 1]), journal[|journal| - 1], timeout))
  }

  ghost predicate Agrees(m: MatcherState, timeout: int) {
    Legal(m.journal, timeout) && m.pending == Waiting(m.journal)
  }

  lemma Extend(journal: seq<Happening>, next: Happening, timeout: int)
    ensures Legal(journal + [next], timeout) <==> Legal(journal, timeout) && Allowed(Waiting(journal), next, timeout)
    ensures Waiting(journal + [next]) ==
            match next
            case Accepted(seed) => Some(seed)
            case Replaced(_) => None
            case Expired(_, _) => None
            case Consumed(_, _, _, _, _, _) => None
            case _ => Waiting(journal)
  {
    assert (journal + [next])[..|journal + [next]| - 1] == journal;
  }

  lemma ExpireAgrees(m: MatcherState, setup: Setup, now: real)
    requires Agrees(m, setup.pairTimeoutSeconds)
    ensures Agrees(ExpireIfNeeded(m, setup, now), setup.pairTimeoutSeconds)
    ensures var pending := ExpireIfNeeded(m, setup, now).pending;
            pending.Some? ==> now - pending.value.receivedAt <= setup.pairTimeoutSeconds as real
  {
    hide Legal, Waiting;
    if m.pending.Some? {
      Extend(m.journal, Expired(m.pending.value, now), setup.pairTimeoutSeconds);
    }
  }

  lemma TakeSlotAgrees(m: MatcherState, seed: Seed, timeout: int)
    requires Agrees(m, timeout)
    ensures Agrees(TakeSlot(m, seed), timeout)
  {
    hide Legal, Waiting;
    if m.pending.Some? {
      Extend(m.journal, Replaced(m.pending.value), timeout);
      Extend(m.journal + [Replaced(m.pending.value)], Accepted(seed), timeout);
    } else {
      Extend(m.journal, Accepted(seed), timeout);
      assert m.journal + [] == m.journal;
    }
  }

  lemma PublishPendingAgrees(m: MatcherState, setup: Setup, details: string, rule: Rule, link: Link, moment: Moment)
    requires Agrees(m, setup.pairTimeoutSeconds) && m.pending.Some?
    requires moment.checkedAt - m.pending.value.receivedAt <= setup.pairTimeoutSeconds as real
    requires RuleHolds(rule, link, m.pending.value, details)
    ensures Agrees(PublishPending(m, setup, details, rule, link, moment).0, setup.pairTimeoutSeconds)
  {
    hide Legal, Waiting, Publish, RuleHolds;
    var m' := PublishPending(m, setup, details, rule, link, moment).0;
    Extend(m.journal, m'.journal[|m'.journal| - 1], setup.pairTimeoutSeconds);
  }

  lemma HandleAgrees(h: HandlerState, setup: Setup, message: InboundMessage, moment: Moment)
    requires Agrees(h.matcher, setup.pairTimeoutSeconds)
    ensures Agrees(Handle(h, setup, message, moment).0.matcher, setup.pairTimeoutSeconds)
  {
    hide Legal, Waiting, Publish, Classify, ValidateSeedFormat, ValidateDetailsText, ParseDetailsHeader;
    hide ExpireIfNeeded, PublishPending, TakeSlot, SeedFrom, MessageKey, RawMessageHash;
    var m, t := h.matcher, setup.pairTimeoutSeconds;
    var current := ExpireIfNeeded(m, setup, moment.checkedAt);
    ExpireAgrees(m, setup, moment.checkedAt);
    forall reason ensures Agrees(m.(journal := m.journal + [Skipped(reason)]), t) {
      Extend(m.journal, Skipped(reason), t);
    }
    match Classify(message.text)
    case SeedMessage =>
      if ValidateSeedFormat(message.text).Success? {
        TakeSlotAgrees(current, SeedFrom(message, ValidateSeedFormat(message.text).value, moment.receivedAt), t);
      }
    case DetailsMessage =>
      Extend(current.journal, Skipped(DetailsWithoutSeed), t);
      if ValidateDetailsText(message.text).Success? {
        var details := ValidateDetailsText(message.text).value;
        var rule := MatchRule(current.pending, details, message);
        if rule.Some? {
          PublishPendingAgrees(current, setup, details, rule.value, LinkOf(message), moment);
        }
      }
    case _ =>
  }

  lemma {:induction false} RunAgrees(d: Directory, setup: Setup, inputs: seq<Input>)
    ensures Agrees(RunHandler(Initial(d), setup, inputs).matcher, setup.pairTimeoutSeconds)
  {
    hide Handle;
    if inputs != [] {
      var last := inputs[|inputs| - 1];
      RunAgrees(d, setup, inputs[..|inputs| - 1]);
      HandleAgrees(RunHandler(Initial(d), setup, inputs[..|inputs| - 1]), setup, last.message, last.moment);
    }
  }

  // ---------- conservation ----------

  datatype Tally = Tally(accepted: nat, consumed: nat, replaced: nat, expired: nat)

  function Count(journal: seq<Happening>): Tally {
    if journal == [] then Tally(0, 0, 0, 0)
    else
      var t := Count(journal[..|journal| - 1]);
      match journal[|journal| - 1]
      case Accepted(_) => t.(accepted := t.accepted + 1)
      case Consumed(_, _, _, _, _, _) => t.(consumed := t.consumed + 1)
      case Replaced(_) => t.(replaced := t.replaced + 1)
      case Expired(_, _) => t.(expired := t.expired + 1)
      case _ => t
  }

  lemma {:induction false} LegalBalances(journal: seq<Happening>, timeout: int)
    requires Legal(journal, timeout)
    ensures var t := Count(journal);
            t.accepted == t.consumed + t.replaced + t.expired + (if Waiting(journal).Some? then 1 else 0)
  {
    if journal != [] {
      LegalBalances(journal[..|journal| - 1], timeout);
    }
  }

  /** In every run each accepted seed is consumed, replaced, expired or still pending; a raising publish moves none. */
  lemma SeedsConserved(d: Directory, setup: Setup, inputs: seq<Input>)
    ensures var m := RunHandler(Initial(d), setup, inputs).matcher;
            var t := Count(m.journal);
            t.accepted == t.consumed + t.replaced + t.expired + (if m.pending.Some? then 1 else 0)
  {
    RunAgrees(d, setup, inputs);
    LegalBalances(RunHandler(Initial(d), setup, inputs).matcher.journal, setup.pairTimeoutSeconds);
  }

  // ---------- the pairing trace ----------

  predicate MovesSeed(h: Happening) {
    h.Accepted? || h.Replaced? || h.Expired? || h.Consumed?
  }

  /** The waiting seed was accepted at some point, and no seed has come or gone since. */
  lemma {:induction false} WaitingSince(journal: seq<Happening>, timeout: int) returns (k: nat)
    requires Legal(journal, timeout) && Waiting(journal).Some?
    ensures k < |journal| && journal[k] == Accepted(Waiting(journal).value)
    ensures forall m | k < m < |journal| :: !MovesSeed(journal[m])
  {
    if journal[|journal| - 1].Accepted? {
      k := |journal| - 1;
    } else {
      k := WaitingSince(journal[..|journal| - 1], timeout);
    }
  }

  lemma {:induction false} LegalPrefix(journal: seq<Happening>, timeout: int, i: nat)
    requires Legal(journal, timeout) && i <= |journal|
    ensures Legal(journal[..i], timeout)
  {
    if i < |journal| {
      LegalPrefix(journal[..|journal| - 1], timeout, i);
      assert journal[..|journal| - 1][..i] == journal[..i];
    } else {
      assert journal[..i] == journal;
    }
  }

  /** A seed accepted, or a pair consumed, on account of one particular input. */
  ghost predicate ComesFrom(h: Happening, input: Input) {
    match h
    case Accepted(seed) =>
      && Classify(input.message.text) == SeedMessage && ValidateSeedFormat(input.message.text) == Success(seed.header)
      && seed == SeedFrom(input.message, seed.header, input.moment.receivedAt)
    case Consumed(seed, details, rule, link, at, _) =>
      && Classify(input.message.text) == DetailsMessage && details == NormalizeLineEndings(input.message.text)
      && link == LinkOf(input.message) && at == input.moment.checkedAt
      && MatchRule(Some(seed), details, input.message) == Some(rule)
    case _ => true
  }

  ghost predicate GrowsFrom(before: seq<Happening>, after: seq<Happening>, input: Input) {
    before <= after && forall i | |before| <= i < |after| :: ComesFrom(after[i], input)
  }

  lemma IngestSeedGrows(m: MatcherState, setup: Setup, input: Input)
    requires Classify(input.message.text) == SeedMessage
    ensures GrowsFrom(m.journal, IngestSeed(m, setup, input.message, input.moment).0.journal, input)
  {
    hide Classify, ValidateSeedFormat, SeedFrom;
    SeedFromHeader(input.message, input.moment.receivedAt);
  }

  lemma SeedFromHeader(message: InboundMessage, receivedAt: real)
    ensures forall header :: SeedFrom(message, header, receivedAt).header == header
  {
  }

  lemma IngestDetailsGrows(m: MatcherState, setup: Setup, input: Input)
    requires Classify(input.message.text) == DetailsMessage
    ensures GrowsFrom(m.journal, IngestDetails(m, setup, input.message, input.moment).0.journal, input)
  {
    hide Classify, ValidateDetailsText, Publish, MatchRule, NormalizeLineEndings;
    var current := ExpireIfNeeded(m, setup, input.moment.checkedAt);
    if ValidateDetailsText(input.message.text).Success? {
      ValidatedDetailsAgain(input.message.text);
      RuleNeedsPending(current.pending, ValidateDetailsText(input.message.text).value, input.message);
    }
  }

  lemma HandleGrows(h: HandlerState, setup: Setup, input: Input)
    ensures GrowsFrom(h.matcher.journal, Handle(h, setup, input.message, input.moment).0.matcher.journal, input)
  {
    hide Classify, RawMessageHash, MessageKey, IngestSeed, IngestDetails;
    match Classify(input.message.text)
    case SeedMessage => IngestSeedGrows(h.matcher, setup, input);
    case DetailsMessage => IngestDetailsGrows(h.matcher, setup, input);
    case _ =>
  }

  function JournalOf(d: Directory, setup: Setup, inputs: seq<Input>): seq<Happening> {
    RunHandler(Initial(d), setup, inputs).matcher.journal
  }

  lemma JournalGrows(d: Directory, setup: Setup, inputs: seq<Input>, n: nat)
    requires n < |inputs|
    ensures GrowsFrom(JournalOf(d, setup, inputs[..n]), JournalOf(d, setup, inputs[..n + 1]), inputs[n])
  {
    hide Handle, GrowsFrom;
    var longer := inputs[..n + 1];
    assert longer[..|longer| - 1] == inputs[..n] && longer[|longer| - 1] == inputs[n];
    HandleGrows(RunHandler(Initial(d), setup, inputs[..n]), setup, inputs[n]);
  }

  lemma {:induction false} JournalPrefix(d: Directory, setup: Setup, inputs: seq<Input>, n: nat, m: nat)
    requires n <= m <= |inputs|
    ensures JournalOf(d, setup, inputs[..n]) <= JournalOf(d, setup, inputs[..m])
  {
    hide JournalOf, ComesFrom;
    if n < m {
      JournalPrefix(d, setup, inputs, n, m - 1);
      JournalGrows(d, setup, inputs, m - 1);
    }
  }

  /** Every happening was added by one input of the run. */
  lemma {:induction false} Origin(d: Directory, setup: Setup, inputs: seq<Input>, m: nat, i: nat) returns (n: nat)
    requires m <= |inputs| && i < |JournalOf(d, setup, inputs[..m])|
    ensures n < m && |JournalOf(d, setup, inputs[..n])| <= i < |JournalOf(d, setup, inputs[..n + 1])|
    ensures ComesFrom(JournalOf(d, setup, inputs[..m])[i], inputs[n])
  {
    hide JournalOf, ComesFrom;
    if m == 0 {
      NothingYet(d, setup, inputs);
      assert false;
    }
    JournalGrows(d, setup, inputs, m - 1);
    if i < |JournalOf(d, setup, inputs[..m - 1])| {
      n := Origin(d, setup, inputs, m - 1, i);
    } else {
      n := m - 1;
    }
  }

  lemma NothingYet(d: Directory, setup: Setup, inputs: seq<Input>)
    ensures JournalOf(d, setup, inputs[..0]) == []
  {
  }

  /**
   Every consumed pair uses the latest accepted seed, accepted earlier and not consumed, replaced or
   expired in between. The seed comes from one message of the run and the details from a later one;
   the seed was within its timeout; and those details reply to the seed, share its group, or have its
   symbol and direction.
   */
  lemma EveryPairIsSound(d: Directory, setup: Setup, inputs: seq<Input>, i: nat) returns (k: nat, a: nat, b: nat)
    requires i < |JournalOf(d, setup, inputs)| && JournalOf(d, setup, inputs)[i].Consumed?
    ensures var journal := JournalOf(d, setup, inputs);
            && k < i && journal[k] == Accepted(journal[i].seed)
            && (forall m | k < m < i :: !MovesSeed(journal[m]))
            && journal[i].checkedAt - journal[i].seed.receivedAt <= setup.pairTimeoutSeconds as real
            && RuleHolds(journal[i].rule, journal[i].link, journal[i].seed, journal[i].details)
            && a < b < |inputs| && ComesFrom(journal[k], inputs[a]) && ComesFrom(journal[i], inputs[b])
  {
    hide RunHandler, RuleHolds, SeedFrom, ValidateSeedFormat, MatchRule, Classify, NormalizeLineEndings;
    var journal, t := JournalOf(d, setup, inputs), setup.pairTimeoutSeconds;
    RunAgrees(d, setup, inputs);
    LegalPrefix(journal, t, i + 1);
    assert journal[..i + 1][..i] == journal[..i];
    k := WaitingSince(journal[..i], t);
    assert inputs[..|inputs|] == inputs;
    a := Origin(d, setup, inputs, |inputs|, k);
    b := Origin(d, setup, inputs, |inputs|, i);
    if b < a {
      JournalPrefix(d, setup, inputs, b + 1, a);
      assert false;
    }
  }

  // ---------- keys ----------

  lemma DecimalInjective(a: int, b: int)
    ensures Decimal(a) == Decimal(b) <==> a == b
  {
    hide Decimal, ReadDecimal;
    DecimalRoundTrip(a);
    DecimalRoundTrip(b);
  }

  lemma NoColonInDecimal(n: int)
    ensures ':' !in Decimal(n)
  {
    hide Digits;
    var s := Decimal(n);
    if n < 0 {
      assert forall i | 0 < i < |s| :: s[i] == s[1..][i - 1];
    }
  }

  /** Two messages have one key exactly when they have the same channel and the same id in it. */
  lemma MessageKeyIdentifies(a: InboundMessage, b: InboundMessage)
    ensures MessageKey(a) == MessageKey(b) <==> a.channelId == b.channelId && a.messageId == b.messageId
  {
    hide Decimal;
    DecimalInjective(a.channelId, b.channelId);
    DecimalInjective(a.messageId, b.messageId);
    NoColonInDecimal(a.channelId);
    NoColonInDecimal(b.channelId);
    if MessageKey(a) == MessageKey(b) {
      SplitAtColon(Decimal(a.channelId), Decimal(a.messageId), Decimal(b.channelId), Decimal(b.messageId));
    }
  }

  lemma SplitAtColon(a: string, rest: string, b: string, rest': string)
    requires ':' !in a && ':' !in b && a + ":" + rest == b + ":" + rest'
    ensures a == b && rest == rest'
  {
    var s := a + ":" + rest;
    assert s[|a|] == ':' && s[|b|] == ':';
    assert forall i | 0 <= i < |a| :: s[i] == a[i];
    assert forall i | 0 <= i < |b| :: s[i] == b[i];
    assert s[..|a|] == a && s[..|b|] == b;
    assert s[|a| + 1..] == rest && s[|b| + 1..] == rest';
  }

  /** A pair joined by its group joins two messages of the very same group. */
  lemma GroupJoinsOneGroup(d: Directory, setup: Setup, inputs: seq<Input>, i: nat) returns (a: nat, b: nat)
    requires i < |JournalOf(d, setup, inputs)| && JournalOf(d, setup, inputs)[i].Consumed?
    requires JournalOf(d, setup, inputs)[i].rule == ByGroup
    ensures a < b < |inputs|
    ensures ComesFrom(Accepted(JournalOf(d, setup, inputs)[i].seed), inputs[a]) && ComesFrom(JournalOf(d, setup, inputs)[i], inputs[b])
    ensures inputs[a].message.groupedId.Some? && inputs[a].message.groupedId == inputs[b].message.groupedId
  {
    hide JournalOf, Decimal, Classify, ValidateSeedFormat, NormalizeLineEndings, MatchRule;
    var k;
    k, a, b := EveryPairIsSound(d, setup, inputs, i);
    DecimalInjective(Given(inputs[a].message.groupedId), Given(inputs[b].message.groupedId));
  }

  function Given(group: Option<int>): int { if group.Some? then group.value else 0 }

  // ---------- the publisher's duplicate check ----------

  /** A recorded fingerprint stems from details whose content the handler has marked as seen. */
  ghost predicate Marked(fingerprint: Digest, hashes: set<Digest>) {
    exists pair: ValidPair ::
      Checked(pair) && PairFingerprint(pair) == fingerprint && RawMessageHash(pair.details) in hashes
  }

  ghost predicate Tracked(h: HandlerState) {
    forall fingerprint | fingerprint in h.matcher.publisher.fingerprints :: Marked(fingerprint, h.seenHashes)
  }

  lemma DetailsOfPair(q: Request)
    requires Validate(q).Success?
    ensures Validate(q).value.1.details == NormalizeLineEndings(q.detailsText)
    ensures Validate(q).value.1.seed == Strip(Strip(q.seedText))
  {
    hide ValidateBasename, MatchHead, StripLeft, StripRight;
  }

  lemma HashOfNormalized(text: string)
    ensures RawMessageHash(NormalizeLineEndings(text)) == RawMessageHash(text)
  {
    NormalizeIdempotent(text);
  }

  /** Details whose content is new never repeat a recorded pair, whatever the seed. */
  lemma NewContentNewPair(h: HandlerState, text: string, q: Request)
    requires Tracked(h) && RawMessageHash(text) !in h.seenHashes
    requires q.detailsText == NormalizeLineEndings(text) && Validate(q).Success?
    ensures PairFingerprint(Validate(q).value.1) !in h.matcher.publisher.fingerprints
    ensures Marked(PairFingerprint(Validate(q).value.1), h.seenHashes + {RawMessageHash(text)})
  {
    hide RawMessageHash, PairFingerprint, Validate, Checked, NormalizeLineEndings;
    var pair := Validate(q).value.1;
    DetailsOfPair(q);
    ValidatedIsChecked(q);
    HashOfNormalized(text);
    NormalizeIdempotent(text);
    if PairFingerprint(pair) in h.matcher.publisher.fingerprints {
      assert Marked(PairFingerprint(pair), h.seenHashes);
      var other: ValidPair :| Checked(other) && PairFingerprint(other) == PairFingerprint(pair)
                              && RawMessageHash(other.details) in h.seenHashes;
      CheckedInjective(other, pair);
      assert false;
    }
  }

  /** What a call records when its pair is new. */
  lemma NewPairRecords(s: PublisherState, q: Request, fault: Fault)
    requires Validate(q).Success? ==> PairFingerprint(Validate(q).value.1) !in s.fingerprints
    ensures var (s', r) := Publish(s, q, fault);
            if r.Success? || (r.error == Raised(LogReady) && !q.dryRun)
            then Validate(q).Success? && s'.fingerprints == s.fingerprints + {PairFingerprint(Validate(q).value.1)}
            else s'.fingerprints == s.fingerprints
  {
    hide Validate, PairFingerprint, DirectoryAfter;
  }

  /** Happenings after which one more fingerprint is on record. */
  function Recordings(journal: seq<Happening>, dryRun: bool): nat {
    if journal == [] then 0
    else
      var earlier := Recordings(journal[..|journal| - 1], dryRun);
      match journal[|journal| - 1]
      case Consumed(_, _, _, _, _, _) => earlier + 1
      case PublishRaised(_, _, error) => if error == Raised(LogReady) && !dryRun then earlier + 1 else earlier
      case _ => earlier
  }

  predicate RecordsOne(next: Happening, dryRun: bool) {
    next.Consumed? || (next.PublishRaised? && next.error == Raised(LogReady) && !dryRun)
  }

  lemma RecordingsExtend(journal: seq<Happening>, next: Happening, dryRun: bool)
    ensures Recordings(journal + [next], dryRun) == Recordings(journal, dryRun) + (if RecordsOne(next, dryRun) then 1 else 0)
  {
    assert (journal + [next])[..|journal + [next]| - 1] == journal;
  }

  /** The fingerprints number exactly the recordings: no publish was ever answered from the duplicate check. */
  ghost predicate Recorded(m: MatcherState, dryRun: bool) {
    |m.publisher.fingerprints| == Recordings(m.journal, dryRun)
  }

  lemma ExpireRecords(m: MatcherState, setup: Setup, now: real)
    requires Recorded(m, setup.dryRun)
    ensures Recorded(ExpireIfNeeded(m, setup, now), setup.dryRun)
  {
    hide Recordings;
    if m.pending.Some? {
      RecordingsExtend(m.journal, Expired(m.pending.value, now), setup.dryRun);
    }
  }

  lemma TakeSlotRecords(m: MatcherState, seed: Seed, dryRun: bool)
    requires Recorded(m, dryRun)
    ensures Recorded(TakeSlot(m, seed), dryRun)
  {
    hide Recordings;
    if m.pending.Some? {
      RecordingsExtend(m.journal, Replaced(m.pending.value), dryRun);
      RecordingsExtend(m.journal + [Replaced(m.pending.value)], Accepted(seed), dryRun);
    } else {
      RecordingsExtend(m.journal, Accepted(seed), dryRun);
      assert m.journal + [] == m.journal;
    }
  }

  /** One publish through the matcher whose content is new. */
  lemma PublishPendingRecords(h: HandlerState, current: MatcherState, setup: Setup, text: string, rule: Rule, link: Link, moment: Moment)
    requires Tracked(h) && current.publisher == h.matcher.publisher && current.pending.Some?
    requires Recorded(current, setup.dryRun) && RawMessageHash(text) !in h.seenHashes
    ensures var m' := PublishPending(current, setup, NormalizeLineEndings(text), rule, link, moment).0;
            && Recorded(m', setup.dryRun)
            && Tracked(HandlerState(h.seenKeys, h.seenHashes + {RawMessageHash(text)}, m'))
  {
    hide Recordings, Validate, PairFingerprint, Publish, RawMessageHash, NormalizeLineEndings, Checked;
    var details := NormalizeLineEndings(text);
    var q := RequestFor(setup, current.pending.value, details, moment.uuids);
    if Validate(q).Success? {
      NewContentNewPair(h, text, q);
    }
    NewPairRecords(current.publisher, q, moment.fault);
    var m' := PublishPending(current, setup, details, rule, link, moment).0;
    RecordingsExtend(current.journal, m'.journal[|m'.journal| - 1], setup.dryRun);
    MarkedGrows(h.matcher.publisher.fingerprints, h.seenHashes, h.seenHashes + {RawMessageHash(text)});
  }

  lemma MarkedGrows(fingerprints: set<Digest>, hashes: set<Digest>, more: set<Digest>)
    requires hashes <= more && forall f | f in fingerprints :: Marked(f, hashes)
    ensures forall f | f in fingerprints :: Marked(f, more)
  {
    hide Checked, PairFingerprint, RawMessageHash;
  }

  lemma HandleRecords(h: HandlerState, setup: Setup, message: InboundMessage, moment: Moment)
    requires Tracked(h) && Recorded(h.matcher, setup.dryRun)
    ensures Tracked(Handle(h, setup, message, moment).0)
    ensures Recorded(Handle(h, setup, message, moment).0.matcher, setup.dryRun)
  {
    hide Recordings, Publish, Classify, ValidateSeedFormat, ValidateDetailsText, ParseDetailsHeader, Marked;
    hide ExpireIfNeeded, PublishPending, TakeSlot, SeedFrom, MessageKey, RawMessageHash, MatchRule;
    var m := h.matcher;
    var current := ExpireIfNeeded(m, setup, moment.checkedAt);
    ExpireRecords(m, setup, moment.checkedAt);
    ExpireKeepsPublisher(m, setup, moment.checkedAt);
    MarkedGrows(m.publisher.fingerprints, h.seenHashes, h.seenHashes + {RawMessageHash(message.text)});
    forall reason ensures Recorded(m.(journal := m.journal + [Skipped(reason)]), setup.dryRun) {
      RecordingsExtend(m.journal, Skipped(reason), setup.dryRun);
    }
    match Classify(message.text)
    case SeedMessage =>
      if ValidateSeedFormat(message.text).Success? {
        var seed := SeedFrom(message, ValidateSeedFormat(message.text).value, moment.receivedAt);
        TakeSlotRecords(current, seed, setup.dryRun);
        TakeSlotKeepsPublisher(current, seed);
      }
    case DetailsMessage =>
      RecordingsExtend(current.journal, Skipped(DetailsWithoutSeed), setup.dryRun);
      if ValidateDetailsText(message.text).Success? && RawMessageHash(message.text) !in h.seenHashes {
        ValidatedDetailsAgain(message.text);
        var rule := MatchRule(current.pending, ValidateDetailsText(message.text).value, message);
        if rule.Some? {
          RuleNeedsPending(current.pending, ValidateDetailsText(message.text).value, message);
          PublishPendingRecords(h, current, setup, message.text, rule.value, LinkOf(message), moment);
        }
      }
    case _ =>
  }

  lemma ExpireKeepsPublisher(m: MatcherState, setup: Setup, now: real)
    ensures ExpireIfNeeded(m, setup, now).publisher == m.publisher
  {
  }

  lemma TakeSlotKeepsPublisher(m: MatcherState, seed: Seed)
    ensures TakeSlot(m, seed).publisher == m.publisher
  {
  }

  lemma RuleNeedsPending(pending: Option<Seed>, details: string, message: InboundMessage)
    ensures MatchRule(pending, details, message).Some? ==> pending.Some?
  {
  }

  /**
   In every run through one handler the fingerprints on record number exactly the publishes that
   recorded one, so the duplicate branch of publish_pair, which records none, was never taken.
   */
  lemma {:induction false} DuplicateCheckNeverTaken(d: Directory, setup: Setup, inputs: seq<Input>)
    ensures var h := RunHandler(Initial(d), setup, inputs);
            Tracked(h) && |h.matcher.publisher.fingerprints| == Recordings(h.matcher.journal, setup.dryRun)
  {
    hide Handle;
    if inputs != [] {
      var last := inputs[|inputs| - 1];
      DuplicateCheckNeverTaken(d, setup, inputs[..|inputs| - 1]);
      HandleRecords(RunHandler(Initial(d), setup, inputs[..|inputs| - 1]), setup, last.message, last.moment);
    }
  }

  // ---------- what the directory shows ----------

  /** The texts of the last consumed pair. */
  function LastConsumed(journal: seq<Happening>): Option<Pair> {
    if journal == [] then None
    else
      match journal[|journal| - 1]
      case Consumed(seed, details, _, _, _, _) => Some(Pair(Some(seed.text), Some(details)))
      case _ => LastConsumed(journal[..|journal| - 1])
  }

  lemma LastConsumedExtend(journal: seq<Happening>, next: Happening)
    ensures LastConsumed(journal + [next]) ==
            match next
            case Consumed(seed, details, _, _, _, _) => Some(Pair(Some(seed.text), Some(details)))
            case _ => LastConsumed(journal)
  {
    assert (journal + [next])[..|journal + [next]| - 1] == journal;
  }

  ghost predicate SoundSetup(setup: Setup, names: Names) {
    && !setup.dryRun && names.seed != names.details
    && ValidateBasename(setup.names.seed) == Success(names.seed)
    && ValidateBasename(setup.names.details) == Success(names.details)
  }

  predicate SteadyMoment(moment: Moment) {
    moment.fault == NoFault || Restores(moment.fault)
  }

  ghost predicate Shows(m: MatcherState, d: Directory, names: Names) {
    && (m.pending.Some? ==> Strip(m.pending.value.text) == m.pending.value.text)
    && m.publisher.directory ==
       match LastConsumed(m.journal)
       case None => d
       case Some(pair) => WithPair(d, names, pair)
  }

  lemma ExpireShows(m: MatcherState, setup: Setup, now: real, d: Directory, names: Names)
    requires Shows(m, d, names)
    ensures Shows(ExpireIfNeeded(m, setup, now), d, names)
  {
    hide LastConsumed, WithPair;
    if m.pending.Some? {
      LastConsumedExtend(m.journal, Expired(m.pending.value, now));
    }
  }

  lemma TakeSlotShows(m: MatcherState, seed: Seed, d: Directory, names: Names)
    requires Shows(m, d, names) && Strip(seed.text) == seed.text
    ensures Shows(TakeSlot(m, seed), d, names)
  {
    hide LastConsumed, WithPair;
    if m.pending.Some? {
      LastConsumedExtend(m.journal, Replaced(m.pending.value));
      LastConsumedExtend(m.journal + [Replaced(m.pending.value)], Accepted(seed));
    } else {
      LastConsumedExtend(m.journal, Accepted(seed));
      assert m.journal + [] == m.journal;
    }
  }

  lemma NewPairShows(s: PublisherState, q: Request, fault: Fault, names: Names)
    requires names.seed != names.details && !q.dryRun && (fault == NoFault || Restores(fault))
    requires ValidateBasename(q.names.seed) == Success(names.seed) && ValidateBasename(q.names.details) == Success(names.details)
    requires Validate(q).Success? ==> PairFingerprint(Validate(q).value.1) !in s.fingerprints
    ensures var (s', r) := Publish(s, q, fault);
            if r.Success? then Validate(q).Success? && s'.directory == WithPair(s.directory, names, Shown(Validate(q).value.1))
            else s'.directory == s.directory
  {
    hide ValidateBasename, ValidatePairPayload, PairFingerprint, WithPair;
    if Validate(q).Success? {
      AllOrNothing(s.directory, CallFor(names, Validate(q).value.1, q), fault);
    }
  }

  lemma RequestShowsPending(setup: Setup, seed: Seed, text: string, uuids: Uuids)
    requires Strip(seed.text) == seed.text
    requires Validate(RequestFor(setup, seed, NormalizeLineEndings(text), uuids)).Success?
    ensures Shown(Validate(RequestFor(setup, seed, NormalizeLineEndings(text), uuids)).value.1)
            == Pair(Some(seed.text), Some(NormalizeLineEndings(text)))
  {
    hide Validate, Strip, NormalizeLineEndings;
    DetailsOfPair(RequestFor(setup, seed, NormalizeLineEndings(text), uuids));
    NormalizeIdempotent(text);
  }

  lemma PublishPendingShows(h: HandlerState, current: MatcherState, setup: Setup, text: string, rule: Rule, link: Link, moment: Moment,
                            d: Directory, names: Names)
    requires Tracked(h) && current.publisher == h.matcher.publisher && current.pending.Some?
    requires RawMessageHash(text) !in h.seenHashes
    requires SoundSetup(setup, names) && SteadyMoment(moment) && Shows(current, d, names)
    ensures Shows(PublishPending(current, setup, NormalizeLineEndings(text), rule, link, moment).0, d, names)
  {
    hide Validate, PairFingerprint, Publish, RawMessageHash, NormalizeLineEndings, LastConsumed, WithPair, ValidateBasename;
    hide Strip, Tracked, Marked, Checked, Restores;
    var details := NormalizeLineEndings(text);
    var q := RequestFor(setup, current.pending.value, details, moment.uuids);
    if Validate(q).Success? {
      NewContentNewPair(h, text, q);
      RequestShowsPending(setup, current.pending.value, text, moment.uuids);
    }
    NewPairShows(current.publisher, q, moment.fault, names);
    var m' := PublishPending(current, setup, details, rule, link, moment).0;
    LastConsumedExtend(current.journal, m'.journal[|m'.journal| - 1]);
    if LastConsumed(current.journal).Some? && Validate(q).Success? {
      SamePair(d, names, LastConsumed(current.journal).value, Shown(Validate(q).value.1));
    }
  }

  lemma SeedTextStripped(message: InboundMessage, header: Header, receivedAt: real)
    ensures Strip(SeedFrom(message, header, receivedAt).text) == SeedFrom(message, header, receivedAt).text
  {
    hide Strip;
    StripIdempotent(message.text);
  }

  lemma HandleShows(h: HandlerState, setup: Setup, message: InboundMessage, moment: Moment, d: Directory, names: Names)
    requires Tracked(h) && SoundSetup(setup, names) && SteadyMoment(moment) && Shows(h.matcher, d, names)
    ensures Shows(Handle(h, setup, message, moment).0.matcher, d, names)
  {
    hide LastConsumed, WithPair, Strip, Publish, Classify, ValidateSeedFormat, ValidateDetailsText, ParseDetailsHeader;
    hide Tracked, SoundSetup, ExpireIfNeeded, PublishPending, TakeSlot, SeedFrom, MessageKey, RawMessageHash, MatchRule;
    var m := h.matcher;
    var current := ExpireIfNeeded(m, setup, moment.checkedAt);
    ExpireShows(m, setup, moment.checkedAt, d, names);
    ExpireKeepsPublisher(m, setup, moment.checkedAt);
    forall reason ensures Shows(m.(journal := m.journal + [Skipped(reason)]), d, names) {
      LastConsumedExtend(m.journal, Skipped(reason));
    }
    match Classify(message.text)
    case SeedMessage =>
      if ValidateSeedFormat(message.text).Success? {
        var header := ValidateSeedFormat(message.text).value;
        SeedTextStripped(message, header, moment.receivedAt);
        TakeSlotShows(current, SeedFrom(message, header, moment.receivedAt), d, names);
      }
    case DetailsMessage =>
      LastConsumedExtend(current.journal, Skipped(DetailsWithoutSeed));
      if ValidateDetailsText(message.text).Success? && RawMessageHash(message.text) !in h.seenHashes {
        ValidatedDetailsAgain(message.text);
        var rule := MatchRule(current.pending, ValidateDetailsText(message.text).value, message);
        if rule.Some? {
          RuleNeedsPending(current.pending, ValidateDetailsText(message.text).value, message);
          PublishPendingShows(h, current, setup, message.text, rule.value, LinkOf(message), moment, d, names);
        }
      }
    case _ =>
  }

  /**
   From messages to files: over any run of real publishes whose faults fall in the restoring window,
   the directory is the one it started from with the last consumed pair in its two final names.
   */
  lemma {:induction false} DirectoryShowsLastConsumed(d: Directory, setup: Setup, names: Names, inputs: seq<Input>)
    requires SoundSetup(setup, names) && forall input | input in inputs :: SteadyMoment(input.moment)
    ensures Shows(RunHandler(Initial(d), setup, inputs).matcher, d, names)
  {
    hide Handle, Tracked, SoundSetup;
    if inputs != [] {
      var front, last := inputs[..|inputs| - 1], inputs[|inputs| - 1];
      assert last in inputs;
      DirectoryShowsLastConsumed(d, setup, names, front);
      DuplicateCheckNeverTaken(d, setup, front);
      HandleShows(RunHandler(Initial(d), setup, front), setup, last.message, last.moment, d, names);
    }
  }
}
