/**
 Pairing a seed with its details: PairMatcher, TelegramPairMatcher and TelegramMessageHandler of
 integrations/telegram/fasttrack_file_bridge.py. The functions say what one message does to the
 abstract state; the classes change their fields in place and are proved to do the same.
 */
module Pairing {
  import opened Wrappers
  import opened Decimals
  import opened MessageText
  import opened AtomicPublish

  datatype Seed = Seed(
    text: string,
    messageId: string,
    header: Header,
    receivedAt: real,
    channelId: string,
    groupedId: Option<string>,
    telegramMessageId: Option<int>)

  datatype Rule = ByGroup | ByReply | ByHeader | ByOrder

  /** The group and the message that details point to. */
  datatype Link = Link(groupedId: Option<int>, replyToMsgId: Option<int>)

  const NO_LINK := Link(None, None)

  datatype SkipReason = TelegramDedup | EmptyMessage | NonAsciiMessage | UnrecognizedMessage | DetailsWithoutSeed

  /** What a message did, in order: the logger's lines, and the two acts it does not log. */
  datatype Happening =
    | Accepted(seed: Seed)
    | Replaced(seed: Seed)
    | Expired(seed: Seed, checkedAt: real)
    | Consumed(seed: Seed, details: string, rule: Rule, link: Link, checkedAt: real, result: PublishResult)
    | PublishRaised(seed: Seed, details: string, error: PublishError)
    | Skipped(reason: SkipReason)

  datatype InboundMessage = InboundMessage(
    text: string,
    messageId: int,
    channelId: int,
    groupedId: Option<int>,
    replyToMsgId: Option<int>)

  /** What the surroundings decide while one message is handled: two clock readings, uuids, a fault. */
  datatype Moment = Moment(checkedAt: real, receivedAt: real, uuids: Uuids, fault: Fault)

  function LinkOf(message: InboundMessage): Link { Link(message.groupedId, message.replyToMsgId) }

  datatype Setup = Setup(names: Names, pairTimeoutSeconds: int, dryRun: bool)

  datatype MatcherState = MatcherState(pending: Option<Seed>, publisher: PublisherState, journal: seq<Happening>)

  // ---------- the matcher as functions ----------

  function ExpireIfNeeded(m: MatcherState, setup: Setup, now: real): MatcherState {
    if m.pending.Some? && now - m.pending.value.receivedAt > setup.pairTimeoutSeconds as real then
      m.(pending := None, journal := m.journal + [Expired(m.pending.value, now)])
    else m
  }

  function SeedFrom(message: InboundMessage, header: Header, receivedAt: real): Seed {
    Seed(Strip(message.text), Decimal(message.messageId), header, receivedAt, Decimal(message.channelId),
         if message.groupedId.Some? then Some(Decimal(message.groupedId.value)) else None,
         Some(message.messageId))
  }

  /** A validated seed takes the pending slot; a seed already there is logged as replaced. */
  function TakeSlot(current: MatcherState, seed: Seed): MatcherState {
    var replaced := if current.pending.Some? then [Replaced(current.pending.value)] else [];
    current.(pending := Some(seed), journal := current.journal + replaced + [Accepted(seed)])
  }

  function IngestSeed(m: MatcherState, setup: Setup, message: InboundMessage, moment: Moment)
    : (MatcherState, Outcome<PublishError>)
  {
    var current := ExpireIfNeeded(m, setup, moment.checkedAt);
    match ValidateSeedFormat(message.text)
    case Failure(error) => (current, Fail(Invalid(error)))
    case Success(header) => (TakeSlot(current, SeedFrom(message, header, moment.receivedAt)), Pass)
  }

  /** The three matching rules, in order, asked of the pending seed alone. */
  function MatchRule(pending: Option<Seed>, details: string, message: InboundMessage): Option<Rule> {
    if pending.None? then None
    else
      var seed, header := pending.value, ParseDetailsHeader(details);
      if message.groupedId.Some? && seed.groupedId == Some(Decimal(message.groupedId.value))
         && (header.None? || header.value == seed.header) then Some(ByGroup)
      else if message.replyToMsgId.Some? && message.replyToMsgId == seed.telegramMessageId then Some(ByReply)
      else if header == Some(seed.header) then Some(ByHeader)
      else None
  }

  function RequestFor(setup: Setup, seed: Seed, details: string, uuids: Uuids): Request {
    Request(setup.names, seed.text, details, uuids, setup.dryRun)
  }

  function IngestDetails(m: MatcherState, setup: Setup, message: InboundMessage, moment: Moment)
    : (MatcherState, Outcome<PublishError>)
  {
    var current := ExpireIfNeeded(m, setup, moment.checkedAt);
    match ValidateDetailsText(message.text)
    case Failure(error) => (current, Fail(Invalid(error)))
    case Success(details) =>
      match MatchRule(current.pending, details, message)
      case None => (current.(journal := current.journal + [Skipped(DetailsWithoutSeed)]), Pass)
      case Some(rule) => PublishPending(current, setup, details, rule, LinkOf(message), moment)
  }

  /** The pending seed is published with the details; only a normal return frees the slot. */
  function PublishPending(current: MatcherState, setup: Setup, details: string, rule: Rule, link: Link, moment: Moment)
    : (MatcherState, Outcome<PublishError>)
    requires current.pending.Some?
  {
    var seed := current.pending.value;
    var (publisher, result) := Publish(current.publisher, RequestFor(setup, seed, details, moment.uuids), moment.fault);
    match result
    case Failure(error) =>
      (current.(publisher := publisher, journal := current.journal + [PublishRaised(seed, details, error)]), Fail(error))
    case Success(published) =>
      (MatcherState(None, publisher, current.journal + [Consumed(seed, details, rule, link, moment.checkedAt, published)]), Pass)
  }

  // ---------- the plain matcher, fed from standard input ----------

  function PlainSeed(text: string, messageId: string, header: Header, receivedAt: real): Seed {
    Seed(Strip(text), if messageId == "" then "unknown-seed" else messageId, header, receivedAt, "", None, None)
  }

  function IngestPlainSeed(m: MatcherState, setup: Setup, text: string, messageId: string, moment: Moment)
    : (MatcherState, Outcome<PublishError>)
  {
    var current := ExpireIfNeeded(m, setup, moment.checkedAt);
    match ValidateSeedFormat(text)
    case Failure(error) => (current, Fail(Invalid(error)))
    case Success(header) => (TakeSlot(current, PlainSeed(text, messageId, header, moment.receivedAt)), Pass)
  }

  function IngestPlainDetails(m: MatcherState, setup: Setup, text: string, moment: Moment)
    : (MatcherState, Outcome<PublishError>)
  {
    var current := ExpireIfNeeded(m, setup, moment.checkedAt);
    match ValidateDetailsText(text)
    case Failure(error) => (current, Fail(Invalid(error)))
    case Success(details) =>
      if current.pending.None? then (current.(journal := current.journal + [Skipped(DetailsWithoutSeed)]), Pass)
      else PublishPending(current, setup, details, ByOrder, NO_LINK, moment)
  }

  // ---------- the handler as a function ----------

  datatype HandlerState = HandlerState(seenKeys: set<string>, seenHashes: set<Digest>, matcher: MatcherState)

  /** A handler, matcher and publisher just built on a directory. */
  function Initial(d: Directory): HandlerState {
    HandlerState({}, {}, MatcherState(None, PublisherState(d, {}), []))
  }

  function MessageKey(message: InboundMessage): string {
    Decimal(message.channelId) + ":" + Decimal(message.messageId)
  }

  function Skip(h: HandlerState, reason: SkipReason): (HandlerState, Outcome<PublishError>) {
    (h.(matcher := h.matcher.(journal := h.matcher.journal + [Skipped(reason)])), Pass)
  }

  function Handle(h: HandlerState, setup: Setup, message: InboundMessage, moment: Moment)
    : (HandlerState, Outcome<PublishError>)
  {
    if MessageKey(message) in h.seenKeys then Skip(h, TelegramDedup)
    else
      match Classify(message.text)
      case Empty => Skip(h, EmptyMessage)
      case NonAscii => Skip(h, NonAsciiMessage)
      case classification =>
        if RawMessageHash(message.text) in h.seenHashes then Skip(h, TelegramDedup)
        else
          var marked := h.(seenKeys := h.seenKeys + {MessageKey(message)},
                           seenHashes := h.seenHashes + {RawMessageHash(message.text)});
          match classification
          case SeedMessage =>
            var (matcher, outcome) := IngestSeed(h.matcher, setup, message, moment);
            (marked.(matcher := matcher), outcome)
          case DetailsMessage =>
            var (matcher, outcome) := IngestDetails(h.matcher, setup, message, moment);
            (marked.(matcher := matcher), outcome)
          case _ => Skip(marked, UnrecognizedMessage)
  }

  // ---------- the objects ----------

  /** A seed waiting for its details; compared by identity. */
  class PendingSeed {
    const record: Seed

    constructor (record: Seed)
      ensures this.record == record
    {
      this.record := record;
    }
  }

  /** uuid4 does not collide with a name in the directory. */
  ghost predicate FreshUuids(setup: Setup, moment: Moment, d: Directory) {
    forall q: Request | q.names == setup.names && q.uuids == moment.uuids && Validate(q).Success? ::
      CallFor(Validate(q).value.0, Validate(q).value.1, q).Fresh(d)
  }

  class PairMatcher {
    const setup: Setup
    const root: FileCommonRoot
    const publisher: AtomicPublisher
    var pendingSeed: PendingSeed?
    ghost var journal: seq<Happening>

    constructor (setup: Setup, root: FileCommonRoot, publisher: AtomicPublisher)
      ensures this.setup == setup && this.root == root && this.publisher == publisher
      ensures State() == MatcherState(None, publisher.State(root), [])
    {
      this.setup, this.root, this.publisher := setup, root, publisher;
      pendingSeed, journal := null, [];
    }

    ghost function State(): MatcherState
      reads this, root, publisher
    {
      MatcherState(if pendingSeed == null then None else Some(pendingSeed.record), publisher.State(root), journal)
    }

    method ExpirePendingSeedIfNeeded(now: real)
      modifies this
      ensures State() == ExpireIfNeeded(old(State()), setup, now)
    {
      if pendingSeed != null && now - pendingSeed.record.receivedAt > setup.pairTimeoutSeconds as real {
        journal := journal + [Expired(pendingSeed.record, now)];
        pendingSeed := null;
      }
    }

    method IngestSeed(text: string, messageId: string, moment: Moment) returns (r: Outcome<PublishError>)
      modifies this
      ensures (State(), r) == IngestPlainSeed(old(State()), setup, text, messageId, moment)
    {
      hide ExpireIfNeeded, ValidateSeedFormat, PlainSeed;
      ExpirePendingSeedIfNeeded(moment.checkedAt);
      var header;
      match ValidateSeedFormat(text) {
        case Failure(error) => return Fail(Invalid(error));
        case Success(h) => header := h;
      }
      journal := journal + if pendingSeed != null then [Replaced(pendingSeed.record)] else [];
      pendingSeed := new PendingSeed(PlainSeed(text, messageId, header, moment.receivedAt));
      journal := journal + [Accepted(pendingSeed.record)];
      r := Pass;
    }

    method IngestDetails(text: string, moment: Moment) returns (r: Outcome<PublishError>)
      requires FreshUuids(setup, moment, root.entries)
      modifies this, root, publisher
      ensures (State(), r) == IngestPlainDetails(old(State()), setup, text, moment)
    {
      hide ExpireIfNeeded, Publish, Validate, ValidateDetailsText;
      ExpirePendingSeedIfNeeded(moment.checkedAt);
      var details;
      match ValidateDetailsText(text) {
        case Failure(error) => return Fail(Invalid(error));
        case Success(d) => details := d;
      }
      if pendingSeed == null {
        journal := journal + [Skipped(DetailsWithoutSeed)];
        return Pass;
      }
      var seed := pendingSeed.record;
      var result, _ := publisher.PublishPair(root, RequestFor(setup, seed, details, moment.uuids), moment.fault);
      if result.Failure? {
        journal := journal + [PublishRaised(seed, details, result.error)];
        return Fail(result.error);
      }
      pendingSeed := null;
      journal := journal + [Consumed(seed, details, ByOrder, NO_LINK, moment.checkedAt, result.value)];
      r := Pass;
    }
  }

  class TelegramPairMatcher {
    const setup: Setup
    const root: FileCommonRoot
    const publisher: AtomicPublisher
    var pendingSeed: PendingSeed?
    var seedByGroupedId: map<string, PendingSeed>
    ghost var journal: seq<Happening>

    constructor (setup: Setup, root: FileCommonRoot, publisher: AtomicPublisher)
      ensures this.setup == setup && this.root == root && this.publisher == publisher
      ensures Valid() && State() == MatcherState(None, publisher.State(root), [])
    {
      this.setup, this.root, this.publisher := setup, root, publisher;
      pendingSeed, seedByGroupedId, journal := null, map[], [];
    }

    /** Index agreement: the group index holds the pending seed under its own group key, and nothing else. */
    ghost predicate Valid()
      reads this
    {
      seedByGroupedId == IndexOf(pendingSeed)
    }

    static function IndexOf(pending: PendingSeed?): map<string, PendingSeed> {
      if pending != null && pending.record.groupedId.Some? then map[pending.record.groupedId.value := pending] else map[]
    }

    ghost function Pending(): Option<Seed>
      reads this
    {
      if pendingSeed == null then None else Some(pendingSeed.record)
    }

    ghost function State(): MatcherState
      reads this, root, publisher
    {
      MatcherState(Pending(), publisher.State(root), journal)
    }

    method UnregisterSeed(seed: PendingSeed)
      modifies `seedByGroupedId
      ensures seedByGroupedId ==
              if seed.record.groupedId.Some? && seed.record.groupedId.value in old(seedByGroupedId)
                 && old(seedByGroupedId)[seed.record.groupedId.value] == seed
              then old(seedByGroupedId) - {seed.record.groupedId.value}
              else old(seedByGroupedId)
    {
      if seed.record.groupedId.Some? {
        var key := seed.record.groupedId.value;
        if key in seedByGroupedId && seedByGroupedId[key] == seed {
          seedByGroupedId := seedByGroupedId - {key};
        }
      }
    }

    method ClearPendingSeed(seed: PendingSeed)
      requires Valid() && pendingSeed == seed
      modifies `pendingSeed, `seedByGroupedId
      ensures Valid() && pendingSeed == null
    {
      UnregisterSeed(seed);
      if pendingSeed == seed {
        pendingSeed := null;
      }
    }

    method ExpirePendingSeedIfNeeded(now: real)
      requires Valid()
      modifies this
      ensures Valid() && State() == ExpireIfNeeded(old(State()), setup, now)
      ensures pendingSeed in {null, old(pendingSeed)}
    {
      if pendingSeed == null {
        return;
      }
      var elapsed := now - pendingSeed.record.receivedAt;
      if elapsed > setup.pairTimeoutSeconds as real {
        journal := journal + [Expired(pendingSeed.record, now)];
        ClearPendingSeed(pendingSeed);
      }
    }

    method IngestTelegramSeed(message: InboundMessage, moment: Moment) returns (r: Outcome<PublishError>)
      requires Valid()
      modifies this
      ensures Valid() && (State(), r) == IngestSeed(old(State()), setup, message, moment)
    {
      hide ExpireIfNeeded, ValidateSeedFormat, SeedFrom;
      ExpirePendingSeedIfNeeded(moment.checkedAt);
      var header;
      match ValidateSeedFormat(message.text) {
        case Failure(error) => return Fail(Invalid(error));
        case Success(h) => header := h;
      }
      journal := journal + if pendingSeed != null then [Replaced(pendingSeed.record)] else [];
      if pendingSeed != null {
        UnregisterSeed(pendingSeed);
      }
      var seed := new PendingSeed(SeedFrom(message, header, moment.receivedAt));
      pendingSeed := seed;
      if seed.record.groupedId.Some? {
        seedByGroupedId := seedByGroupedId[seed.record.groupedId.value := seed];
      }
      journal := journal + [Accepted(seed.record)];
      r := Pass;
    }

    /** The index plays no part of its own: the result is the pending seed or nothing. */
    method FindSeedForDetails(details: string, message: InboundMessage) returns (found: PendingSeed?)
      requires Valid()
      ensures found != null ==> found == pendingSeed
      ensures found != null <==> MatchRule(Pending(), details, message).Some?
    {
      hide ParseDetailsHeader, Decimal;
      var header := ParseDetailsHeader(details);
      if message.groupedId.Some? {
        var key := Decimal(message.groupedId.value);
        if key in seedByGroupedId {
          var grouped := seedByGroupedId[key];
          if header.None? || header.value == grouped.record.header {
            return grouped;
          }
        }
      }
      if message.replyToMsgId.Some? && pendingSeed != null {
        if pendingSeed.record.telegramMessageId == message.replyToMsgId {
          return pendingSeed;
        }
      }
      if pendingSeed != null && header.Some? {
        if pendingSeed.record.header == header.value {
          return pendingSeed;
        }
      }
      return null;
    }

    /** A raising publish leaves the pending seed in place; the index is left to the caller. */
    method PublishMatchedPair(seed: PendingSeed, details: string, moment: Moment)
        returns (r: Result<PublishResult, PublishError>)
      requires ValidateDetailsText(details) == Success(details) && FreshUuids(setup, moment, root.entries)
      modifies `pendingSeed, root, publisher
      ensures (publisher.State(root), r) ==
              Publish(old(publisher.State(root)), RequestFor(setup, seed.record, details, moment.uuids), moment.fault)
      ensures pendingSeed == if r.Success? && old(pendingSeed) == seed then null else old(pendingSeed)
    {
      hide Publish, Validate;
      var validated := ValidateDetailsText(details);
      var result, _ := publisher.PublishPair(root, RequestFor(setup, seed.record, validated.value, moment.uuids), moment.fault);
      r := result;
      if r.Success? && pendingSeed == seed {
        pendingSeed := null;
      }
    }

    method IngestTelegramDetails(message: InboundMessage, moment: Moment) returns (r: Outcome<PublishError>)
      requires Valid() && FreshUuids(setup, moment, root.entries)
      modifies this, root, publisher
      ensures Valid() && (State(), r) == IngestDetails(old(State()), setup, message, moment)
    {
      hide ExpireIfNeeded, MatchRule, Publish, Validate, ParseDetailsHeader, ValidateDetailsText;
      ExpirePendingSeedIfNeeded(moment.checkedAt);
      var details;
      match ValidateDetailsText(message.text) {
        case Failure(error) => return Fail(Invalid(error));
        case Success(d) => details := d;
      }
      var seed := FindSeedForDetails(details, message);
      if seed == null {
        journal := journal + [Skipped(DetailsWithoutSeed)];
        return Pass;
      }
      ghost var rule := MatchRule(Pending(), details, message).value;
      ValidatedDetailsAgain(message.text);
      var result := PublishMatchedPair(seed, details, moment);
      if result.Failure? {
        journal := journal + [PublishRaised(seed.record, details, result.error)];
        return Fail(result.error);
      }
      UnregisterSeed(seed);
      journal := journal + [Consumed(seed.record, details, rule, LinkOf(message), moment.checkedAt, result.value)];
      r := Pass;
    }
  }

  lemma ValidatedDetailsAgain(text: string)
    requires ValidateDetailsText(text).Success?
    ensures var details := ValidateDetailsText(text).value;
            details == NormalizeLineEndings(text) && ValidateDetailsText(details) == Success(details)
  {
    NormalizeIdempotent(text);
  }

  class TelegramMessageHandler {
    const matcher: TelegramPairMatcher
    var seenMessageKeys: set<string>
    var seenRawHashes: set<Digest>

    constructor (matcher: TelegramPairMatcher)
      ensures this.matcher == matcher && seenMessageKeys == {} && seenRawHashes == {}
    {
      this.matcher, seenMessageKeys, seenRawHashes := matcher, {}, {};
    }

    ghost function State(): HandlerState
      reads this, matcher, matcher.root, matcher.publisher
    {
      HandlerState(seenMessageKeys, seenRawHashes, matcher.State())
    }

    method LogSkip(reason: SkipReason)
      modifies matcher`journal
      ensures matcher.journal == old(matcher.journal) + [Skipped(reason)]
    {
      matcher.journal := matcher.journal + [Skipped(reason)];
    }

    method HandleMessage(message: InboundMessage, moment: Moment) returns (r: Outcome<PublishError>)
      requires matcher.Valid() && FreshUuids(matcher.setup, moment, matcher.root.entries)
      modifies this, matcher, matcher.root, matcher.publisher
      ensures matcher.Valid() && (State(), r) == Handle(old(State()), matcher.setup, message, moment)
    {
      hide Classify, RawMessageHash, MessageKey, IngestSeed, IngestDetails;
      var key := MessageKey(message);
      if key in seenMessageKeys {
        LogSkip(TelegramDedup);
        return Pass;
      }
      var classification := Classify(message.text);
      if classification == Empty {
        LogSkip(EmptyMessage);
        return Pass;
      }
      if classification == NonAscii {
        LogSkip(NonAsciiMessage);
        return Pass;
      }
      var contentHash := RawMessageHash(message.text);
      if contentHash in seenRawHashes {
        LogSkip(TelegramDedup);
        return Pass;
      }
      seenMessageKeys := seenMessageKeys + {key};
      seenRawHashes := seenRawHashes + {contentHash};
      if classification == SeedMessage {
        r := matcher.IngestTelegramSeed(message, moment);
        return;
      }
      if classification == DetailsMessage {
        r := matcher.IngestTelegramDetails(message, moment);
        return;
      }
      LogSkip(UnrecognizedMessage);
      r := Pass;
    }
  }
}
