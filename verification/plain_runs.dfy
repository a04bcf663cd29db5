/**
 Whole runs of the plain matcher, as standard input feeds it: it keeps no record of seen messages and
 pairs details with whatever seed waits, so a pair can come again and meets the publisher's own
 duplicate check (run_simulate_stdin in integrations/telegram/fasttrack_file_bridge.py).
 */
module PlainRuns {
  import opened Wrappers
  import opened MessageText
  import opened AtomicPublish
  import opened PublishRuns
  import opened Pairing
  import opened PairingRuns
  import opened SignalPrices
  import opened TextReadings
  import opened PublishAccepts
  import opened MessageOutcomes

  datatype Event =
    | SeedEvent(text: string, messageId: string, moment: Moment)
    | DetailsEvent(text: string, moment: Moment)

  function Ingest(m: MatcherState, setup: Setup, event: Event): (MatcherState, Outcome<PublishError>) {
    match event
    case SeedEvent(text, messageId, moment) => IngestPlainSeed(m, setup, text, messageId, moment)
    case DetailsEvent(text, moment) => IngestPlainDetails(m, setup, text, moment)
  }

  /** Any sequence of calls, whatever each of them answers. */
  function RunPlain(m: MatcherState, setup: Setup, events: seq<Event>): MatcherState {
    if events == [] then m
    else Ingest(RunPlain(m, setup, events[..|events| - 1]), setup, events[|events| - 1]).0
  }

  /** The loop over standard input: the first call that raises ends it. */
  function Simulate(m: MatcherState, setup: Setup, events: seq<Event>): (MatcherState, Outcome<PublishError>)
    decreases |events|
  {
    if events == [] then (m, Pass)
    else
      var (m', outcome) := Ingest(m, setup, events[0]);
      if outcome.Fail? then (m', outcome) else Simulate(m', setup, events[1..])
  }

  lemma {:induction false} RunFirst(m: MatcherState, setup: Setup, event: Event, events: seq<Event>)
    ensures RunPlain(m, setup, [event] + events) == RunPlain(Ingest(m, setup, event).0, setup, events)
  {
    hide Ingest;
    var all := [event] + events;
    if events == [] {
      assert all[..0] == [];
    } else {
      assert all[..|all| - 1] == [event] + events[..|events| - 1];
      RunFirst(m, setup, event, events[..|events| - 1]);
    }
  }

  /** The loop is the run of the events up to the first that raises, or of all of them. */
  lemma {:induction false} SimulationIsRun(m: MatcherState, setup: Setup, events: seq<Event>) returns (n: nat)
    ensures n <= |events| && Simulate(m, setup, events).0 == RunPlain(m, setup, events[..n])
    ensures Simulate(m, setup, events).1.Pass? ==> n == |events|
    ensures Simulate(m, setup, events).1.Fail? ==>
              n > 0 && Ingest(RunPlain(m, setup, events[..n - 1]), setup, events[n - 1]).1 == Simulate(m, setup, events).1
    decreases |events|
  {
    hide Ingest;
    if events == [] {
      n := 0;
    } else if Ingest(m, setup, events[0]).1.Fail? {
      n := 1;
      assert events[..1] == [events[0]] && events[..1][..0] == [];
    } else {
      var m' := Ingest(m, setup, events[0]).0;
      var k := SimulationIsRun(m', setup, events[1..]);
      n := k + 1;
      assert events[..n] == [events[0]] + events[1..][..k];
      RunFirst(m, setup, events[0], events[1..][..k]);
      if k > 0 {
        assert events[..k] == [events[0]] + events[1..][..k - 1];
        RunFirst(m, setup, events[0], events[1..][..k - 1]);
      }
    }
  }

  // ---------- one event ----------

  /** A gold seed takes the slot, under the given id or a name of its own, and belongs to no channel, group or message. */
  lemma PlainSeedWaits(m: MatcherState, setup: Setup, event: Event, direction: string)
    requires event.SeedEvent? && GoldSeed(event.text, direction)
    ensures var waiting := StillWaiting(m, setup, event.moment.checkedAt);
            var seed := Seed(Strip(event.text), if event.messageId == "" then "unknown-seed" else event.messageId,
                             Header("gold", direction), event.moment.receivedAt, "", None, None);
            var notes := ExpiryNote(m, setup, event.moment.checkedAt)
                         + (if waiting.Some? then [Replaced(waiting.value)] else []) + [Accepted(seed)];
            Ingest(m, setup, event) == (Noted(m, notes).(pending := Some(seed)), Pass)
  {
    hide Strip, ValidateSeedFormat, GoldSeed;
    SeedAcceptedIff(event.text, Header("gold", direction));
    var waiting, note := StillWaiting(m, setup, event.moment.checkedAt), ExpiryNote(m, setup, event.moment.checkedAt);
    var replaced := if waiting.Some? then [Replaced(waiting.value)] else [];
    var seed := PlainSeed(event.text, event.messageId, Header("gold", direction), event.moment.receivedAt);
    assert m.journal + [] == m.journal;
    assert (m.journal + note) + replaced + [Accepted(seed)] == m.journal + (note + replaced + [Accepted(seed)]);
  }

  /** ASCII details are published with whatever seed still waits, which is used up exactly when the call returns, or are skipped. */
  lemma PlainDetailsOutcome(m: MatcherState, setup: Setup, event: Event)
    requires event.DetailsEvent? && Strip(event.text) != "" && forall i | 0 <= i < |event.text| :: event.text[i] as int < 128
    ensures var now := event.moment.checkedAt;
            var waiting, note := StillWaiting(m, setup, now), ExpiryNote(m, setup, now);
            Ingest(m, setup, event) ==
            if waiting.None? then (Noted(m, note + [Skipped(DetailsWithoutSeed)]).(pending := None), Pass)
            else
              var seed, details := waiting.value, NormalizeLineEndings(event.text);
              var q := Request(setup.names, seed.text, details, event.moment.uuids, setup.dryRun);
              var (publisher, result) := Publish(m.publisher, q, event.moment.fault);
              match result
              case Success(published) =>
                (MatcherState(None, publisher, m.journal + note + [Consumed(seed, details, ByOrder, NO_LINK, now, published)]), Pass)
              case Failure(error) =>
                (MatcherState(waiting, publisher, m.journal + note + [PublishRaised(seed, details, error)]), Fail(error))
  {
    hide Strip, NormalizeLineEndings, ValidateDetailsText, Publish;
    DetailsAcceptedIff(event.text);
    var note := ExpiryNote(m, setup, event.moment.checkedAt);
    assert m.journal + [] == m.journal;
    assert (m.journal + note) + [Skipped(DetailsWithoutSeed)] == m.journal + (note + [Skipped(DetailsWithoutSeed)]);
  }

  // ---------- legal journals and conservation ----------

  lemma IngestAgrees(m: MatcherState, setup: Setup, event: Event)
    requires PairingRuns.Agrees(m, setup.pairTimeoutSeconds)
    ensures PairingRuns.Agrees(Ingest(m, setup, event).0, setup.pairTimeoutSeconds)
  {
    hide Legal, Waiting, Publish, ValidateSeedFormat, ValidateDetailsText, ExpireIfNeeded, PublishPending, TakeSlot, PlainSeed;
    var current := ExpireIfNeeded(m, setup, event.moment.checkedAt);
    ExpireAgrees(m, setup, event.moment.checkedAt);
    match event
    case SeedEvent(text, messageId, moment) =>
      if ValidateSeedFormat(text).Success? {
        TakeSlotAgrees(current, PlainSeed(text, messageId, ValidateSeedFormat(text).value, moment.receivedAt), setup.pairTimeoutSeconds);
      }
    case DetailsEvent(text, moment) =>
      Extend(current.journal, Skipped(DetailsWithoutSeed), setup.pairTimeoutSeconds);
      if ValidateDetailsText(text).Success? && current.pending.Some? {
        PublishPendingAgrees(current, setup, ValidateDetailsText(text).value, ByOrder, NO_LINK, moment);
      }
  }

  /** Every run of the plain matcher keeps a legal journal, too, and the slot is the one it implies. */
  lemma {:induction false} PlainRunAgrees(m: MatcherState, setup: Setup, events: seq<Event>)
    requires PairingRuns.Agrees(m, setup.pairTimeoutSeconds)
    ensures PairingRuns.Agrees(RunPlain(m, setup, events), setup.pairTimeoutSeconds)
  {
    hide Ingest, PairingRuns.Agrees;
    if events != [] {
      PlainRunAgrees(m, setup, events[..|events| - 1]);
      IngestAgrees(RunPlain(m, setup, events[..|events| - 1]), setup, events[|events| - 1]);
    }
  }

  /** A matcher and a publisher just built on a directory. */
  function Start(d: Directory): MatcherState { MatcherState(None, PublisherState(d, {}), []) }

  /** Each accepted seed is consumed, replaced, expired or still pending. */
  lemma PlainSeedsConserved(d: Directory, setup: Setup, events: seq<Event>)
    ensures var m := RunPlain(Start(d), setup, events);
            var t := Count(m.journal);
            t.accepted == t.consumed + t.replaced + t.expired + (if m.pending.Some? then 1 else 0)
  {
    PlainRunAgrees(Start(d), setup, events);
    LegalBalances(RunPlain(Start(d), setup, events).journal, setup.pairTimeoutSeconds);
  }

  /** Every consumed pair uses the latest accepted seed, in time, with no seed come or gone in between. */
  lemma PlainPairIsSound(d: Directory, setup: Setup, events: seq<Event>, i: nat) returns (k: nat)
    requires i < |RunPlain(Start(d), setup, events).journal| && RunPlain(Start(d), setup, events).journal[i].Consumed?
    ensures var journal := RunPlain(Start(d), setup, events).journal;
            && k < i && journal[k] == Accepted(journal[i].seed)
            && (forall m | k < m < i :: !MovesSeed(journal[m]))
            && journal[i].checkedAt - journal[i].seed.receivedAt <= setup.pairTimeoutSeconds as real
  {
    hide RunPlain, RuleHolds;
    var journal, t := RunPlain(Start(d), setup, events).journal, setup.pairTimeoutSeconds;
    PlainRunAgrees(Start(d), setup, events);
    LegalPrefix(journal, t, i + 1);
    assert journal[..i + 1][..i] == journal[..i];
    k := WaitingSince(journal[..i], t);
  }

  // ---------- the publisher's record ----------

  /** What a publish of the given texts puts on record. */
  function PrintOf(seed: Seed, details: string): set<Digest> {
    match ValidatePairPayload(seed.text, details)
    case Failure(_) => {}
    case Success(pair) => {PairFingerprint(pair)}
  }

  /** The fingerprints of the pairs that a journal shows as recorded. */
  function RecordedIn(journal: seq<Happening>, dryRun: bool): set<Digest> {
    if journal == [] then {}
    else
      var last := journal[|journal| - 1];
      RecordedIn(journal[..|journal| - 1], dryRun) + if RecordsOne(last, dryRun) then PrintOf(last.seed, last.details) else {}
  }

  lemma RecordedExtend(journal: seq<Happening>, next: Happening, dryRun: bool)
    ensures RecordedIn(journal + [next], dryRun)
            == RecordedIn(journal, dryRun) + if RecordsOne(next, dryRun) then PrintOf(next.seed, next.details) else {}
  {
    assert (journal + [next])[..|journal + [next]| - 1] == journal;
  }

  ghost predicate RecordIs(m: MatcherState, dryRun: bool) {
    m.publisher.fingerprints == RecordedIn(m.journal, dryRun)
  }

  /** Whether a publish is answered from the duplicate check or not, what it records is its own pair. */
  lemma PublishRecords(s: PublisherState, setup: Setup, seed: Seed, details: string, uuids: Uuids, fault: Fault)
    ensures var (s', r) := Publish(s, RequestFor(setup, seed, details, uuids), fault);
            s'.fingerprints == s.fingerprints +
              if r.Success? || (r.error == Raised(LogReady) && !setup.dryRun) then PrintOf(seed, details) else {}
  {
    hide ValidateBasename, ValidatePairPayload, PairFingerprint, DirectoryAfter, PricesRead;
  }

  lemma PublishPendingKeepsRecord(m: MatcherState, setup: Setup, details: string, rule: Rule, link: Link, moment: Moment)
    requires RecordIs(m, setup.dryRun) && m.pending.Some?
    ensures RecordIs(PublishPending(m, setup, details, rule, link, moment).0, setup.dryRun)
  {
    hide RecordedIn, Publish, PrintOf;
    var m' := PublishPending(m, setup, details, rule, link, moment).0;
    PublishRecords(m.publisher, setup, m.pending.value, details, moment.uuids, moment.fault);
    RecordedExtend(m.journal, m'.journal[|m'.journal| - 1], setup.dryRun);
  }

  lemma ExpireKeepsRecord(m: MatcherState, setup: Setup, now: real)
    requires RecordIs(m, setup.dryRun)
    ensures RecordIs(ExpireIfNeeded(m, setup, now), setup.dryRun)
  {
    hide RecordedIn;
    if m.pending.Some? {
      RecordedExtend(m.journal, Expired(m.pending.value, now), setup.dryRun);
    }
  }

  lemma TakeSlotKeepsRecord(m: MatcherState, seed: Seed, dryRun: bool)
    requires RecordIs(m, dryRun)
    ensures RecordIs(TakeSlot(m, seed), dryRun)
  {
    hide RecordedIn;
    if m.pending.Some? {
      RecordedExtend(m.journal, Replaced(m.pending.value), dryRun);
      RecordedExtend(m.journal + [Replaced(m.pending.value)], Accepted(seed), dryRun);
    } else {
      RecordedExtend(m.journal, Accepted(seed), dryRun);
      assert m.journal + [] == m.journal;
    }
  }

  lemma IngestKeepsRecord(m: MatcherState, setup: Setup, event: Event)
    requires RecordIs(m, setup.dryRun)
    ensures RecordIs(Ingest(m, setup, event).0, setup.dryRun)
  {
    hide RecordedIn, ValidateSeedFormat, ValidateDetailsText, ExpireIfNeeded, PublishPending, TakeSlot, PlainSeed;
    var current := ExpireIfNeeded(m, setup, event.moment.checkedAt);
    ExpireKeepsRecord(m, setup, event.moment.checkedAt);
    match event
    case SeedEvent(text, messageId, moment) =>
      if ValidateSeedFormat(text).Success? {
        TakeSlotKeepsRecord(current, PlainSeed(text, messageId, ValidateSeedFormat(text).value, moment.receivedAt), setup.dryRun);
      }
    case DetailsEvent(text, moment) =>
      RecordedExtend(current.journal, Skipped(DetailsWithoutSeed), setup.dryRun);
      if ValidateDetailsText(text).Success? && current.pending.Some? {
        PublishPendingKeepsRecord(current, setup, ValidateDetailsText(text).value, ByOrder, NO_LINK, moment);
      }
  }

  /** In every run the publisher's record is exactly the set of pairs that the journal shows as recorded. */
  lemma {:induction false} RecordIsWhatWasPublished(d: Directory, setup: Setup, events: seq<Event>)
    ensures var m := RunPlain(Start(d), setup, events);
            m.publisher.fingerprints == RecordedIn(m.journal, setup.dryRun)
  {
    hide Ingest;
    if events != [] {
      RecordIsWhatWasPublished(d, setup, events[..|events| - 1]);
      IngestKeepsRecord(RunPlain(Start(d), setup, events[..|events| - 1]), setup, events[|events| - 1]);
    }
  }

  // ---------- pairs that come again ----------

  lemma IngestGrows(m: MatcherState, setup: Setup, event: Event)
    ensures m.publisher.fingerprints <= Ingest(m, setup, event).0.publisher.fingerprints
  {
    hide ValidateSeedFormat, ValidateDetailsText, Publish, PrintOf;
    var current := ExpireIfNeeded(m, setup, event.moment.checkedAt);
    if event.DetailsEvent? && current.pending.Some? && ValidateDetailsText(event.text).Success? {
      PublishRecords(current.publisher, setup, current.pending.value, ValidateDetailsText(event.text).value, event.moment.uuids,
                     event.moment.fault);
    }
  }

  lemma {:induction false} RecordGrows(m: MatcherState, setup: Setup, events: seq<Event>)
    ensures m.publisher.fingerprints <= RunPlain(m, setup, events).publisher.fingerprints
  {
    hide Ingest;
    if events != [] {
      RecordGrows(m, setup, events[..|events| - 1]);
      IngestGrows(RunPlain(m, setup, events[..|events| - 1]), setup, events[|events| - 1]);
    }
  }

  /** What a real publish of the pending seed does that returns: it leaves the publisher as it was exactly when the pair was on record. */
  lemma DuplicateIff(m: MatcherState, setup: Setup, details: string, moment: Moment)
    requires m.pending.Some? && !setup.dryRun
    requires PublishPending(m, setup, details, ByOrder, NO_LINK, moment).1.Pass?
    ensures PublishPending(m, setup, details, ByOrder, NO_LINK, moment).0.publisher == m.publisher
            <==> PrintOf(m.pending.value, details) <= m.publisher.fingerprints
  {
    hide ValidateBasename, ValidatePairPayload, PairFingerprint, DirectoryAfter, PricesRead;
  }

  /**
   A pair on record is never published again: whatever comes in between, sending its seed and its
   details once more consumes the seed and leaves the publisher and the directory as they are, even if
   another pair has taken the two names since.
   */
  lemma ResentPairIsNotPublished(m: MatcherState, setup: Setup, between: seq<Event>, seed: Event, details: Event)
    requires seed.SeedEvent? && details.DetailsEvent? && Raise(details.moment.fault, LogReady).Pass?
    requires details.moment.checkedAt - seed.moment.receivedAt <= setup.pairTimeoutSeconds as real
    requires var q := RequestOf(setup, seed, details);
             Validate(q).Success? && PricesRead(Validate(q).value.1.details)
             && PairFingerprint(Validate(q).value.1) in m.publisher.fingerprints
    ensures var before := RunPlain(m, setup, between);
            var after := RunPlain(m, setup, between + [seed, details]);
            && after.publisher == before.publisher && after.pending.None?
            && |after.journal| > |before.journal| && after.journal[|after.journal| - 1].Consumed?
  {
    hide Validate, ExpireIfNeeded, Publish, PairFingerprint, PricesRead, IngestPlainSeed, IngestPlainDetails;
    var all := between + [seed, details];
    assert all[..|all| - 1] == between + [seed];
    assert (between + [seed])[..|between + [seed]| - 1] == between;
    RecordGrows(m, setup, between);
    var before := RunPlain(m, setup, between);
    SeedWaits(before, setup, seed, details);
    var waiting := Ingest(before, setup, seed).0;
    RepeatedPairReturns(waiting, setup, seed, details);
  }

  /** The request that a seed and a details event amount to. */
  function RequestOf(setup: Setup, seed: Event, details: Event): Request
    requires seed.SeedEvent? && details.DetailsEvent?
  {
    Request(setup.names, seed.text, details.text, details.moment.uuids, setup.dryRun)
  }

  lemma SeedWaits(m: MatcherState, setup: Setup, seed: Event, details: Event)
    requires seed.SeedEvent? && details.DetailsEvent? && Validate(RequestOf(setup, seed, details)).Success?
    ensures var m' := Ingest(m, setup, seed).0;
            && m'.publisher == m.publisher && |m'.journal| > |m.journal| && m'.pending.Some?
            && m'.pending.value.text == Strip(seed.text) && m'.pending.value.receivedAt == seed.moment.receivedAt
  {
    hide ValidateBasename, ValidateSeedFormat, ValidateDetailsText, Strip;
  }

  lemma RepeatedPairReturns(m: MatcherState, setup: Setup, seed: Event, details: Event)
    requires seed.SeedEvent? && details.DetailsEvent? && Raise(details.moment.fault, LogReady).Pass?
    requires m.pending.Some? && m.pending.value.text == Strip(seed.text)
    requires details.moment.checkedAt - m.pending.value.receivedAt <= setup.pairTimeoutSeconds as real
    requires var q := RequestOf(setup, seed, details);
             Validate(q).Success? && PricesRead(Validate(q).value.1.details)
             && PairFingerprint(Validate(q).value.1) in m.publisher.fingerprints
    ensures var m' := Ingest(m, setup, details).0;
            && m'.publisher == m.publisher && m'.pending.None?
            && |m'.journal| > |m.journal| && m'.journal[|m'.journal| - 1].Consumed?
  {
    hide Validate, PairFingerprint, PricesRead, ValidateDetailsText, Strip;
    var q := RequestOf(setup, seed, details);
    SameRequest(q);
    var sent := RequestFor(setup, m.pending.value, NormalizeLineEndings(details.text), details.moment.uuids);
    assert sent == q.(seedText := Strip(q.seedText), detailsText := NormalizeLineEndings(q.detailsText));
    assert m.publisher.(fingerprints := m.publisher.fingerprints + {PairFingerprint(Validate(q).value.1)}) == m.publisher;
  }

  /** The matcher hands on stripped and normalised texts, which validate as the ones that came. */
  lemma SameRequest(q: Request)
    requires Validate(q).Success?
    ensures ValidateDetailsText(q.detailsText) == Success(NormalizeLineEndings(q.detailsText))
    ensures Validate(q.(seedText := Strip(q.seedText), detailsText := NormalizeLineEndings(q.detailsText))) == Validate(q)
  {
    hide ValidateBasename, Strip, ValidateSeedFormat;
    DetailsOfPair(q);
    StripIdempotent(q.seedText);
    NormalizeIdempotent(q.detailsText);
    ValidatedAgain(q.seedText, q.detailsText);
  }
}
