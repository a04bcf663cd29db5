/**
 What the route listeners report and keep: which messages reach a handler, when a publish is
 announced, what a raising route does to the others, when files change without the arm being
 spent, and when the registry and the stored statuses agree.
 */
module ListenerRuns {
  import opened Wrappers
  import opened Sequences
  import opened MessageText
  import opened SignalPrices
  import opened AtomicPublish
  import opened PublishRuns
  import opened Pairing
  import opened PairingRuns
  import opened RouteListener
  import Arms = CandidateTest
  import Interleavings = CandidateRuns

  // ---------- what one handled message records ----------

  lemma AddedElement(s: set<Digest>, x: Digest)
    ensures |s| <= |s + {x}| <= |s| + 1 && (|s + {x}| == |s| <==> x in s)
  {
    if x in s {
      assert s + {x} == s;
    } else {
      assert |s + {x}| == |s| + 1;
    }
  }

  /** A publish records at most one fingerprint; it fails and records only when the ready line cannot be logged. */
  ghost predicate RecordsProperly(before: set<Digest>, after: set<Digest>, failed: bool, fault: Fault) {
    && |before| <= |after| <= |before| + 1
    && (failed && |after| > |before| ==> fault.At? && fault.step == LogReady)
    && (!failed && fault.At? && fault.step == LogReady ==> |after| == |before|)
  }

  lemma PublishRecords(s: PublisherState, q: Request, fault: Fault)
    ensures var (s', r) := Publish(s, q, fault);
            RecordsProperly(s.fingerprints, s'.fingerprints, r.Failure?, fault)
  {
    hide Validate, PairFingerprint, DirectoryAfter;
    if Validate(q).Success? {
      AddedElement(s.fingerprints, PairFingerprint(Validate(q).value.1));
    }
  }

  lemma PendingRecords(m: MatcherState, setup: Setup, details: string, rule: Rule, link: Link, moment: Moment)
    requires m.pending.Some?
    ensures var (m', r) := PublishPending(m, setup, details, rule, link, moment);
            RecordsProperly(m.publisher.fingerprints, m'.publisher.fingerprints, r.Fail?, moment.fault)
  {
    hide Publish, RecordsProperly;
    var q := RequestFor(setup, m.pending.value, details, moment.uuids);
    PublishRecords(m.publisher, q, moment.fault);
    assert PublishPending(m, setup, details, rule, link, moment).1.Fail? == Publish(m.publisher, q, moment.fault).1.Failure?;
  }

  lemma IngestRecords(m: MatcherState, setup: Setup, message: InboundMessage, moment: Moment)
    ensures var (m', r) := IngestDetails(m, setup, message, moment);
            RecordsProperly(m.publisher.fingerprints, m'.publisher.fingerprints, r.Fail?, moment.fault)
  {
    hide ValidateDetailsText, ParseDetailsHeader, PublishPending, RecordsProperly;
    var current := ExpireIfNeeded(m, setup, moment.checkedAt);
    NothingRecorded(m.publisher.fingerprints, moment.fault);
    if ValidateDetailsText(message.text).Success? {
      var details := ValidateDetailsText(message.text).value;
      var rule := MatchRule(current.pending, details, message);
      if rule.Some? {
        PendingRecords(current, setup, details, rule.value, LinkOf(message), moment);
      }
    }
  }

  lemma NothingRecorded(s: set<Digest>, fault: Fault)
    ensures forall failed :: RecordsProperly(s, s, failed, fault)
  {
  }

  lemma HandleRecordsProperly(h: HandlerState, setup: Setup, message: InboundMessage, moment: Moment)
    ensures var (h', r) := Handle(h, setup, message, moment);
            RecordsProperly(h.matcher.publisher.fingerprints, h'.matcher.publisher.fingerprints, r.Fail?, moment.fault)
    ensures Classify(message.text) == SeedMessage ==>
              Handle(h, setup, message, moment).0.matcher.publisher == h.matcher.publisher
  {
    hide Classify, MessageKey, RawMessageHash, ValidateSeedFormat, SeedFrom, IngestDetails, RecordsProperly;
    NothingRecorded(h.matcher.publisher.fingerprints, moment.fault);
    IngestRecords(h.matcher, setup, message, moment);
  }

  // ---------- reporting ----------

  /** The events one message adds. */
  function NewEvents(before: Tables, after: Tables): seq<Event> {
    if |before.events| <= |after.events| then after.events[|before.events|..] else []
  }

  predicate Announced(before: Tables, after: Tables, id: int) {
    Event(id, ReadyPublished, PublishReady) in NewEvents(before, after)
  }

  lemma WriteAnnounces(t: Tables, t1: Tables, id: int, status: Status, eventType: EventType)
    requires t.events <= t1.events && !Announced(t, t1, id)
    ensures var (t2, r) := Write(t1, id, status, eventType);
            && t.events <= t2.events && t2.rows == t1.rows && (r.Fail? <==> id !in t1.rows)
            && (Announced(t, t2, id) <==> id in t1.rows && eventType == ReadyPublished && status == PublishReady)
  {
    var t2 := Write(t1, id, status, eventType).0;
    assert id in t1.rows ==> NewEvents(t, t2) == NewEvents(t, t1) + [Event(id, eventType, status)];
  }

  lemma RowsAnnounceNothing(t: Tables, t1: Tables, rows: Arms.Rows, id: int)
    requires t.events <= t1.events && !Announced(t, t1, id)
    ensures !Announced(t, t1.(rows := rows), id)
  {
  }

  lemma AskKeepsEvents(t: Tables, id: int, clock: Clock)
    ensures var t' := AskPermission(t, id, clock).0;
            t'.events == t.events && t'.statuses == t.statuses && t'.rows.Keys == t.rows.Keys
  {
    hide Arms.EvaluateRealPublishPermission, Arms.ExpiredRow, Arms.Due;
  }

  lemma SettleKeepsKeys(rows: Arms.Rows, id: int, now: nat)
    ensures SettleArm(rows, id, now).Keys == rows.Keys
  {
    hide Arms.ConsumedRow, Arms.ExpiredRow, Arms.Due;
  }

  /** A message handed to the handler once the listener's own checks are passed. */
  predicate Reaches(l: Listener, t: Tables, c: Context, message: InboundMessage, clock: Clock) {
    && RawMessageHash(message.text) !in l.seen && c.routeId in t.rows
    && (Classify(message.text) == SeedMessage ||
        (Classify(message.text) == DetailsMessage && (c.setup.dryRun || AskPermission(t, c.routeId, clock).1.None?)))
  }

  /** The handler runs exactly on the messages that reach it. */
  lemma HandlerSeesReaching(l: Listener, t: Tables, c: Context, message: InboundMessage, moment: Moment, clock: Clock)
    ensures Process(l, t, c, message, moment, clock).0.handler ==
            if Reaches(l, t, c, message, clock) then Handle(l.handler, c.setup, message, moment).0 else l.handler
    ensures Process(l, t, c, message, moment, clock).0.seen ==
            if RawMessageHash(message.text) !in l.seen && Classify(message.text) in {SeedMessage, DetailsMessage}
            then l.seen + {RawMessageHash(message.text)} else l.seen
  {
    hide Handle, RawMessageHash, Classify, RecordSuccess, Arms.ExpireArms, Arms.EvaluateRealPublishPermission;
  }

  lemma DetailsAnnounced(t: Tables, l: Listener, t1: Tables, c: Context, message: InboundMessage, moment: Moment, clock: Clock)
    requires t.events <= t1.events && !Announced(t, t1, c.routeId) && c.routeId in t1.rows
    ensures var (l', t', r) := HandleDetails(l, t1, c, message, moment, clock);
            && |FingerprintsOf(l)| <= |FingerprintsOf(l')| <= |FingerprintsOf(l)| + 1
            && (Announced(t, t', c.routeId) <==>
                  |FingerprintsOf(l')| > |FingerprintsOf(l)| && !(moment.fault.At? && moment.fault.step == LogReady))
  {
    hide Handle, SettleArm, Announced;
    HandleRecordsProperly(l.handler, c.setup, message, moment);
    SettleKeepsKeys(t1.rows, c.routeId, clock.settled);
    var rows := SettleArm(t1.rows, c.routeId, clock.settled);
    RowsAnnounceNothing(t, t1, rows, c.routeId);
    WriteAnnounces(t, t1, c.routeId, PublishFailed, FailedToPublish);
    WriteAnnounces(t, t1, c.routeId, PublishSkipped, NothingPublished);
    WriteAnnounces(t, t1, c.routeId, PublishReady, ReadyPublished);
    WriteAnnounces(t, t1.(rows := rows), c.routeId, PublishReady, ReadyPublished);
  }

  lemma ProcessDetailsAnnounced(l: Listener, t: Tables, c: Context, message: InboundMessage, moment: Moment, clock: Clock)
    ensures var (l', t', r) := ProcessDetails(l, t, c, message, moment, clock);
            && |FingerprintsOf(l)| <= |FingerprintsOf(l')| <= |FingerprintsOf(l)| + 1
            && (Announced(t, t', c.routeId) <==>
                  |FingerprintsOf(l')| > |FingerprintsOf(l)| && !(moment.fault.At? && moment.fault.step == LogReady))
  {
    hide HandleDetails, AskPermission, Announced;
    NothingAnnounced(t, c.routeId);
    WriteAnnounces(t, t, c.routeId, DetailsDetected, DetailsSeen);
    var t1 := Write(t, c.routeId, DetailsDetected, DetailsSeen).0;
    if c.routeId in t.rows {
      var t2 := if c.setup.dryRun then t1 else AskPermission(t1, c.routeId, clock).0;
      AskKeepsEvents(t1, c.routeId, clock);
      RowsAnnounceNothing(t, t1, t2.rows, c.routeId);
      assert t2 == t1.(rows := t2.rows);
      var refusal := AskPermission(t1, c.routeId, clock).1;
      if !c.setup.dryRun && refusal.Some? {
        WriteAnnounces(t, t2, c.routeId, PublishSkipped, PublishBlocked(refusal.value));
      }
      DetailsAnnounced(t, l, t2, c, message, moment, clock);
    }
  }

  lemma NothingAnnounced(t: Tables, id: int)
    ensures !Announced(t, t, id)
  {
  }

  /**
   A PUBLISH_READY event is added exactly when one more fingerprint is on record, unless the
   publisher's own ready line could not be logged; no message ever records two.
   */
  lemma ReadyIffRecorded(l: Listener, t: Tables, c: Context, message: InboundMessage, moment: Moment, clock: Clock)
    ensures var (l', t', r) := Process(l, t, c, message, moment, clock);
            && |FingerprintsOf(l)| <= |FingerprintsOf(l')| <= |FingerprintsOf(l)| + 1
            && (Announced(t, t', c.routeId) <==>
                  |FingerprintsOf(l')| > |FingerprintsOf(l)| && !(moment.fault.At? && moment.fault.step == LogReady))
  {
    hide Handle, RawMessageHash, Classify, ProcessDetails, Announced;
    NothingAnnounced(t, c.routeId);
    HandleRecordsProperly(l.handler, c.setup, message, moment);
    ProcessDetailsAnnounced(l.(seen := l.seen + {RawMessageHash(message.text)}), t, c, message, moment, clock);
    WriteAnnounces(t, t, c.routeId, PublishSkipped, ListenerDedup);
    WriteAnnounces(t, t, c.routeId, SeedDetected, SeedSeen);
    WriteAnnounces(t, t, c.routeId, PublishSkipped, SkippedText(Classify(message.text)));
  }

  // ---------- each content reaches the handler once ----------

  /** A message as it finds the tables and the files, whatever others have made of them in between. */
  datatype Delivery = Delivery(tables: Tables, directory: Directory, message: InboundMessage, moment: Moment, clock: Clock)

  function RunListener(l: Listener, c: Context, deliveries: seq<Delivery>): Listener {
    if deliveries == [] then l
    else
      var last := deliveries[|deliveries| - 1];
      var before := Attach(RunListener(l, c, deliveries[..|deliveries| - 1]), last.directory);
      Process(before, last.tables, c, last.message, last.moment, last.clock).0
  }

  /** The contents handed to the handler, in order. */
  function Handled(l: Listener, c: Context, deliveries: seq<Delivery>): seq<Digest> {
    if deliveries == [] then []
    else
      var front, last := deliveries[..|deliveries| - 1], deliveries[|deliveries| - 1];
      Handled(l, c, front)
      + (if Reaches(RunListener(l, c, front), last.tables, c, last.message, last.clock) then [RawMessageHash(last.message.text)] else [])
  }

  lemma HandleMarks(h: HandlerState, setup: Setup, message: InboundMessage, moment: Moment)
    ensures Handle(h, setup, message, moment).0.seenHashes <= h.seenHashes + {RawMessageHash(message.text)}
  {
    hide Classify, MessageKey, RawMessageHash, IngestSeed, IngestDetails;
  }

  /**
   However messages repeat and whatever happens to the tables and the files, no content is handed to
   a route's handler twice, and the handler's own set of contents stays inside the runtime's, so its
   duplicate check is never the one that answers.
   */
  lemma {:induction false} EachContentHandledOnce(c: Context, d: Directory, deliveries: seq<Delivery>)
    ensures var l := RunListener(Listener({}, Initial(d)), c, deliveries);
            var handled := Handled(Listener({}, Initial(d)), c, deliveries);
            Distinct(handled) && (forall x | x in handled :: x in l.seen) && l.handler.seenHashes <= l.seen
  {
    hide Reaches, Process, Handle, RawMessageHash, Classify;
    if deliveries != [] {
      var front, last := deliveries[..|deliveries| - 1], deliveries[|deliveries| - 1];
      EachContentHandledOnce(c, d, front);
      var before := RunListener(Listener({}, Initial(d)), c, front);
      HandlerSeesReaching(Attach(before, last.directory), last.tables, c, last.message, last.moment, last.clock);
      ReachingIsNew(before, last.tables, c, last.message, last.clock);
      ReachingIsNew(Attach(before, last.directory), last.tables, c, last.message, last.clock);
      HandleMarks(Attach(before, last.directory).handler, c.setup, last.message, last.moment);
    }
  }

  lemma ReachingIsNew(l: Listener, t: Tables, c: Context, message: InboundMessage, clock: Clock)
    ensures Reaches(l, t, c, message, clock) ==>
              RawMessageHash(message.text) !in l.seen && Classify(message.text) in {SeedMessage, DetailsMessage}
    ensures forall l': Listener | l'.seen == l.seen :: Reaches(l', t, c, message, clock) == Reaches(l, t, c, message, clock)
  {
    hide RawMessageHash, Classify, AskPermission;
  }

  // ---------- raising routes ----------

  /** The two ways a message raises out of a route: its row is gone, or its seed names no supported symbol. */
  predicate Raises(l: Listener, rows: Arms.Rows, c: Context, message: InboundMessage) {
    || c.routeId !in rows
    || (&& Classify(message.text) == SeedMessage && ValidateSeedFormat(message.text).Failure?
        && RawMessageHash(message.text) !in l.seen + l.handler.seenHashes && MessageKey(message) !in l.handler.seenKeys)
  }

  /** What a publish raises never leaves the route, whatever the fault. */
  lemma RaisesExactly(l: Listener, t: Tables, c: Context, message: InboundMessage, moment: Moment, clock: Clock)
    ensures Process(l, t, c, message, moment, clock).2.Fail? <==> Raises(l, t.rows, c, message)
    ensures Process(l, t, c, message, moment, clock).1.rows.Keys == t.rows.Keys
  {
    hide RawMessageHash, Classify, HandleDetails, IngestDetails, MessageKey, ValidateSeedFormat, AskPermission;
    var t1 := Write(t, c.routeId, DetailsDetected, DetailsSeen).0;
    AskKeepsEvents(t1, c.routeId, clock);
    var l1 := l.(seen := l.seen + {RawMessageHash(message.text)});
    DetailsNeverRaise(l1, t1, c, message, moment, clock);
    DetailsNeverRaise(l1, AskPermission(t1, c.routeId, clock).0, c, message, moment, clock);
  }

  lemma DetailsNeverRaise(l: Listener, t: Tables, c: Context, message: InboundMessage, moment: Moment, clock: Clock)
    ensures c.routeId in t.rows ==> HandleDetails(l, t, c, message, moment, clock).2.Pass?
    ensures HandleDetails(l, t, c, message, moment, clock).1.rows.Keys == t.rows.Keys
  {
    hide Handle, SettleArm;
    SettleKeepsKeys(t.rows, c.routeId, clock.settled);
  }

  // ---------- one message for all routes of a channel ----------

  ghost predicate WellFormed(w: World) {
    forall id | id in w.active :: w.active[id].context.routeId == id
  }

  predicate RaisesOn(w: World, id: int, message: InboundMessage) {
    id in w.active && Raises(w.active[id].listener, w.tables.rows, w.active[id].context, message)
  }

  lemma RaisesParked(l: Listener, d: Directory, rows: Arms.Rows, rows': Arms.Rows, c: Context, message: InboundMessage)
    requires rows.Keys == rows'.Keys
    ensures Raises(Attach(l, d), rows', c, message) == Raises(l, rows, c, message)
  {
    hide RawMessageHash, Classify, MessageKey, ValidateSeedFormat;
  }

  /** A route's turn raises on its own account alone and leaves the other routes as they were. */
  lemma ProcessOnAlone(w: World, id: int, message: InboundMessage, s: Surroundings)
    requires WellFormed(w)
    ensures var (w', r) := ProcessOn(w, id, message, s);
            && (r.Fail? <==> RaisesOn(w, id, message))
            && WellFormed(w') && w'.active.Keys == w.active.Keys && w'.order == w.order
            && w'.tables.rows.Keys == w.tables.rows.Keys
            && (forall other | other in w.active && other != id :: w'.active[other] == w.active[other])
            && (forall other | other != id :: RaisesOn(w', other, message) == RaisesOn(w, other, message))
  {
    hide Process, Raises;
    if id in w.active {
      var route := w.active[id];
      var d := DirectoryAt(w.directories, route.context.root);
      RaisesExactly(Attach(route.listener, d), w.tables, route.context, message, s.moment, s.clock);
      RaisesParked(route.listener, d, w.tables.rows, w.tables.rows, route.context, message);
      var w' := ProcessOn(w, id, message, s).0;
      forall other | other != id ensures RaisesOn(w', other, message) == RaisesOn(w, other, message) {
        if other in w.active {
          RaisesParked(w.active[other].listener, map[], w.tables.rows, w'.tables.rows, w.active[other].context, message);
          RaisesParked(w.active[other].listener, map[], w'.tables.rows, w'.tables.rows, w.active[other].context, message);
        }
      }
    }
  }

  /** How many of the routes get their turn: all of them, or those up to the first that raises. */
  function Reached(w: World, ids: seq<int>, message: InboundMessage): (n: nat)
    ensures n <= |ids|
  {
    if ids == [] then 0 else if RaisesOn(w, ids[0], message) then 1 else 1 + Reached(w, ids[1..], message)
  }

  lemma {:induction false} ReachedSame(w: World, w': World, ids: seq<int>, message: InboundMessage)
    requires forall id | id in ids :: RaisesOn(w, id, message) == RaisesOn(w', id, message)
    ensures Reached(w, ids, message) == Reached(w', ids, message)
  {
    hide RaisesOn;
    if ids != [] {
      assert ids[0] in ids;
      ReachedSame(w, w', ids[1..], message);
    }
  }

  // The events of one turn.

  function RoutesOf(events: seq<Event>): set<int> {
    set e | e in events :: e.routeId
  }

  /** Events are only added, and the added ones are of the given routes, each of which has one. */
  ghost predicate Adds(before: Tables, after: Tables, routes: set<int>) {
    before.events <= after.events && RoutesOf(NewEvents(before, after)) == routes
  }

  lemma AddsNothing(t: Tables, rows: Arms.Rows)
    ensures Adds(t, t.(rows := rows), {})
  {
  }

  lemma AddsThen(t: Tables, t1: Tables, t2: Tables, first: set<int>, second: set<int>)
    requires Adds(t, t1, first) && Adds(t1, t2, second)
    ensures Adds(t, t2, first + second)
  {
    assert NewEvents(t, t2) == NewEvents(t, t1) + NewEvents(t1, t2);
    forall e ensures e in NewEvents(t, t2) <==> e in NewEvents(t, t1) || e in NewEvents(t1, t2) {
    }
    assert RoutesOf(NewEvents(t, t2)) == RoutesOf(NewEvents(t, t1)) + RoutesOf(NewEvents(t1, t2));
  }

  lemma WriteAdds(t: Tables, id: int, status: Status, eventType: EventType)
    ensures Adds(t, Write(t, id, status, eventType).0, if id in t.rows then {id} else {})
    ensures Write(t, id, status, eventType).0.rows == t.rows
  {
    var t' := Write(t, id, status, eventType).0;
    assert NewEvents(t, t') == if id in t.rows then [Event(id, eventType, status)] else [];
  }

  lemma HandleDetailsAdds(l: Listener, t: Tables, c: Context, message: InboundMessage, moment: Moment, clock: Clock)
    requires c.routeId in t.rows
    ensures Adds(t, HandleDetails(l, t, c, message, moment, clock).1, {c.routeId})
  {
    hide Handle, SettleArm, Write, Adds;
    var settled := t.(rows := SettleArm(t.rows, c.routeId, clock.settled));
    SettleKeepsKeys(t.rows, c.routeId, clock.settled);
    AddsNothing(t, settled.rows);
    WriteAdds(t, c.routeId, PublishFailed, FailedToPublish);
    WriteAdds(t, c.routeId, PublishSkipped, NothingPublished);
    WriteAdds(t, c.routeId, PublishReady, ReadyPublished);
    WriteAdds(settled, c.routeId, PublishReady, ReadyPublished);
    AddsThen(t, settled, Write(settled, c.routeId, PublishReady, ReadyPublished).0, {}, {c.routeId});
    assert {} + {c.routeId} == {c.routeId};
  }

  lemma ProcessDetailsAdds(l: Listener, t: Tables, c: Context, message: InboundMessage, moment: Moment, clock: Clock)
    ensures Adds(t, ProcessDetails(l, t, c, message, moment, clock).1, if c.routeId in t.rows then {c.routeId} else {})
  {
    hide HandleDetails, AskPermission, Adds;
    var id := c.routeId;
    var t1 := Write(t, id, DetailsDetected, DetailsSeen).0;
    WriteAdds(t, id, DetailsDetected, DetailsSeen);
    if id in t.rows {
      var t2 := if c.setup.dryRun then t1 else AskPermission(t1, id, clock).0;
      AskKeepsEvents(t1, id, clock);
      AddsNothing(t1, t2.rows);
      assert t2 == t1.(rows := t2.rows);
      AddsThen(t, t1, t2, {id}, {});
      var refusal := AskPermission(t1, id, clock).1;
      if !c.setup.dryRun && refusal.Some? {
        WriteAdds(t2, id, PublishSkipped, PublishBlocked(refusal.value));
        AddsThen(t, t2, Write(t2, id, PublishSkipped, PublishBlocked(refusal.value)).0, {id} + {}, {id});
      } else {
        HandleDetailsAdds(l, t2, c, message, moment, clock);
        AddsThen(t, t2, HandleDetails(l, t2, c, message, moment, clock).1, {id} + {}, {id});
      }
      assert {id} + {} + {id} == {id};
    }
  }

  /** Every message leaves at least one event on its own route if that has a row, and none elsewhere. */
  lemma MessageAddsEvents(l: Listener, t: Tables, c: Context, message: InboundMessage, moment: Moment, clock: Clock)
    ensures Adds(t, Process(l, t, c, message, moment, clock).1, if c.routeId in t.rows then {c.routeId} else {})
  {
    hide RawMessageHash, Classify, Handle, ProcessDetails, Write, Adds;
    var id := c.routeId;
    ProcessDetailsAdds(l.(seen := l.seen + {RawMessageHash(message.text)}), t, c, message, moment, clock);
    WriteAdds(t, id, PublishSkipped, ListenerDedup);
    WriteAdds(t, id, SeedDetected, SeedSeen);
    WriteAdds(t, id, PublishSkipped, SkippedText(Classify(message.text)));
  }

  /** The route had its turn: its runtime is what processing the message made of the runtime it had. */
  ghost predicate Served(w: World, w': World, id: int, message: InboundMessage, s: Surroundings) {
    id in w.active && id in w'.active &&
    exists turn: World ::
      && id in turn.active && turn.active[id] == w.active[id] && turn.tables.rows.Keys == w.tables.rows.Keys
      && ProcessOn(turn, id, message, s).0.active.Keys == turn.active.Keys
      && w'.active[id] == ProcessOn(turn, id, message, s).0.active[id]
  }

  function WithRows(ids: seq<int>, rows: Arms.Rows): set<int> {
    set id | id in ids && id in rows
  }

  lemma TurnServes(w: World, id: int, message: InboundMessage, s: Surroundings)
    requires WellFormed(w) && id in w.active
    ensures Served(w, ProcessOn(w, id, message, s).0, id, message, s)
    ensures Adds(w.tables, ProcessOn(w, id, message, s).0.tables, WithRows([id], w.tables.rows))
  {
    hide Process;
    ProcessOnAlone(w, id, message, s);
    var route := w.active[id];
    var l := Attach(route.listener, DirectoryAt(w.directories, route.context.root));
    MessageAddsEvents(l, w.tables, route.context, message, s.moment, s.clock);
    assert WithRows([id], w.tables.rows) == if id in w.tables.rows then {id} else {};
  }

  /** A served runtime has seen the message if it was a seed or details, and nothing else new. */
  lemma ServedHasSeen(w: World, w': World, id: int, message: InboundMessage, s: Surroundings)
    requires Served(w, w', id, message, s)
    ensures w'.active[id].listener.seen ==
            if Classify(message.text) in {SeedMessage, DetailsMessage}
            then w.active[id].listener.seen + {RawMessageHash(message.text)} else w.active[id].listener.seen
  {
    hide Process, RawMessageHash, Classify;
    var turn: World :|
      && id in turn.active && turn.active[id] == w.active[id] && turn.tables.rows.Keys == w.tables.rows.Keys
      && ProcessOn(turn, id, message, s).0.active.Keys == turn.active.Keys
      && w'.active[id] == ProcessOn(turn, id, message, s).0.active[id];
    var route := turn.active[id];
    HandlerSeesReaching(Attach(route.listener, DirectoryAt(turn.directories, route.context.root)), turn.tables, route.context,
                        message, s.moment, s.clock);
  }

  /** What a delivery does, with the routes that got their turn. */
  ghost predicate Delivered(w: World, w': World, ids: seq<int>, turns: seq<int>, message: InboundMessage,
                            around: int -> Surroundings)
  {
    && w'.active.Keys == w.active.Keys && w'.tables.rows.Keys == w.tables.rows.Keys
    && (forall id | id in turns :: Served(w, w', id, message, around(id)))
    && (forall id | id in w.active && id !in turns :: w'.active[id] == w.active[id])
    && Adds(w.tables, w'.tables, WithRows(turns, w.tables.rows))
  }

  lemma ServedEarlier(w: World, w1: World, w': World, id: int, message: InboundMessage, s: Surroundings)
    requires Served(w, w1, id, message, s) && id in w'.active && w'.active[id] == w1.active[id]
    ensures Served(w, w', id, message, s)
  {
    hide ProcessOn;
  }

  lemma ServedLater(w: World, w1: World, w': World, id: int, message: InboundMessage, s: Surroundings)
    requires Served(w1, w', id, message, s) && id in w.active && w1.active[id] == w.active[id]
    requires w1.tables.rows.Keys == w.tables.rows.Keys
    ensures Served(w, w', id, message, s)
  {
    hide ProcessOn;
  }

  /**
   A message is delivered to every route of the channel exactly when none of them raises; a route that
   fails to publish, whatever the fault, does not. Every route up to the first that raises has had its
   turn and its event; the runtimes after it are as they were, without an event.
   */
  lemma {:induction false} DeliveryReaches(w: World, ids: seq<int>, message: InboundMessage, around: int -> Surroundings)
    requires WellFormed(w) && Distinct(ids) && forall id | id in ids :: id in w.active
    ensures var (w', r) := Deliver(w, ids, message, around);
            && (r.Pass? <==> forall id | id in ids :: !RaisesOn(w, id, message))
            && (r.Pass? ==> Reached(w, ids, message) == |ids|)
            && Delivered(w, w', ids, ids[..Reached(w, ids, message)], message, around)
    decreases |ids|
  {
    hide ProcessOn, RaisesOn, Served, Adds, WithRows;
    if ids == [] {
      AddsNothing(w.tables, w.tables.rows);
      NoRoutes(w.tables.rows);
    } else {
      var (w1, r1) := ProcessOn(w, ids[0], message, around(ids[0]));
      var w' := Deliver(w, ids, message, around).0;
      assert ids[0] in ids;
      ProcessOnAlone(w, ids[0], message, around(ids[0]));
      TurnServes(w, ids[0], message, around(ids[0]));
      assert forall id :: id in ids <==> id == ids[0] || id in ids[1..];
      if r1.Fail? {
        assert ids[..1] == [ids[0]];
      } else {
        assert ids[0] !in ids[1..];
        DeliveryReaches(w1, ids[1..], message, around);
        ReachedSame(w, w1, ids[1..], message);
        var turns := ids[1..][..Reached(w, ids[1..], message)];
        assert ids[..Reached(w, ids, message)] == [ids[0]] + turns;
        assert forall id | id in turns :: id in ids[1..];
        ServedEarlier(w, w1, w', ids[0], message, around(ids[0]));
        forall id | id in turns ensures Served(w, w', id, message, around(id)) {
          ServedLater(w, w1, w', id, message, around(id));
        }
        AddsThen(w.tables, w1.tables, w'.tables, WithRows([ids[0]], w.tables.rows), WithRows(turns, w1.tables.rows));
        OneMoreRoute(ids[0], turns, w.tables.rows, w1.tables.rows);
      }
    }
  }

  lemma NoRoutes(rows: Arms.Rows)
    ensures WithRows([], rows) == {}
  {
  }

  lemma OneMoreRoute(id: int, turns: seq<int>, rows: Arms.Rows, rows': Arms.Rows)
    requires rows.Keys == rows'.Keys
    ensures WithRows([id] + turns, rows) == WithRows([id], rows) + WithRows(turns, rows')
  {
    assert forall x :: x in rows <==> x in rows';
  }

  // ---------- the arm and the files ----------

  predicate SteadyFault(fault: Fault) { fault == NoFault || Restores(fault) }

  lemma PublishMoves(s: PublisherState, q: Request, fault: Fault)
    requires SteadyFault(fault) && q.names.seed != q.names.details
    requires ValidateBasename(q.names.seed) == Success(q.names.seed) && ValidateBasename(q.names.details) == Success(q.names.details)
    ensures var (s', r) := Publish(s, q, fault);
            s'.directory != s.directory ==> r.Success? && |s'.fingerprints| > |s.fingerprints|
  {
    hide ValidateBasename, ValidatePairPayload, PairFingerprint, DirectoryAfter;
    if Validate(q).Success? {
      AllOrNothing(s.directory, CallFor(q.names, Validate(q).value.1, q), fault);
      AddedElement(s.fingerprints, PairFingerprint(Validate(q).value.1));
    }
  }

  lemma IngestMoves(m: MatcherState, setup: Setup, message: InboundMessage, moment: Moment)
    requires SteadyFault(moment.fault) && SoundSetup(setup, setup.names)
    ensures var (m', r) := IngestDetails(m, setup, message, moment);
            m'.publisher.directory != m.publisher.directory ==>
              r.Pass? && |m'.publisher.fingerprints| > |m.publisher.fingerprints|
  {
    hide ValidateDetailsText, ParseDetailsHeader, ValidateBasename, Publish;
    var current := ExpireIfNeeded(m, setup, moment.checkedAt);
    if ValidateDetailsText(message.text).Success? {
      var details := ValidateDetailsText(message.text).value;
      if MatchRule(current.pending, details, message).Some? {
        PublishMoves(current.publisher, RequestFor(setup, current.pending.value, details, moment.uuids), moment.fault);
      }
    }
  }

  lemma HandleMoves(h: HandlerState, setup: Setup, message: InboundMessage, moment: Moment)
    requires SteadyFault(moment.fault) && SoundSetup(setup, setup.names)
    ensures var (h', r) := Handle(h, setup, message, moment);
            h'.matcher.publisher.directory != h.matcher.publisher.directory ==>
              r.Pass? && |h'.matcher.publisher.fingerprints| > |h.matcher.publisher.fingerprints|
              && Classify(message.text) == DetailsMessage
  {
    hide Classify, MessageKey, RawMessageHash, ValidateSeedFormat, SeedFrom, IngestDetails, SoundSetup;
    IngestMoves(h.matcher, setup, message, moment);
  }

  function FilesOf(l: Listener): Directory { l.handler.matcher.publisher.directory }

  predicate Spent(rows: Arms.Rows, id: int) {
    id in rows && rows[id].mode in {Arms.Consumed, Arms.Expired}
  }

  lemma PermissionMeansArmed(t: Tables, id: int, clock: Clock)
    requires id in t.rows && AskPermission(t, id, clock).1.None?
    ensures var rows := AskPermission(t, id, clock).0.rows;
            rows == Arms.ExpireArms(t.rows, clock.asked) && id in rows && rows[id] == t.rows[id] && rows[id].mode == Arms.Armed
  {
    hide Arms.IsArmExpired, Arms.Due;
  }

  lemma SettlingSpends(rows: Arms.Rows, id: int, now: nat)
    requires id in rows && rows[id].mode == Arms.Armed && rows[id].publishCount >= 0
    ensures Spent(SettleArm(rows, id, now), id)
  {
    hide Arms.Due;
  }

  lemma DetailsMoveFiles(l: Listener, t: Tables, c: Context, message: InboundMessage, moment: Moment, clock: Clock)
    requires SoundSetup(c.setup, c.setup.names) && SteadyFault(moment.fault)
    requires c.routeId in t.rows && t.rows[c.routeId].mode == Arms.Armed && t.rows[c.routeId].publishCount >= 0
    ensures var (l', t', r) := HandleDetails(l, t, c, message, moment, clock);
            FilesOf(l') != FilesOf(l) ==> Spent(t'.rows, c.routeId)
  {
    hide Handle, SettleArm, Spent;
    HandleMoves(l.handler, c.setup, message, moment);
    SettlingSpends(t.rows, c.routeId, clock.settled);
  }

  lemma ProcessDetailsMoveFiles(l: Listener, t: Tables, c: Context, message: InboundMessage, moment: Moment, clock: Clock)
    requires SoundSetup(c.setup, c.setup.names) && SteadyFault(moment.fault)
    requires forall id | id in t.rows :: t.rows[id].publishCount >= 0
    ensures var (l', t', r) := ProcessDetails(l, t, c, message, moment, clock);
            FilesOf(l') != FilesOf(l) ==>
              c.routeId in t.rows && t.rows[c.routeId].mode == Arms.Armed && Spent(t'.rows, c.routeId)
  {
    hide HandleDetails, AskPermission, Spent;
    var t1 := Write(t, c.routeId, DetailsDetected, DetailsSeen).0;
    if c.routeId in t.rows && AskPermission(t1, c.routeId, clock).1.None? {
      PermissionMeansArmed(t1, c.routeId, clock);
      DetailsMoveFiles(l, AskPermission(t1, c.routeId, clock).0, c, message, moment, clock);
    }
  }

  /**
   With faults at most in the restoring window, a real listener moves files only while its route is
   armed, announces it, and the arm is spent when the method returns: consumed, or expired meanwhile.
   */
  lemma FilesMoveOnlyWithTheArm(l: Listener, t: Tables, c: Context, message: InboundMessage, moment: Moment, clock: Clock)
    requires SoundSetup(c.setup, c.setup.names) && SteadyFault(moment.fault)
    requires forall id | id in t.rows :: t.rows[id].publishCount >= 0
    ensures var (l', t', r) := Process(l, t, c, message, moment, clock);
            FilesOf(l') != FilesOf(l) ==>
              && c.routeId in t.rows && t.rows[c.routeId].mode == Arms.Armed
              && Spent(t'.rows, c.routeId) && Announced(t, t', c.routeId)
  {
    hide RawMessageHash, Classify, Handle, ProcessDetails, Announced, Spent, SoundSetup, FingerprintsOf;
    ReadyIffRecorded(l, t, c, message, moment, clock);
    HandlerSeesReaching(l, t, c, message, moment, clock);
    HandleMoves(l.handler, c.setup, message, moment);
    ProcessDetailsMoveFiles(l.(seen := l.seen + {RawMessageHash(message.text)}), t, c, message, moment, clock);
    FingerprintCount(l, Process(l, t, c, message, moment, clock).0);
  }

  lemma FingerprintCount(l: Listener, l': Listener)
    ensures FingerprintsOf(l) == l.handler.matcher.publisher.fingerprints
    ensures FingerprintsOf(l') == l'.handler.matcher.publisher.fingerprints
  {
  }

  // A publish that goes through.

  /** The request that details make of the publisher once they match the pending seed. */
  function MatchedRequest(m: MatcherState, setup: Setup, message: InboundMessage, moment: Moment): Option<Request> {
    var current := ExpireIfNeeded(m, setup, moment.checkedAt);
    var details := NormalizeLineEndings(message.text);
    if IsAscii(message.text) && current.pending.Some? && MatchRule(current.pending, details, message).Some?
    then Some(RequestFor(setup, current.pending.value, details, moment.uuids))
    else None
  }

  /** Details that the handler has not seen and that match the pending seed. */
  ghost predicate MatchesSeed(l: Listener, c: Context, message: InboundMessage, moment: Moment) {
    && MessageKey(message) !in l.handler.seenKeys && RawMessageHash(message.text) !in l.handler.seenHashes
    && MatchedRequest(l.handler.matcher, c.setup, message, moment).Some?
  }

  lemma FaultlessPublish(s: PublisherState, q: Request)
    ensures var (s', r) := Publish(s, q, NoFault);
            if IsNew(q, s.fingerprints) then
              var (names, pair) := Validate(q).value;
              && r.Success? && s'.fingerprints == s.fingerprints + {PairFingerprint(pair)}
              && s'.directory == if q.dryRun then s.directory else DirectoryAfter(s.directory, CallFor(names, pair, q), NoFault)
            else s' == s
  {
    hide Validate, PairFingerprint, DirectoryAfter, PricesRead;
    if Validate(q).Success? && !IsNew(q, s.fingerprints) && PricesRead(Validate(q).value.1.details) {
      assert s.fingerprints + {PairFingerprint(Validate(q).value.1)} == s.fingerprints;
    }
  }

  lemma MatchedDetailsIngested(l: Listener, c: Context, message: InboundMessage, moment: Moment)
    requires MatchesSeed(l, c, message, moment) && moment.fault == NoFault && Classify(message.text) == DetailsMessage
    ensures var q := MatchedRequest(l.handler.matcher, c.setup, message, moment).value;
            var (h, r) := Handle(l.handler, c.setup, message, moment);
            var published := Publish(l.handler.matcher.publisher, q, NoFault);
            && h.matcher.publisher == published.0 && r.Fail? == published.1.Failure?
            && h.matcher.pending.None? == published.1.Success?
  {
    hide Classify, MessageKey, RawMessageHash, ValidateDetailsText, Publish, MatchRule, NormalizeLineEndings;
    ClassifiedDetailsValidates(message.text);
  }

  /**
   Permitted details that match the pending seed are announced, when nothing faults, exactly when
   their pair is valid, its prices read and it is not on record. Then the files become those of the
   outcome table, the fingerprint is recorded and the seed consumed; otherwise no file and no
   fingerprint changes.
   */
  lemma MatchedDetailsArePublished(l: Listener, t: Tables, c: Context, message: InboundMessage, moment: Moment, clock: Clock)
    requires Reaches(l, t, c, message, clock) && Classify(message.text) == DetailsMessage
    requires MatchesSeed(l, c, message, moment) && moment.fault == NoFault
    ensures var q := MatchedRequest(l.handler.matcher, c.setup, message, moment).value;
            var (l', t', r) := Process(l, t, c, message, moment, clock);
            && r.Pass? && (Announced(t, t', c.routeId) <==> IsNew(q, FingerprintsOf(l)))
            && if IsNew(q, FingerprintsOf(l)) then
                 var (names, pair) := Validate(q).value;
                 && l'.handler.matcher.pending.None? && FingerprintsOf(l') == FingerprintsOf(l) + {PairFingerprint(pair)}
                 && FilesOf(l') == if c.setup.dryRun then FilesOf(l) else DirectoryAfter(FilesOf(l), CallFor(names, pair, q), NoFault)
               else FilesOf(l') == FilesOf(l) && FingerprintsOf(l') == FingerprintsOf(l)
  {
    hide RawMessageHash, Classify, Handle, MessageKey, Validate, PairFingerprint, Publish, DirectoryAfter, MatchedRequest;
    hide Announced, Raises, PricesRead;
    var q := MatchedRequest(l.handler.matcher, c.setup, message, moment).value;
    MatchedDetailsIngested(l, c, message, moment);
    FaultlessPublish(l.handler.matcher.publisher, q);
    HandlerSeesReaching(l, t, c, message, moment, clock);
    ReadyIffRecorded(l, t, c, message, moment, clock);
    RaisesExactly(l, t, c, message, moment, clock);
    RequestIsForSetup(l.handler.matcher, c.setup, message, moment);
    DetailsDoNotRaise(l, t, c, message);
    if IsNew(q, FingerprintsOf(l)) {
      AddedElement(FingerprintsOf(l), PairFingerprint(Validate(q).value.1));
    }
  }

  lemma RequestIsForSetup(m: MatcherState, setup: Setup, message: InboundMessage, moment: Moment)
    requires MatchedRequest(m, setup, message, moment).Some?
    ensures MatchedRequest(m, setup, message, moment).value.dryRun == setup.dryRun
  {
    hide NormalizeLineEndings, MatchRule;
  }

  lemma DetailsDoNotRaise(l: Listener, t: Tables, c: Context, message: InboundMessage)
    requires Classify(message.text) == DetailsMessage && c.routeId in t.rows
    ensures !Raises(l, t.rows, c, message)
  {
    hide Classify;
  }

  // A ready line that cannot be logged.

  const UNLOGGED := At(LogReady, None)

  lemma PublishUnlogged(s: PublisherState, q: Request)
    requires Publish(s, q, NoFault).0.directory != s.directory
    ensures Publish(s, q, UNLOGGED) == (Publish(s, q, NoFault).0, Failure(Raised(LogReady)))
  {
    hide Validate, PairFingerprint, WithPair;
  }

  lemma IngestUnlogged(m: MatcherState, setup: Setup, message: InboundMessage, moment: Moment)
    requires moment.fault == NoFault && IngestDetails(m, setup, message, moment).0.publisher.directory != m.publisher.directory
    ensures var (m', r) := IngestDetails(m, setup, message, moment.(fault := UNLOGGED));
            r.Fail? && m'.publisher == IngestDetails(m, setup, message, moment).0.publisher
            && m'.pending.Some? && m'.pending == m.pending
  {
    hide ValidateDetailsText, ParseDetailsHeader, Publish;
    var current := ExpireIfNeeded(m, setup, moment.checkedAt);
    var details := ValidateDetailsText(message.text).value;
    PublishUnlogged(current.publisher, RequestFor(setup, current.pending.value, details, moment.uuids));
  }

  lemma HandleUnlogged(h: HandlerState, setup: Setup, message: InboundMessage, moment: Moment)
    requires moment.fault == NoFault
    requires Handle(h, setup, message, moment).0.matcher.publisher.directory != h.matcher.publisher.directory
    ensures var (h', r) := Handle(h, setup, message, moment.(fault := UNLOGGED));
            r.Fail? && h'.matcher.publisher == Handle(h, setup, message, moment).0.matcher.publisher
            && h'.matcher.pending.Some? && h'.matcher.pending == h.matcher.pending
    ensures Classify(message.text) == DetailsMessage
  {
    hide Classify, MessageKey, RawMessageHash, ValidateSeedFormat, SeedFrom, IngestDetails;
    if Classify(message.text) == DetailsMessage {
      IngestUnlogged(h.matcher, setup, message, moment);
    }
  }

  lemma AskAgain(t: Tables, id: int, clock: Clock)
    requires id in t.rows && AskPermission(t, id, clock).1.None?
    ensures AskPermission(AskPermission(t, id, clock).0, id, clock).1.None?
  {
    hide Arms.IsArmExpired;
    PermissionMeansArmed(t, id, clock);
  }

  lemma ProcessDetailsUnlogged(l: Listener, t: Tables, c: Context, message: InboundMessage, moment: Moment, clock: Clock)
    requires !c.setup.dryRun && moment.fault == NoFault
    requires FilesOf(ProcessDetails(l, t, c, message, moment, clock).0) != FilesOf(l)
    ensures var (l', t', r) := ProcessDetails(l, t, c, message, moment.(fault := UNLOGGED), clock);
            && FilesOf(l') == FilesOf(ProcessDetails(l, t, c, message, moment, clock).0)
            && c.routeId in t.rows && c.routeId in t'.rows
            && t'.rows[c.routeId] == t.rows[c.routeId] && t'.rows[c.routeId].mode == Arms.Armed
            && c.routeId in t'.statuses && t'.statuses[c.routeId] == PublishFailed
            && AskPermission(t', c.routeId, clock).1.None?
            && l'.handler.matcher.pending.Some? && l'.handler.matcher.pending == l.handler.matcher.pending
  {
    hide Handle, AskPermission;
    var t1 := Write(t, c.routeId, DetailsDetected, DetailsSeen).0;
    PermissionMeansArmed(t1, c.routeId, clock);
    HandleUnlogged(l.handler, c.setup, message, moment);
    AskAgain(t1, c.routeId, clock);
    var t' := ProcessDetails(l, t, c, message, moment.(fault := UNLOGGED), clock).1;
    AskReadsRows(t', AskPermission(t1, c.routeId, clock).0, c.routeId, clock);
  }

  lemma AskReadsRows(t: Tables, t': Tables, id: int, clock: Clock)
    requires t.rows == t'.rows
    ensures AskPermission(t, id, clock).1 == AskPermission(t', id, clock).1
  {
  }

  /**
   When the publisher's ready line cannot be logged, the very files that the message would have
   published are published, but the failure is what gets recorded: the arm stays unspent and would
   permit again at once, and the seed stays waiting for more details.
   */
  lemma UnloggedPublishKeepsTheArm(l: Listener, t: Tables, c: Context, message: InboundMessage, moment: Moment, clock: Clock)
    requires !c.setup.dryRun && moment.fault == NoFault
    requires FilesOf(Process(l, t, c, message, moment, clock).0) != FilesOf(l)
    ensures var (l', t', r) := Process(l, t, c, message, moment.(fault := UNLOGGED), clock);
            && FilesOf(l') == FilesOf(Process(l, t, c, message, moment, clock).0)
            && !Announced(t, t', c.routeId) && c.routeId in t'.statuses && t'.statuses[c.routeId] == PublishFailed
            && c.routeId in t'.rows && t'.rows[c.routeId].mode == Arms.Armed
            && AskPermission(t', c.routeId, clock).1.None?
            && l'.handler.matcher.pending.Some? && l'.handler.matcher.pending == l.handler.matcher.pending
  {
    hide RawMessageHash, Classify, ProcessDetails, Handle, Announced, AskPermission;
    ReadyIffRecorded(l, t, c, message, moment.(fault := UNLOGGED), clock);
    HandlerSeesReaching(l, t, c, message, moment, clock);
    HandleUnlogged(l.handler, c.setup, message, moment);
    ProcessDetailsUnlogged(l.(seen := l.seen + {RawMessageHash(message.text)}), t, c, message, moment, clock);
  }

  lemma DetailsSpend(t: Tables, l: Listener, t1: Tables, c: Context, message: InboundMessage, moment: Moment, clock: Clock)
    requires t.events <= t1.events && !Announced(t, t1, c.routeId) && !c.setup.dryRun
    requires c.routeId in t1.rows && t1.rows[c.routeId].mode == Arms.Armed && t1.rows[c.routeId].publishCount >= 0
    ensures var (l', t', r) := HandleDetails(l, t1, c, message, moment, clock);
            Spent(t'.rows, c.routeId) <==> Announced(t, t', c.routeId)
  {
    hide Handle, SettleArm, Announced;
    DetailsAnnounced(t, l, t1, c, message, moment, clock);
    HandleRecordsProperly(l.handler, c.setup, message, moment);
    SettlingSpends(t1.rows, c.routeId, clock.settled);
  }

  /** A permitted message spends the arm exactly when its publish is announced, whatever the fault. */
  lemma ArmSpentIffAnnounced(l: Listener, t: Tables, c: Context, message: InboundMessage, moment: Moment, clock: Clock)
    requires !c.setup.dryRun && Reaches(l, t, c, message, clock) && Classify(message.text) == DetailsMessage
    requires t.rows[c.routeId].publishCount >= 0
    ensures var (l', t', r) := Process(l, t, c, message, moment, clock);
            t.rows[c.routeId].mode == Arms.Armed && (Spent(t'.rows, c.routeId) <==> Announced(t, t', c.routeId))
  {
    hide RawMessageHash, Classify, HandleDetails, AskPermission, Announced, Spent;
    var t1 := Write(t, c.routeId, DetailsDetected, DetailsSeen).0;
    AskReadsRows(t, t1, c.routeId, clock);
    PermissionMeansArmed(t1, c.routeId, clock);
    AskKeepsEvents(t1, c.routeId, clock);
    NothingAnnounced(t, c.routeId);
    WriteAnnounces(t, t, c.routeId, DetailsDetected, DetailsSeen);
    var t2 := AskPermission(t1, c.routeId, clock).0;
    assert t2 == t1.(rows := t2.rows);
    RowsAnnounceNothing(t, t1, t2.rows, c.routeId);
    DetailsSpend(t, l.(seen := l.seen + {RawMessageHash(message.text)}), t2, c, message, moment, clock);
  }

  // ---------- one message as steps of the interleaving ----------

  /** The rows after details were handled: settled exactly when the publish is announced. */
  lemma HandledRows(t: Tables, l: Listener, t1: Tables, c: Context, message: InboundMessage, moment: Moment, clock: Clock)
    requires t.events <= t1.events && !Announced(t, t1, c.routeId) && c.routeId in t1.rows && !c.setup.dryRun
    ensures var t' := HandleDetails(l, t1, c, message, moment, clock).1;
            t'.rows == if Announced(t, t', c.routeId) then SettleArm(t1.rows, c.routeId, clock.settled) else t1.rows
  {
    hide Handle, SettleArm, Announced;
    DetailsAnnounced(t, l, t1, c, message, moment, clock);
    HandleRecordsProperly(l.handler, c.setup, message, moment);
    SettleKeepsKeys(t1.rows, c.routeId, clock.settled);
  }

  /** The steps of a listener that is refused, that fails to publish, or that publishes. */
  function StepsOf(id: int, clock: Clock, refusal: Option<Arms.BlockReason>, announced: bool): seq<Interleavings.Step> {
    var checked := [Interleavings.Detect(id), Interleavings.WriteExpiry(clock.asked), Interleavings.Check(id, clock.permitted)];
    if refusal == Some(Arms.CandidateTestExpired) then checked + [Interleavings.WriteExpiry(clock.refused)]
    else if refusal.Some? then checked
    else if !announced then checked + [Interleavings.FinishPublish(id, false)]
    else
      checked + [Interleavings.FinishPublish(id, true), Interleavings.WriteExpiry(clock.settled), Interleavings.ReadMode(id),
                 Interleavings.WriteConsumed(id)]
  }

  lemma StepAppended(s: Interleavings.System, steps: seq<Interleavings.Step>, step: Interleavings.Step)
    ensures Interleavings.Interleave(s, steps + [step]) == Interleavings.Next(Interleavings.Interleave(s, steps), step)
  {
    assert (steps + [step])[..|steps + [step]| - 1] == steps;
  }

  lemma CheckedSteps(s: Interleavings.System, id: int, clock: Clock)
    ensures Interleavings.Interleave(s, [Interleavings.Detect(id), Interleavings.WriteExpiry(clock.asked),
                                         Interleavings.Check(id, clock.permitted)]) ==
            Interleavings.Next(Interleavings.Next(Interleavings.Next(s, Interleavings.Detect(id)),
                                                  Interleavings.WriteExpiry(clock.asked)), Interleavings.Check(id, clock.permitted))
  {
    hide Interleavings.Next, Interleavings.Interleave;
    StepAppended(s, [], Interleavings.Detect(id));
    StepAppended(s, [Interleavings.Detect(id)], Interleavings.WriteExpiry(clock.asked));
    StepAppended(s, [Interleavings.Detect(id), Interleavings.WriteExpiry(clock.asked)], Interleavings.Check(id, clock.permitted));
    assert [] + [Interleavings.Detect(id)] == [Interleavings.Detect(id)];
    assert [Interleavings.Detect(id)] + [Interleavings.WriteExpiry(clock.asked)]
           == [Interleavings.Detect(id), Interleavings.WriteExpiry(clock.asked)];
    assert [Interleavings.Detect(id), Interleavings.WriteExpiry(clock.asked)] + [Interleavings.Check(id, clock.permitted)]
           == [Interleavings.Detect(id), Interleavings.WriteExpiry(clock.asked), Interleavings.Check(id, clock.permitted)];
    NoSteps(s);
  }

  lemma FourSteps(s: Interleavings.System, steps: seq<Interleavings.Step>, a: Interleavings.Step, b: Interleavings.Step,
                  c: Interleavings.Step, d: Interleavings.Step)
    ensures var s1 := Interleavings.Interleave(s, steps);
            Interleavings.Interleave(s, steps + [a, b, c, d]) ==
            Interleavings.Next(Interleavings.Next(Interleavings.Next(Interleavings.Next(s1, a), b), c), d)
  {
    hide Interleavings.Next, Interleavings.Interleave;
    StepAppended(s, steps, a);
    StepAppended(s, steps + [a], b);
    StepAppended(s, steps + [a] + [b], c);
    StepAppended(s, steps + [a] + [b] + [c], d);
    assert steps + [a, b, c, d] == steps + [a] + [b] + [c] + [d];
  }

  lemma NoSteps(s: Interleavings.System)
    ensures Interleavings.Interleave(s, []) == s
  {
  }

  /** The check of an idle route's listener: it goes on under the current arm, or stops. */
  lemma CheckedSystem(s: Interleavings.System, t: Tables, id: int, clock: Clock)
    requires s.rows == t.rows && id in t.rows && Interleavings.PhaseAt(s.phases, id) == Interleavings.Idle
    ensures var refusal := AskPermission(t, id, clock).1;
            var s1 := Interleavings.Interleave(s, [Interleavings.Detect(id), Interleavings.WriteExpiry(clock.asked),
                                                   Interleavings.Check(id, clock.permitted)]);
            && s1.published == s.published && s1.arms == s.arms
            && s1.rows == Arms.ExpireArms(t.rows, clock.asked)
            && Interleavings.PhaseAt(s1.phases, id) ==
               if refusal.None? then Interleavings.Cleared(s.CurrentArm(id)) else Interleavings.Idle
  {
    hide Arms.EvaluateRealPublishPermission, Arms.ExpiredRow, Arms.Due, Interleavings.Interleave;
    CheckedSteps(s, id, clock);
  }

  lemma PublishedSystem(s1: Interleavings.System, id: int, arm: Interleavings.Authority, now: nat)
    requires Interleavings.PhaseAt(s1.phases, id) == Interleavings.Cleared(arm)
    ensures var s2 := Interleavings.Next(Interleavings.Next(s1, Interleavings.FinishPublish(id, true)), Interleavings.WriteExpiry(now));
            var end := Interleavings.Next(Interleavings.Next(s2, Interleavings.ReadMode(id)), Interleavings.WriteConsumed(id));
            && end.rows == SettleArm(s1.rows, id, now) && end.published == s1.published + [arm]
            && Interleavings.PhaseAt(end.phases, id) == Interleavings.Idle
  {
    hide Arms.ExpireArms, Arms.ConsumedRow;
  }

  lemma DetailsAreARun(s: Interleavings.System, l: Listener, t: Tables, c: Context, message: InboundMessage, moment: Moment,
                       clock: Clock)
    requires !c.setup.dryRun && s.rows == t.rows && c.routeId in t.rows
    requires Interleavings.PhaseAt(s.phases, c.routeId) == Interleavings.Idle
    ensures var t' := ProcessDetails(l, t, c, message, moment, clock).1;
            var announced := Announced(t, t', c.routeId);
            var end := Interleavings.Interleave(s, StepsOf(c.routeId, clock, AskPermission(t, c.routeId, clock).1, announced));
            && end.rows == t'.rows && Interleavings.PhaseAt(end.phases, c.routeId) == Interleavings.Idle
            && end.published == s.published + if announced then [s.CurrentArm(c.routeId)] else []
  {
    hide HandleDetails, Announced, SettleArm, AskPermission, Interleavings.Interleave, Arms.ExpireArms;
    var id := c.routeId;
    var t1 := Write(t, id, DetailsDetected, DetailsSeen).0;
    var (t2, refusal) := AskPermission(t1, id, clock);
    AskReadsRows(t, t1, id, clock);
    AskedRows(t1, id, clock);
    AskKeepsEvents(t1, id, clock);
    ProcessDetailsAnnounced(l, t, c, message, moment, clock);
    CheckedSystem(s, t, id, clock);
    NothingAnnounced(t, id);
    WriteAnnounces(t, t, id, DetailsDetected, DetailsSeen);
    assert t2 == t1.(rows := t2.rows);
    RowsAnnounceNothing(t, t1, t2.rows, id);
    var checked := [Interleavings.Detect(id), Interleavings.WriteExpiry(clock.asked), Interleavings.Check(id, clock.permitted)];
    var s1 := Interleavings.Interleave(s, checked);
    if refusal.Some? {
      WriteAnnounces(t, t2, id, PublishSkipped, PublishBlocked(refusal.value));
      StepAppended(s, checked, Interleavings.WriteExpiry(clock.refused));
      assert s.published + [] == s.published;
    } else {
      HandledRows(t, l, t2, c, message, moment, clock);
      StepAppended(s, checked, Interleavings.FinishPublish(id, false));
      PublishedSystem(s1, id, s.CurrentArm(id), clock.settled);
      FourSteps(s, checked, Interleavings.FinishPublish(id, true), Interleavings.WriteExpiry(clock.settled),
                Interleavings.ReadMode(id), Interleavings.WriteConsumed(id));
      assert s.published + [] == s.published;
    }
  }

  /** The rows after the permission question. */
  lemma AskedRows(t: Tables, id: int, clock: Clock)
    requires id in t.rows
    ensures var (t', refusal) := AskPermission(t, id, clock);
            var asked := Arms.ExpireArms(t.rows, clock.asked);
            t'.rows == if refusal == Some(Arms.CandidateTestExpired) then Arms.ExpireArms(asked, clock.refused) else asked
  {
    hide Arms.EvaluateRealPublishPermission, Arms.ExpiredRow, Arms.Due;
  }

  /**
   Every message that a real listener processes is a run of the interleaving's steps, none of them a
   death: it leaves the same rows, and one more publish under the current arm exactly when it is
   announced. So what holds of every interleaving holds of the listener.
   */
  lemma MessageIsARun(s: Interleavings.System, l: Listener, t: Tables, c: Context, message: InboundMessage, moment: Moment,
                      clock: Clock) returns (steps: seq<Interleavings.Step>)
    requires !c.setup.dryRun && s.rows == t.rows
    requires Interleavings.PhaseAt(s.phases, c.routeId) == Interleavings.Idle
    ensures var t' := Process(l, t, c, message, moment, clock).1;
            var end := Interleavings.Interleave(s, steps);
            && end.rows == t'.rows && Interleavings.PhaseAt(end.phases, c.routeId) == Interleavings.Idle
            && end.published == s.published + if Announced(t, t', c.routeId) then [s.CurrentArm(c.routeId)] else []
    ensures forall step | step in steps :: !step.Crash?
    ensures Interleavings.Safe(s) ==> Interleavings.Safe(Interleavings.Interleave(s, steps))
  {
    hide Classify, RawMessageHash, ProcessDetails, Announced, AskPermission, Handle, Interleavings.Interleave, Interleavings.Safe;
    var id := c.routeId;
    var t' := Process(l, t, c, message, moment, clock).1;
    var marked := l.(seen := l.seen + {RawMessageHash(message.text)});
    if RawMessageHash(message.text) !in l.seen && Classify(message.text) == DetailsMessage && id in t.rows {
      DetailsAreARun(s, marked, t, c, message, moment, clock);
      steps := StepsOf(id, clock, AskPermission(t, id, clock).1, Announced(t, t', id));
    } else {
      steps := [];
      NoSteps(s);
      NothingAnnounced(t, id);
      WriteAnnounces(t, t, id, PublishSkipped, ListenerDedup);
      WriteAnnounces(t, t, id, SeedDetected, SeedSeen);
      WriteAnnounces(t, t, id, PublishSkipped, SkippedText(Classify(message.text)));
      NoRowNoDetails(marked, t, c, message, moment, clock);
      assert s.published + [] == s.published;
    }
    Interleavings.NoDeathsNoHarm(s, steps);
    if Interleavings.Safe(s) {
      Interleavings.AtMostOncePerArm(s, steps);
    }
  }

  lemma NoRowNoDetails(l: Listener, t: Tables, c: Context, message: InboundMessage, moment: Moment, clock: Clock)
    ensures c.routeId !in t.rows ==> ProcessDetails(l, t, c, message, moment, clock).1 == t
  {
  }

  // ---------- the registry and the stored statuses ----------

  function StatusOf(t: Tables, id: int): Status {
    if id in t.statuses then t.statuses[id] else Stopped
  }

  /** A route runs exactly when its stored status says it is not stopped. */
  ghost predicate Agreement(w: World) {
    forall id: int :: id in w.active <==> StatusOf(w.tables, id) != Stopped
  }

  ghost predicate RegistrySound(w: World) {
    && WellFormed(w) && Distinct(w.order)
    && (forall id :: id in w.order <==> id in w.active)
    && (forall id | id in w.active :: id in w.tables.rows)
  }

  datatype Move =
    | StartMove(id: int, connected: bool, wiring: Wiring, hookFails: bool)
    | StopMove(id: int)
    | DeliverMove(channelKey: string, message: InboundMessage, around: int -> Surroundings)
    | RowsMove(rows: Arms.Rows)
    | RestartMove

  /** What a dashboard, a worker or Telegram does to the listeners; `RowsMove` stands for any change of routes. */
  function Next(w: World, config: Config, move: Move): World {
    match move
    case StartMove(id, connected, wiring, hookFails) => Start(w, config, id, connected, wiring, hookFails).0
    case StopMove(id) => Stop(w, id).0
    case DeliverMove(channelKey, message, around) =>
      Deliver(w, OnChannel(w.active, w.order, channelKey), message, around).0
    case RowsMove(rows) => if w.tables.rows.Keys <= rows.Keys then w.(tables := w.tables.(rows := rows)) else w
    case RestartMove => World(w.tables.(statuses := AllStopped(w.tables.statuses)), map[], [], w.directories)
  }

  function Moves(w: World, config: Config, moves: seq<Move>): World {
    if moves == [] then w else Next(Moves(w, config, moves[..|moves| - 1]), config, moves[|moves| - 1])
  }

  ghost predicate InStep(w: World) { RegistrySound(w) && Agreement(w) }

  lemma StartInStep(w: World, config: Config, id: int, connected: bool, wiring: Wiring, hookFails: bool)
    requires InStep(w)
    ensures InStep(Start(w, config, id, connected, wiring, hookFails).0)
  {
    ValidatedHasRow(w.tables.rows, id, connected, wiring);
    var w' := Start(w, config, id, connected, wiring, hookFails).0;
    forall other: int ensures other in w'.active <==> StatusOf(w'.tables, other) != Stopped {
      assert other in w.active <==> StatusOf(w.tables, other) != Stopped;
    }
  }

  lemma StopInStep(w: World, id: int)
    requires InStep(w)
    ensures InStep(Stop(w, id).0)
  {
    WithoutKeeps(w.order, id);
    var w' := Stop(w, id).0;
    forall other: int ensures other in w'.active <==> StatusOf(w'.tables, other) != Stopped {
      assert other in w.active <==> StatusOf(w.tables, other) != Stopped;
    }
  }

  /** The status of one route became something other than stopped, if it has a row; no other changed. */
  ghost predicate Woken(t: Tables, t': Tables, id: int) {
    && t'.rows.Keys == t.rows.Keys
    && (forall other: int | other != id :: StatusOf(t', other) == StatusOf(t, other))
    && (if id in t.rows then StatusOf(t', id) != Stopped else StatusOf(t', id) == StatusOf(t, id))
  }

  lemma DetailsWake(t: Tables, l: Listener, t1: Tables, c: Context, message: InboundMessage, moment: Moment, clock: Clock)
    requires Woken(t, t1, c.routeId)
    ensures Woken(t, HandleDetails(l, t1, c, message, moment, clock).1, c.routeId)
  {
    hide Handle, SettleArm;
    SettleKeepsKeys(t1.rows, c.routeId, clock.settled);
  }

  lemma ProcessDetailsWake(l: Listener, t: Tables, c: Context, message: InboundMessage, moment: Moment, clock: Clock)
    ensures Woken(t, ProcessDetails(l, t, c, message, moment, clock).1, c.routeId)
  {
    hide HandleDetails, AskPermission;
    var t1 := Write(t, c.routeId, DetailsDetected, DetailsSeen).0;
    AskKeepsEvents(t1, c.routeId, clock);
    DetailsWake(t, l, t1, c, message, moment, clock);
    DetailsWake(t, l, AskPermission(t1, c.routeId, clock).0, c, message, moment, clock);
  }

  /** Every message leaves a status other than stopped, even one that raises, as long as the row is there. */
  lemma MessageWritesStatus(l: Listener, t: Tables, c: Context, message: InboundMessage, moment: Moment, clock: Clock)
    ensures Woken(t, Process(l, t, c, message, moment, clock).1, c.routeId)
  {
    hide RawMessageHash, Classify, Handle, ProcessDetails;
    ProcessDetailsWake(l.(seen := l.seen + {RawMessageHash(message.text)}), t, c, message, moment, clock);
  }

  lemma ProcessOnInStep(w: World, id: int, message: InboundMessage, s: Surroundings)
    requires InStep(w) && id in w.active
    ensures InStep(ProcessOn(w, id, message, s).0)
    ensures ProcessOn(w, id, message, s).0.active.Keys == w.active.Keys && ProcessOn(w, id, message, s).0.order == w.order
  {
    hide Process;
    var route := w.active[id];
    var l := Attach(route.listener, DirectoryAt(w.directories, route.context.root));
    MessageWritesStatus(l, w.tables, route.context, message, s.moment, s.clock);
    ProcessOnAlone(w, id, message, s);
    var w' := ProcessOn(w, id, message, s).0;
    forall other: int ensures other in w'.active <==> StatusOf(w'.tables, other) != Stopped {
      assert other in w.active <==> StatusOf(w.tables, other) != Stopped;
    }
  }

  lemma {:induction false} DeliverInStep(w: World, ids: seq<int>, message: InboundMessage, around: int -> Surroundings)
    requires InStep(w) && forall id | id in ids :: id in w.active
    ensures InStep(Deliver(w, ids, message, around).0) && Deliver(w, ids, message, around).0.order == w.order
    decreases |ids|
  {
    hide ProcessOn, InStep;
    if ids != [] {
      assert ids[0] in ids;
      ProcessOnInStep(w, ids[0], message, around(ids[0]));
      var (w1, r1) := ProcessOn(w, ids[0], message, around(ids[0]));
      if r1.Pass? {
        DeliverInStep(w1, ids[1..], message, around);
      }
    }
  }

  /** A manager just built on any tables, however the last process ended, is in step. */
  lemma RestartInStep(w: World, config: Config)
    ensures InStep(Next(w, config, RestartMove))
  {
  }

  /**
   Over any run of starts, stops, messages, route changes other than deletions, and restarts, a route
   runs exactly when its stored status is not stopped, and each running route is listed once.
   */
  lemma {:induction false} RegistryAgrees(w: World, config: Config, moves: seq<Move>)
    requires InStep(w)
    ensures InStep(Moves(w, config, moves))
  {
    hide InStep, Start, Stop, Deliver;
    if moves != [] {
      var front, last := moves[..|moves| - 1], moves[|moves| - 1];
      RegistryAgrees(w, config, front);
      var w' := Moves(w, config, front);
      match last
      case StartMove(id, connected, wiring, hookFails) => StartInStep(w', config, id, connected, wiring, hookFails);
      case StopMove(id) => StopInStep(w', id);
      case DeliverMove(channelKey, message, around) =>
        DeliverInStep(w', OnChannel(w'.active, w'.order, channelKey), message, around);
      case RowsMove(rows) =>
        if w'.tables.rows.Keys <= rows.Keys {
          RowsInStep(w', rows);
        }
      case RestartMove => RestartInStep(w', config);
    }
  }

  lemma RowsInStep(w: World, rows: Arms.Rows)
    requires InStep(w) && w.tables.rows.Keys <= rows.Keys
    ensures InStep(w.(tables := w.tables.(rows := rows)))
  {
  }

  /** Deleting a route's row keeps the agreement exactly when the route is not running. */
  lemma DeletionBreaksAgreement(w: World, id: int)
    requires InStep(w) && id in w.tables.rows
    ensures Agreement(w.(tables := Deleted(w.tables, id))) <==> id !in w.active
  {
    var w' := w.(tables := Deleted(w.tables, id));
    assert StatusOf(w'.tables, id) == Stopped;
    forall other: int | other != id ensures StatusOf(w'.tables, other) == StatusOf(w.tables, other) {
    }
  }

  /** A message still under way on a route that has been stopped brings its status back to life. */
  lemma LateMessageBreaksAgreement(w: World, l: Listener, c: Context, message: InboundMessage, moment: Moment, clock: Clock)
    requires InStep(w) && c.routeId in w.tables.rows
    ensures Agreement(w.(tables := Process(l, w.tables, c, message, moment, clock).1)) <==> c.routeId in w.active
  {
    hide Process;
    MessageWritesStatus(l, w.tables, c, message, moment, clock);
    var w' := w.(tables := Process(l, w.tables, c, message, moment, clock).1);
    assert StatusOf(w'.tables, c.routeId) != Stopped;
  }
}
