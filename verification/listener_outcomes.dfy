/**
 What a route's listener writes, case by case: the method that processes a message, and the starts and
 stops of the registry (integrations/telegram/route_listener_service.py).
 */
module ListenerOutcomes {
  import opened Wrappers
  import opened Sequences
  import opened MessageText
  import opened AtomicPublish
  import opened Pairing
  import opened RouteListener
  import opened ListenerRuns
  import Arms = CandidateTest

  /** The tables with one more event of a route, and its status. */
  function Logged(t: Tables, id: int, eventType: EventType, status: Status): Tables {
    Tables(t.rows, t.statuses[id := status], t.events + [Event(id, eventType, status)])
  }

  function ContentOf(message: InboundMessage): Digest { Sha256(Strip(NormalizeLineEndings(message.text))) }

  function SeenToo(l: Listener, message: InboundMessage): Listener { l.(seen := l.seen + {ContentOf(message)}) }

  // ---------- one message ----------

  /** A route whose row is gone: nothing is written and the message raises. */
  lemma RowlessMessage(l: Listener, t: Tables, c: Context, message: InboundMessage, moment: Moment, clock: Clock)
    requires c.routeId !in t.rows
    ensures var (l', t', r) := Process(l, t, c, message, moment, clock);
            t' == t && r == Fail(IntegrityError) && l'.handler == l.handler
  {
    hide Classify, Strip, NormalizeLineEndings;
  }

  /** A content seen before, and a text that is neither seed nor details, are skipped under different names; the second is not remembered. */
  lemma SkippedMessageTrace(l: Listener, t: Tables, c: Context, message: InboundMessage, moment: Moment, clock: Clock)
    requires c.routeId in t.rows
    requires ContentOf(message) in l.seen || Classify(message.text) in {Empty, NonAscii, Unrecognized}
    ensures Process(l, t, c, message, moment, clock) ==
            (l, Logged(t, c.routeId, if ContentOf(message) in l.seen then ListenerDedup else SkippedText(Classify(message.text)),
                       PublishSkipped), Pass)
  {
    hide Classify, Strip, NormalizeLineEndings;
  }

  /** A new seed is logged first and then given to the handler, whose raise leaves the method. */
  lemma SeedTrace(l: Listener, t: Tables, c: Context, message: InboundMessage, moment: Moment, clock: Clock)
    requires c.routeId in t.rows && ContentOf(message) !in l.seen && Classify(message.text) == SeedMessage
    ensures var (h, outcome) := Handle(l.handler, c.setup, message, moment);
            Process(l, t, c, message, moment, clock) ==
            (SeenToo(l, message).(handler := h), Logged(t, c.routeId, SeedSeen, SeedDetected),
             if outcome.Fail? then Fail(HandlerRaised(outcome.error)) else Pass)
  {
    hide Classify, Strip, NormalizeLineEndings, Handle;
  }

  /** Why details are not let through to the handler: the first check that fails on the row as it is once due arms have expired. */
  function RefusalOf(rows: Arms.Rows, id: int, clock: Clock): Option<Arms.BlockReason> {
    var current := Arms.ExpireArms(rows, clock.asked);
    if id in current then Arms.FirstFailing(Arms.PermissionGuards(current[id], true, false, clock.permitted)) else None
  }

  lemma RefusalIs(t: Tables, id: int, clock: Clock)
    ensures AskPermission(t, id, clock).1 == RefusalOf(t.rows, id, clock)
  {
    hide Arms.EvaluateRealPublishPermission, Arms.FirstFailing, Arms.PermissionGuards, Arms.Due, Arms.ExpiredRow;
    var current := Arms.ExpireArms(t.rows, clock.asked);
    if id in current {
      Arms.PermissionIsFirst(current[id], true, false, clock.permitted);
    }
  }

  /** New details of a real listener that a check refuses are logged twice and do not reach the handler. */
  lemma RefusedDetailsTrace(l: Listener, t: Tables, c: Context, message: InboundMessage, moment: Moment, clock: Clock)
    requires c.routeId in t.rows && ContentOf(message) !in l.seen && Classify(message.text) == DetailsMessage
    requires !c.setup.dryRun && RefusalOf(t.rows, c.routeId, clock).Some?
    ensures var reason := RefusalOf(t.rows, c.routeId, clock).value;
            var asked := Arms.ExpireArms(t.rows, clock.asked);
            var rows := if reason == Arms.CandidateTestExpired then Arms.ExpireArms(asked, clock.refused) else asked;
            Process(l, t, c, message, moment, clock) ==
            (SeenToo(l, message),
             Logged(Logged(t, c.routeId, DetailsSeen, DetailsDetected), c.routeId, PublishBlocked(reason), PublishSkipped).(rows := rows),
             Pass)
  {
    hide Classify, Strip, NormalizeLineEndings, AskPermission, RefusalOf, Arms.ExpireArms;
    var t1 := Logged(t, c.routeId, DetailsSeen, DetailsDetected);
    RefusalIs(t1, c.routeId, clock);
    SameRefusal(t1, t.rows, c.routeId, clock);
    AskedRows(t1, c.routeId, clock);
    AskKeepsEvents(t1, c.routeId, clock);
  }

  lemma SameRefusal(t: Tables, rows: Arms.Rows, id: int, clock: Clock)
    requires t.rows == rows
    ensures RefusalOf(t.rows, id, clock) == RefusalOf(rows, id, clock)
  {
  }

  /** The rows once a publish is recorded: a row still armed after due arms have expired has its arm consumed. */
  function SettledRows(rows: Arms.Rows, id: int, now: nat): Arms.Rows {
    var current := Arms.ExpireArms(rows, now);
    if id in current && current[id].mode == Arms.Armed
    then current[id := current[id].(publishCount := current[id].publishCount + 1, blockReason := None,
                                    mode := if current[id].publishCount >= 0 then Arms.Consumed else Arms.Armed)]
    else current
  }

  /**
   New details that are let through: the handler's raise is logged as a failure, one more fingerprint on
   record as a publish, which spends the arm of a real listener, and anything else as nothing published.
   */
  lemma HandledDetailsTrace(l: Listener, t: Tables, c: Context, message: InboundMessage, moment: Moment, clock: Clock)
    requires c.routeId in t.rows && ContentOf(message) !in l.seen && Classify(message.text) == DetailsMessage
    requires c.setup.dryRun || RefusalOf(t.rows, c.routeId, clock).None?
    ensures var (h, outcome) := Handle(l.handler, c.setup, message, moment);
            var rows := if c.setup.dryRun then t.rows else Arms.ExpireArms(t.rows, clock.asked);
            var seen := Logged(t, c.routeId, DetailsSeen, DetailsDetected);
            var grown := |h.matcher.publisher.fingerprints| > |l.handler.matcher.publisher.fingerprints|;
            Process(l, t, c, message, moment, clock) ==
            (SeenToo(l, message).(handler := h),
             if outcome.Fail? then Logged(seen, c.routeId, FailedToPublish, PublishFailed).(rows := rows)
             else if !grown then Logged(seen, c.routeId, NothingPublished, PublishSkipped).(rows := rows)
             else Logged(seen, c.routeId, ReadyPublished, PublishReady)
                    .(rows := if c.setup.dryRun then rows else SettledRows(rows, c.routeId, clock.settled)),
             Pass)
  {
    hide Classify, Strip, NormalizeLineEndings, Handle, AskPermission, RefusalOf, Arms.ExpireArms, SettleArm, SettledRows;
    var t1 := Logged(t, c.routeId, DetailsSeen, DetailsDetected);
    RefusalIs(t1, c.routeId, clock);
    SameRefusal(t1, t.rows, c.routeId, clock);
    AskedRows(t1, c.routeId, clock);
    AskKeepsEvents(t1, c.routeId, clock);
    var rows := if c.setup.dryRun then t.rows else Arms.ExpireArms(t.rows, clock.asked);
    SettleKeepsKeys(rows, c.routeId, clock.settled);
    SettledIs(rows, c.routeId, clock.settled);
  }

  lemma SettledIs(rows: Arms.Rows, id: int, now: nat)
    ensures SettleArm(rows, id, now) == SettledRows(rows, id, now)
  {
    hide Arms.ExpireArms;
  }

  // ---------- starting and stopping ----------

  /** The checks of a start in their order. */
  function StartGuards(w: World, id: int, connected: bool, wiring: Wiring): seq<Arms.Guard<StartError>> {
    if id !in w.tables.rows then [Arms.Guard(false, NotFound)]
    else
      var row := w.tables.rows[id];
      [Arms.Guard(connected, NotConnected),
       Arms.Guard(row.mode == Arms.ObserverOnly || row.mode == Arms.Armed, InvalidMode),
       Arms.Guard(wiring.isTracking, TrackingOff),
       Arms.Guard(row.isEnabled, RouteDisabled),
       Arms.Guard(row.target.isEnabled, TargetDisabled),
       Arms.Guard(wiring.observerOnly, NotObserver),
       Arms.Guard(wiring.root in w.directories, RootInvalid)]
  }

  /** What stands against a start: the first check that fails, the target's root last. */
  lemma StartErrorIsFirst(w: World, id: int, connected: bool, wiring: Wiring)
    ensures Arms.FirstFailing(StartGuards(w, id, connected, wiring)) ==
            if ValidateStart(w.tables.rows, id, connected, wiring).Some? then ValidateStart(w.tables.rows, id, connected, wiring)
            else if wiring.root !in w.directories then Some(RootInvalid) else None
  {
    hide Arms.FirstFailing;
    var error := ValidateStart(w.tables.rows, id, connected, wiring);
    Arms.FirstIsAt(StartGuards(w, id, connected, wiring),
                   match error
                   case Some(NotFound) => 0
                   case Some(NotConnected) => 0
                   case Some(InvalidMode) => 1
                   case Some(TrackingOff) => 2
                   case Some(RouteDisabled) => 3
                   case Some(TargetDisabled) => 4
                   case Some(NotObserver) => 5
                   case _ => if wiring.root !in w.directories then 6 else 7);
  }

  /** A route just started: an empty handler on the root's directory, the last in the order of starts. */
  function JustStarted(w: World, config: Config, id: int, wiring: Wiring): World {
    var setup := Setup(wiring.names, config.pairTimeoutSeconds, config.dryRun);
    var empty := Listener({}, HandlerState({}, {}, MatcherState(None, PublisherState(map[], {}), [])));
    World(Logged(w.tables, id, ListenerStart, WaitingForSignal),
          w.active[id := Running(Context(id, wiring.channelKey, wiring.root, setup), empty)],
          w.order + [id], w.directories)
  }

  /**
   A start: a running route is left as it is; the first failing check refuses and changes nothing; else
   the route runs and waits, unless the Telegram client cannot be started, which undoes all but the
   event and the status, now stopped.
   */
  lemma StartOutcome(w: World, config: Config, id: int, connected: bool, wiring: Wiring, hookFails: bool)
    ensures Start(w, config, id, connected, wiring, hookFails) ==
            var error := Arms.FirstFailing(StartGuards(w, id, connected, wiring));
            if id in w.active then (w, Started(true))
            else if error.Some? then (w, Refused(error.value))
            else if config.telethonEnabled && hookFails then
              (w.(tables := Logged(w.tables, id, ListenerStart, WaitingForSignal).(statuses := w.tables.statuses[id := Stopped])),
               Refused(HookFailed))
            else (JustStarted(w, config, id, wiring), Started(false))
  {
    hide Arms.FirstFailing, StartGuards, ValidateStart;
    StartErrorIsFirst(w, id, connected, wiring);
    ValidatedHasRow(w.tables.rows, id, connected, wiring);
    assert w.tables.statuses[id := WaitingForSignal][id := Stopped] == w.tables.statuses[id := Stopped];
  }

  /** A stop: the route no longer runs; its status and an event are written, and that raises exactly without a row. */
  lemma StopOutcome(w: World, id: int)
    ensures Stop(w, id) ==
            var gone := w.(active := w.active - {id}, order := Without(w.order, id));
            if id !in w.active && id in w.tables.statuses && w.tables.statuses[id] == Stopped then (w, Success(AlreadyStopped))
            else if id in w.tables.rows then (gone.(tables := Logged(w.tables, id, ListenerStop, Stopped)), Success(StoppedNow))
            else (gone, Failure(IntegrityError))
    ensures forall other :: other in Stop(w, id).0.active <==> other in w.active && (other != id)
  {
    hide Without;
  }

  /** A route that is deleted takes its status and its events along; the other events stay in their order. */
  lemma {:induction false} DeletionTakesAll(t: Tables, id: int)
    requires id in t.rows
    ensures var t' := Deleted(t, id);
            && t'.rows == t.rows - {id} && t'.statuses == t.statuses - {id}
            && (forall e :: e in t'.events <==> e in t.events && e.routeId != id)
            && (t.events != [] ==>
                  var front, last := t.events[..|t.events| - 1], t.events[|t.events| - 1];
                  t'.events == Deleted(t.(events := front), id).events + if last.routeId == id then [] else [last])
    decreases |t.events|
  {
    if t.events != [] {
      var front, last := t.events[..|t.events| - 1], t.events[|t.events| - 1];
      DeletionTakesAll(t.(events := front), id);
      assert t.events == front + [last];
    }
  }

  // ---------- who gets a message ----------

  /** The routes of a channel, in the order of their starts. */
  lemma {:induction false} ChannelInOrder(active: map<int, Running>, order: seq<int>, id: int, channelKey: string)
    ensures OnChannel(active, order + [id], channelKey) == OnChannel(active, order, channelKey)
            + if id in active && active[id].context.channelKey == channelKey then [id] else []
    ensures OnChannel(active, [], channelKey) == []
  {
    if order == [] {
      assert [] + [id] == [id];
    } else {
      assert (order + [id])[1..] == order[1..] + [id];
      ChannelInOrder(active, order[1..], id, channelKey);
    }
  }
}
