/**
 The route listeners of one process: RouteListenerManager in
 integrations/telegram/route_listener_service.py, on the listener tables of dashboard_store.py.
 */
module RouteListener {
  import opened Wrappers
  import opened Sequences
  import opened MessageText
  import opened AtomicPublish
  import opened Pairing
  import Arms = CandidateTest

  datatype Status = Stopped | WaitingForSignal | SeedDetected | DetailsDetected | PublishReady | PublishFailed | PublishSkipped

  datatype EventType =
    | ListenerStart
    | ListenerStop
    | SeedSeen
    | DetailsSeen
    | ListenerDedup
    | PublishBlocked(reason: Arms.BlockReason)
    | ReadyPublished
    | FailedToPublish
    | NothingPublished
    | SkippedText(classification: Classification)

  datatype Event = Event(routeId: int, eventType: EventType, status: Status)

  /** A store error on a route whose row is gone (its foreign key), or what the handler raised. */
  datatype ListenerError = IntegrityError | HandlerRaised(error: PublishError)

  // ---------- the tables ----------

  /** Tables `routes`, `route_listener_state` and `route_events`. */
  datatype Tables = Tables(rows: Arms.Rows, statuses: map<int, Status>, events: seq<Event>)

  /** An upsert of the listener state followed by an event; both need the route's row. */
  function Write(t: Tables, id: int, status: Status, eventType: EventType): (Tables, Outcome<ListenerError>) {
    if id in t.rows then
      (t.(statuses := t.statuses[id := status], events := t.events + [Event(id, eventType, status)]), Pass)
    else (t, Fail(IntegrityError))
  }

  class ListenerDatabase {
    const arming: Arms.DashboardDatabase
    var statuses: map<int, Status>
    var events: seq<Event>

    constructor (arming: Arms.DashboardDatabase)
      ensures this.arming == arming && State() == Tables(arming.routes, map[], [])
    {
      this.arming, statuses, events := arming, map[], [];
    }

    ghost function State(): Tables
      reads this, arming
    {
      Tables(arming.routes, statuses, events)
    }

    method UpsertRouteListenerState(routeId: int, status: Status) returns (r: Outcome<ListenerError>)
      modifies `statuses
      ensures r == if routeId in arming.routes then Pass else Fail(IntegrityError)
      ensures statuses == if r.Pass? then old(statuses)[routeId := status] else old(statuses)
    {
      if routeId !in arming.routes {
        return Fail(IntegrityError);
      }
      statuses := statuses[routeId := status];
      r := Pass;
    }

    method AddRouteEvent(routeId: int, eventType: EventType, status: Status) returns (r: Outcome<ListenerError>)
      modifies `events
      ensures r == if routeId in arming.routes then Pass else Fail(IntegrityError)
      ensures events == if r.Pass? then old(events) + [Event(routeId, eventType, status)] else old(events)
    {
      if routeId !in arming.routes {
        return Fail(IntegrityError);
      }
      events := events + [Event(routeId, eventType, status)];
      r := Pass;
    }

    method RecordEvent(routeId: int, status: Status, eventType: EventType) returns (r: Outcome<ListenerError>)
      modifies `statuses, `events
      ensures (State(), r) == Write(old(State()), routeId, status, eventType)
    {
      r := UpsertRouteListenerState(routeId, status);
      if r.Fail? {
        return;
      }
      r := AddRouteEvent(routeId, eventType, status);
    }

    /** UPDATE of every row that is not stopped. */
    method StopEveryListener()
      modifies `statuses
      ensures statuses == AllStopped(old(statuses))
    {
      statuses := map id | id in statuses :: if statuses[id] != Stopped then Stopped else statuses[id];
    }

    /** The listener's rows go with the route (ON DELETE CASCADE). */
    method DeleteRoute(routeId: int) returns (found: bool)
      modifies this, arming
      ensures found == (routeId in old(arming.routes))
      ensures State() == Deleted(old(State()), routeId)
    {
      found := routeId in arming.routes;
      if found {
        arming.routes := arming.routes - {routeId};
        statuses := statuses - {routeId};
        events := EventsOfOthers(events, routeId);
      }
    }
  }

  function AllStopped(statuses: map<int, Status>): map<int, Status> {
    map id | id in statuses :: Stopped
  }

  function EventsOfOthers(events: seq<Event>, id: int): seq<Event> {
    if events == [] then []
    else EventsOfOthers(events[..|events| - 1], id) + if events[|events| - 1].routeId == id then [] else [events[|events| - 1]]
  }

  function Deleted(t: Tables, id: int): Tables {
    if id in t.rows then Tables(t.rows - {id}, t.statuses - {id}, EventsOfOthers(t.events, id)) else t
  }

  // ---------- one message on one route ----------

  datatype Context = Context(routeId: int, channelKey: string, root: string, setup: Setup)

  /** What a running route keeps between messages. */
  datatype Listener = Listener(seen: set<Digest>, handler: HandlerState)

  /** Readings of the clock by the store and the guards, in microseconds. */
  datatype Clock = Clock(asked: nat, permitted: nat, refused: nat, settled: nat)

  /** The question whether the route may publish for real, which first expires what is due. */
  function AskPermission(t: Tables, id: int, clock: Clock): (Tables, Option<Arms.BlockReason>) {
    var current := Arms.ExpireArms(t.rows, clock.asked);
    if id !in current then (t.(rows := current), None)
    else
      var refusal := Arms.EvaluateRealPublishPermission(current[id], true, false, clock.permitted);
      (t.(rows := if refusal == Some(Arms.CandidateTestExpired) then Arms.ExpireArms(current, clock.refused) else current), refusal)
  }

  /** After a real publish the arm is consumed, if the route is still armed. */
  function SettleArm(rows: Arms.Rows, id: int, now: nat): Arms.Rows {
    var current := Arms.ExpireArms(rows, now);
    if id in current && current[id].mode == Arms.Armed then current[id := Arms.ConsumedRow(current[id])] else current
  }

  function FingerprintsOf(l: Listener): set<Digest> { l.handler.matcher.publisher.fingerprints }

  function RecordSuccess(t: Tables, id: int, dryRun: bool, clock: Clock): (Tables, Outcome<ListenerError>) {
    Write(if dryRun then t else t.(rows := SettleArm(t.rows, id, clock.settled)), id, PublishReady, ReadyPublished)
  }

  /** The handler is given details: the number of fingerprints tells whether a pair was published. */
  function HandleDetails(l: Listener, t: Tables, c: Context, message: InboundMessage, moment: Moment, clock: Clock)
    : (Listener, Tables, Outcome<ListenerError>)
  {
    var (h, outcome) := Handle(l.handler, c.setup, message, moment);
    var l' := l.(handler := h);
    var (t', written) :=
      if outcome.Fail? then Write(t, c.routeId, PublishFailed, FailedToPublish)
      else if |FingerprintsOf(l')| > |FingerprintsOf(l)| then RecordSuccess(t, c.routeId, c.setup.dryRun, clock)
      else Write(t, c.routeId, PublishSkipped, NothingPublished);
    (l', t', written)
  }

  function ProcessDetails(l: Listener, t: Tables, c: Context, message: InboundMessage, moment: Moment, clock: Clock)
    : (Listener, Tables, Outcome<ListenerError>)
  {
    var (t1, written) := Write(t, c.routeId, DetailsDetected, DetailsSeen);
    if written.Fail? then (l, t1, written)
    else
      var (t2, refusal) := if c.setup.dryRun then (t1, None) else AskPermission(t1, c.routeId, clock);
      if refusal.Some? then
        var (t3, refused) := Write(t2, c.routeId, PublishSkipped, PublishBlocked(refusal.value));
        (l, t3, refused)
      else HandleDetails(l, t2, c, message, moment, clock)
  }

  /** What the handler raises on a seed leaves the method; what it raises on details is recorded. */
  function ProcessSeed(l: Listener, t: Tables, c: Context, message: InboundMessage, moment: Moment)
    : (Listener, Tables, Outcome<ListenerError>)
  {
    var (t', written) := Write(t, c.routeId, SeedDetected, SeedSeen);
    if written.Fail? then (l, t', written)
    else
      var (h, outcome) := Handle(l.handler, c.setup, message, moment);
      (l.(handler := h), t', if outcome.Fail? then Fail(HandlerRaised(outcome.error)) else Pass)
  }

  function Process(l: Listener, t: Tables, c: Context, message: InboundMessage, moment: Moment, clock: Clock)
    : (Listener, Tables, Outcome<ListenerError>)
  {
    var contentHash := RawMessageHash(message.text);
    if contentHash in l.seen then
      var (t', written) := Write(t, c.routeId, PublishSkipped, ListenerDedup);
      (l, t', written)
    else
      match Classify(message.text)
      case SeedMessage => ProcessSeed(l.(seen := l.seen + {contentHash}), t, c, message, moment)
      case DetailsMessage => ProcessDetails(l.(seen := l.seen + {contentHash}), t, c, message, moment, clock)
      case other =>
        var (t', written) := Write(t, c.routeId, PublishSkipped, SkippedText(other));
        (l, t', written)
  }

  class RouteRuntime {
    const context: Context
    const handler: TelegramMessageHandler
    var seenRawHashes: set<Digest>

    constructor (context: Context, handler: TelegramMessageHandler)
      ensures this.context == context && this.handler == handler && seenRawHashes == {}
    {
      this.context, this.handler, seenRawHashes := context, handler, {};
    }

    ghost predicate Valid()
      reads handler.matcher
    {
      handler.matcher.Valid() && handler.matcher.setup == context.setup
    }

    ghost function State(): Listener
      reads this, handler, handler.matcher, handler.matcher.publisher, handler.matcher.root
    {
      Listener(seenRawHashes, handler.State())
    }

    /** The state but for the files, which are the root's. */
    ghost function Parked(): Listener
      reads this, handler, handler.matcher, handler.matcher.publisher
    {
      var matcher := MatcherState(handler.matcher.Pending(),
                                  PublisherState(map[], handler.matcher.publisher.publishedFingerprints), handler.matcher.journal);
      Listener(seenRawHashes, HandlerState(handler.seenMessageKeys, handler.seenRawHashes, matcher))
    }

    lemma ParkedState()
      ensures State() == Attach(Parked(), handler.matcher.root.entries) && Parked() == Park(State())
    {
    }
  }

  method IsPermitted(database: ListenerDatabase, routeId: int, clock: Clock) returns (refusal: Option<Arms.BlockReason>)
    modifies database.arming
    ensures (database.State(), refusal) == AskPermission(old(database.State()), routeId, clock)
  {
    hide Arms.ExpireArms, Arms.EvaluateRealPublishPermission;
    var detail := database.arming.GetRouteDetail(routeId, clock.asked);
    if detail.None? {
      return None;
    }
    refusal := Arms.EvaluateRealPublishPermission(detail.value, true, false, clock.permitted);
    if refusal == Some(Arms.CandidateTestExpired) {
      var _ := database.arming.ExpireCandidateTestArms(clock.refused);
    }
  }

  method RecordPublishSuccess(database: ListenerDatabase, routeId: int, dryRun: bool, clock: Clock)
      returns (r: Outcome<ListenerError>)
    modifies database, database.arming
    ensures (database.State(), r) == RecordSuccess(old(database.State()), routeId, dryRun, clock)
  {
    hide Arms.ExpireArms, Arms.ConsumedRow;
    if !dryRun {
      var detail := database.arming.GetRouteDetail(routeId, clock.settled);
      if detail.Some? && detail.value.mode == Arms.Armed {
        var _ := database.arming.ConsumeCandidateTestPublish(routeId);
      }
    }
    r := database.RecordEvent(routeId, PublishReady, ReadyPublished);
  }

  method ProcessMessage(database: ListenerDatabase, runtime: RouteRuntime, message: InboundMessage, moment: Moment, clock: Clock)
      returns (r: Outcome<ListenerError>)
    requires runtime.Valid() && FreshUuids(runtime.context.setup, moment, runtime.handler.matcher.root.entries)
    modifies runtime, runtime.handler, runtime.handler.matcher, runtime.handler.matcher.publisher
    modifies runtime.handler.matcher.root, database, database.arming
    ensures runtime.Valid()
    ensures (runtime.State(), database.State(), r)
            == Process(old(runtime.State()), old(database.State()), runtime.context, message, moment, clock)
  {
    hide Handle, RawMessageHash, Classify, AskPermission, RecordSuccess, Arms.ExpireArms;
    var c, handler := runtime.context, runtime.handler;
    var contentHash := RawMessageHash(message.text);
    if contentHash in runtime.seenRawHashes {
      r := database.RecordEvent(c.routeId, PublishSkipped, ListenerDedup);
      return;
    }
    var classification := Classify(message.text);
    if classification == SeedMessage {
      runtime.seenRawHashes := runtime.seenRawHashes + {contentHash};
      :- database.RecordEvent(c.routeId, SeedDetected, SeedSeen);
      var outcome := handler.HandleMessage(message, moment);
      return if outcome.Fail? then Fail(HandlerRaised(outcome.error)) else Pass;
    }
    if classification == DetailsMessage {
      runtime.seenRawHashes := runtime.seenRawHashes + {contentHash};
      :- database.RecordEvent(c.routeId, DetailsDetected, DetailsSeen);
      if !c.setup.dryRun {
        var refusal := IsPermitted(database, c.routeId, clock);
        if refusal.Some? {
          r := database.RecordEvent(c.routeId, PublishSkipped, PublishBlocked(refusal.value));
          return;
        }
      }
      var beforeCount := |handler.matcher.publisher.publishedFingerprints|;
      var outcome := handler.HandleMessage(message, moment);
      if outcome.Fail? {
        r := database.RecordEvent(c.routeId, PublishFailed, FailedToPublish);
        return;
      }
      var afterCount := |handler.matcher.publisher.publishedFingerprints|;
      if afterCount > beforeCount {
        r := RecordPublishSuccess(database, c.routeId, c.setup.dryRun, clock);
      } else {
        r := database.RecordEvent(c.routeId, PublishSkipped, NothingPublished);
      }
      return;
    }
    r := database.RecordEvent(c.routeId, PublishSkipped, SkippedText(classification));
  }

  // ---------- the registry of running routes ----------

  /** What the joined channel and target rows add to a route's own row. */
  datatype Wiring = Wiring(channelKey: string, isTracking: bool, observerOnly: bool, root: string, names: Names)

  datatype Config = Config(dryRun: bool, telethonEnabled: bool, pairTimeoutSeconds: int)

  datatype StartError =
    | NotFound
    | NotConnected
    | InvalidMode
    | TrackingOff
    | RouteDisabled
    | TargetDisabled
    | NotObserver
    | RootInvalid
    | HookFailed

  datatype Response = Started(alreadyRunning: bool) | Refused(error: StartError) | StoppedNow | AlreadyStopped

  /** A running route; its handler's directory is parked, for the files belong to the root. */
  datatype Running = Running(context: Context, listener: Listener)

  /** `order` is the order in which the running routes were started. */
  datatype World = World(tables: Tables, active: map<int, Running>, order: seq<int>, directories: map<string, Directory>)

  datatype Surroundings = Surroundings(moment: Moment, clock: Clock)

  function Attach(l: Listener, d: Directory): Listener {
    l.(handler := l.handler.(matcher := l.handler.matcher.(publisher := l.handler.matcher.publisher.(directory := d))))
  }

  function Park(l: Listener): Listener { Attach(l, map[]) }

  function DirectoryAt(directories: map<string, Directory>, root: string): Directory {
    if root in directories then directories[root] else map[]
  }

  function OnChannel(active: map<int, Running>, order: seq<int>, channelKey: string): (r: seq<int>)
    ensures forall i :: i in r <==> i in order && i in active && active[i].context.channelKey == channelKey
  {
    if order == [] then []
    else (if order[0] in active && active[order[0]].context.channelKey == channelKey then [order[0]] else [])
         + OnChannel(active, order[1..], channelKey)
  }

  lemma OnChannelNone(active: map<int, Running>, channelKey: string)
    ensures OnChannel(active, [], channelKey) == []
  {
  }

  lemma OnChannelStep(active: map<int, Running>, order: seq<int>, k: nat, channelKey: string)
    requires k < |order|
    ensures OnChannel(active, order[k..], channelKey) ==
            (if order[k] in active && active[order[k]].context.channelKey == channelKey then [order[k]] else [])
            + OnChannel(active, order[k + 1..], channelKey)
  {
    assert order[k..][1..] == order[k + 1..];
  }

  /** One running route handles a message. */
  function ProcessOn(w: World, id: int, message: InboundMessage, s: Surroundings): (World, Outcome<ListenerError>) {
    if id !in w.active then (w, Pass)
    else
      var route := w.active[id];
      var root := route.context.root;
      var (l, t, r) := Process(Attach(route.listener, DirectoryAt(w.directories, root)), w.tables, route.context, message,
                               s.moment, s.clock);
      (w.(tables := t, active := w.active[id := route.(listener := Park(l))],
          directories := w.directories[root := l.handler.matcher.publisher.directory]), r)
  }

  /** The routes of a channel handle a message one after the other, until one raises. */
  function Deliver(w: World, ids: seq<int>, message: InboundMessage, around: int -> Surroundings)
    : (World, Outcome<ListenerError>)
    decreases |ids|
  {
    if ids == [] then (w, Pass)
    else
      var (w', r) := ProcessOn(w, ids[0], message, around(ids[0]));
      if r.Fail? then (w', r) else Deliver(w', ids[1..], message, around)
  }

  ghost predicate FreshOn(w: World, id: int, s: Surroundings) {
    id in w.active ==>
      FreshUuids(w.active[id].context.setup, s.moment, DirectoryAt(w.directories, w.active[id].context.root))
  }

  ghost predicate FreshDuring(w: World, ids: seq<int>, message: InboundMessage, around: int -> Surroundings)
    decreases |ids|
  {
    ids == [] ||
    (FreshOn(w, ids[0], around(ids[0]))
     && FreshDuring(ProcessOn(w, ids[0], message, around(ids[0])).0, ids[1..], message, around))
  }

  lemma DeliverNone(w: World, message: InboundMessage, around: int -> Surroundings)
    ensures Deliver(w, [], message, around) == (w, Pass)
  {
  }

  lemma DeliverStep(w: World, ids: seq<int>, k: nat, message: InboundMessage, around: int -> Surroundings)
    requires k < |ids|
    ensures var (w', r) := ProcessOn(w, ids[k], message, around(ids[k]));
            && Deliver(w, ids[k..], message, around) == (if r.Fail? then (w', r) else Deliver(w', ids[k + 1..], message, around))
            && (FreshDuring(w, ids[k..], message, around) <==>
                  FreshOn(w, ids[k], around(ids[k])) && FreshDuring(w', ids[k + 1..], message, around))
  {
    hide ProcessOn, FreshOn;
    assert ids[k..][1..] == ids[k + 1..];
  }

  /** None when the route may be listened to, else the first reason it may not. */
  function ValidateStart(rows: Arms.Rows, id: int, connected: bool, wiring: Wiring): Option<StartError> {
    if id !in rows then Some(NotFound)
    else if !connected then Some(NotConnected)
    else if !Arms.RouteSupportsListenerStart(rows[id].mode) then Some(InvalidMode)
    else if !wiring.isTracking then Some(TrackingOff)
    else if !rows[id].isEnabled then Some(RouteDisabled)
    else if !rows[id].target.isEnabled then Some(TargetDisabled)
    else if !wiring.observerOnly then Some(NotObserver)
    else None
  }

  lemma ValidatedHasRow(rows: Arms.Rows, id: int, connected: bool, wiring: Wiring)
    ensures ValidateStart(rows, id, connected, wiring).None? ==> id in rows
  {
  }

  lemma ForgottenRoute(active: map<int, Running>, order: seq<int>, id: int, running: Running)
    requires id !in active && id !in order && Distinct(order)
    ensures active[id := running] - {id} == active && Without(order + [id], id) == order
  {
    WithoutKeeps(order, id);
  }

  function ContextOf(id: int, wiring: Wiring, config: Config): Context {
    Context(id, wiring.channelKey, wiring.root, Setup(wiring.names, config.pairTimeoutSeconds, config.dryRun))
  }

  /** A fresh runtime joins the registry and is recorded as waiting for a signal. */
  function Registered(w: World, c: Context): World {
    w.(active := w.active[c.routeId := Running(c, Listener({}, Initial(map[])))],
       order := w.order + [c.routeId],
       tables := Write(w.tables, c.routeId, WaitingForSignal, ListenerStart).0)
  }

  function Start(w: World, config: Config, id: int, connected: bool, wiring: Wiring, hookFails: bool): (World, Response) {
    if id in w.active then (w, Started(true))
    else
      var error := ValidateStart(w.tables.rows, id, connected, wiring);
      if error.Some? then (w, Refused(error.value))
      else if wiring.root !in w.directories then (w, Refused(RootInvalid))
      else
        var running := Registered(w, ContextOf(id, wiring, config));
        if config.telethonEnabled && hookFails then
          (running.(active := w.active, order := w.order,
                    tables := running.tables.(statuses := running.tables.statuses[id := Stopped])), Refused(HookFailed))
        else (running, Started(false))
  }

  function Stop(w: World, id: int): (World, Result<Response, ListenerError>) {
    var removed := w.(active := w.active - {id}, order := Without(w.order, id));
    if id !in w.active && id in w.tables.statuses && w.tables.statuses[id] == Stopped then (w, Success(AlreadyStopped))
    else
      var (t, written) := Write(w.tables, id, Stopped, ListenerStop);
      (removed.(tables := t), if written.Fail? then Failure(written.error) else Success(StoppedNow))
  }

  class RouteListenerManager {
    const database: ListenerDatabase
    const roots: map<string, FileCommonRoot>
    const config: Config
    var active: map<int, RouteRuntime>
    var order: seq<int>

    constructor (database: ListenerDatabase, roots: map<string, FileCommonRoot>, config: Config)
      requires forall p, q | p in roots && q in roots && p != q :: roots[p] != roots[q]
      modifies database`statuses
      ensures Valid() && this.database == database && this.config == config && this.roots == roots
      ensures State() == World(old(database.State()).(statuses := AllStopped(old(database.statuses))), map[], [],
                                             map p | p in roots :: roots[p].entries)
    {
      this.database, this.roots, this.config := database, roots, config;
      active, order := map[], [];
      new;
      database.StopEveryListener();
    }

    ghost function Runtimes(): set<RouteRuntime>
      reads this
    {
      set i | i in active :: active[i]
    }

    ghost function Handlers(): set<TelegramMessageHandler>
      reads this
    {
      set i | i in active :: active[i].handler
    }

    ghost function Matchers(): set<TelegramPairMatcher>
      reads this
    {
      set i | i in active :: active[i].handler.matcher
    }

    ghost function Publishers(): set<AtomicPublisher>
      reads this
    {
      set i | i in active :: active[i].handler.matcher.publisher
    }

    ghost function Roots(): set<FileCommonRoot> {
      set p | p in roots :: roots[p]
    }

    /** Each running route has its own handler, matcher and publisher, on the directory of its root. */
    ghost predicate Wired(running: map<int, RouteRuntime>) {
      && (forall p, q | p in roots && q in roots && p != q :: roots[p] != roots[q])
      && (forall i | i in running :: WiredTo(running[i], i))
      && (forall i, j | i in running && j in running && i != j :: Apart(running[i], running[j]))
    }

    ghost predicate WiredTo(runtime: RouteRuntime, id: int) {
      && runtime.context.routeId == id
      && runtime.context.root in roots && runtime.handler.matcher.root == roots[runtime.context.root]
      && runtime.handler.matcher.setup == runtime.context.setup
      && runtime.context.setup.dryRun == config.dryRun
    }

    static ghost predicate Apart(a: RouteRuntime, b: RouteRuntime) {
      a != b && a.handler != b.handler && a.handler.matcher != b.handler.matcher
      && a.handler.matcher.publisher != b.handler.matcher.publisher
    }

    /** The keys of the registry, each once, in the order of their starts. */
    static ghost predicate Ordered(order: seq<int>, running: map<int, RouteRuntime>) {
      (forall i :: i in order <==> i in running) && Distinct(order)
    }

    ghost predicate Indexed()
      reads this, Matchers()
    {
      forall i | i in active :: active[i].Valid()
    }

    ghost predicate Valid()
      reads this, Matchers()
    {
      Wired(active) && Ordered(order, active) && Indexed()
    }

    ghost function Directories(): map<string, Directory>
      reads this, Roots()
    {
      map p | p in roots :: roots[p].entries
    }

    ghost function RunningRoutes(): map<int, Running>
      reads this, Runtimes(), Handlers(), Matchers(), Publishers()
    {
      map i | i in active :: Running(active[i].context, active[i].Parked())
    }

    ghost function State(): World
      reads this, Runtimes(), Handlers(), Matchers(), Publishers(), Roots(), database, database.arming
    {
      World(database.State(), RunningRoutes(), order, Directories())
    }

    lemma WiredAt(id: int)
      requires Wired(active) && id in active
      ensures WiredTo(active[id], id)
      ensures forall j | j in active && j != id :: Apart(active[id], active[j])
      ensures forall p | p in roots && p != active[id].context.root :: roots[p] != active[id].handler.matcher.root
    {
    }

    lemma AtRoute(id: int)
      requires Wired(active) && id in active
      ensures var c := active[id].context;
              && id in RunningRoutes() && RunningRoutes()[id] == Running(c, active[id].Parked())
              && DirectoryAt(Directories(), c.root) == active[id].handler.matcher.root.entries
    {
      assert WiredTo(active[id], id);
    }

    twostate lemma OneDirectoryChanged(root: string)
      requires root in roots && forall p | p in roots && p != root :: roots[p].entries == old(roots[p].entries)
      ensures Directories() == old(Directories())[root := roots[root].entries]
    {
    }

    twostate lemma NoDirectoryChanged()
      requires forall p | p in roots :: roots[p].entries == old(roots[p].entries)
      ensures Directories() == old(Directories())
    {
    }

    /** A change of the database alone. */
    twostate lemma RoutesKept()
      requires active == old(active) && order == old(order)
      requires forall j | j in active :: active[j].Parked() == old(active[j].Parked())
      requires forall p | p in roots :: roots[p].entries == old(roots[p].entries)
      ensures State() == old(State()).(tables := database.State())
    {
      hide Directories;
      NoDirectoryChanged();
      forall j | j in active ensures RunningRoutes()[j] == old(RunningRoutes())[j] {
        assert j in old(RunningRoutes());
      }
      assert RunningRoutes().Keys == old(RunningRoutes()).Keys;
    }

    twostate lemma OneRouteChanged(id: int)
      requires active == old(active) && id in active
      requires forall j | j in active && j != id :: active[j].Parked() == old(active[j].Parked())
      ensures RunningRoutes() == old(RunningRoutes())[id := Running(active[id].context, active[id].Parked())]
    {
    }

    lemma WiredWith(running: map<int, RouteRuntime>, id: int, runtime: RouteRuntime)
      requires Wired(running) && WiredTo(runtime, id) && forall j | j in running :: Apart(runtime, running[j])
      ensures Wired(running[id := runtime])
    {
      hide WiredTo;
    }

    lemma WiredWithout(running: map<int, RouteRuntime>, order: seq<int>, id: int)
      requires Wired(running) && Ordered(order, running)
      ensures Wired(running - {id}) && Ordered(Without(order, id), running - {id})
      ensures id !in running ==> running - {id} == running && Without(order, id) == order
    {
      hide WiredTo, Apart, Distinct;
      WithoutKeeps(order, id);
    }

    twostate lemma RouteAdded(id: int, new runtime: RouteRuntime)
      requires id !in old(active) && active == old(active)[id := runtime]
      requires forall j | j in old(active) :: active[j].Parked() == old(active[j].Parked())
      ensures RunningRoutes() == old(RunningRoutes())[id := Running(runtime.context, runtime.Parked())]
    {
      forall j | j in old(active) ensures RunningRoutes()[j] == old(RunningRoutes())[j] {
        assert j in old(RunningRoutes());
      }
      assert RunningRoutes().Keys == old(RunningRoutes()).Keys + {id};
    }

    twostate lemma RouteRemoved(id: int)
      requires active == old(active) - {id}
      requires forall j | j in active :: active[j].Parked() == old(active[j].Parked())
      ensures RunningRoutes() == old(RunningRoutes()) - {id}
    {
      forall j | j in active ensures RunningRoutes()[j] == old(RunningRoutes())[j] {
        assert j in old(RunningRoutes());
      }
      assert RunningRoutes().Keys == old(RunningRoutes()).Keys - {id};
    }

    method ProcessRoute(id: int, message: InboundMessage, s: Surroundings) returns (r: Outcome<ListenerError>)
      requires Valid() && id in active && FreshOn(State(), id, s)
      modifies Runtimes(), Handlers(), Matchers(), Publishers(), Roots(), database, database.arming
      ensures Valid()
      ensures (State(), r) == ProcessOn(old(State()), id, message, s)
    {
      hide Process, FreshUuids, Attach, Ordered, Wired, Directories, RunningRoutes;
      var runtime := active[id];
      WiredAt(id);
      runtime.ParkedState();
      AtRoute(id);
      r := ProcessMessage(database, runtime, message, s.moment, s.clock);
      runtime.ParkedState();
      forall j | j in active && j != id
        ensures active[j].Parked() == old(active[j].Parked()) && active[j].Valid()
      {
        assert Apart(runtime, active[j]);
      }
      OneRouteChanged(id);
      OneDirectoryChanged(runtime.context.root);
    }

    method RoutesOn(channelKey: string) returns (ids: seq<int>)
      requires Valid()
      ensures ids == OnChannel(RunningRoutes(), order, channelKey) && forall i | i in ids :: i in active
    {
      hide OnChannel, Wired, Indexed, Distinct;
      assert forall i | i in order :: i in active;
      ghost var running := RunningRoutes();
      ids := [];
      for k := 0 to |order|
        invariant running == RunningRoutes()
        invariant ids + OnChannel(running, order[k..], channelKey) == OnChannel(running, order, channelKey)
      {
        OnChannelStep(running, order, k, channelKey);
        assert order[k] in active && running[order[k]].context == active[order[k]].context;
        if active[order[k]].context.channelKey == channelKey {
          ids := ids + [order[k]];
        }
      }
      assert order[|order|..] == [] && ids + [] == ids;
      OnChannelNone(running, channelKey);
    }

    method DeliverInboundMessage(channelKey: string, message: InboundMessage, around: int -> Surroundings)
        returns (r: Outcome<ListenerError>)
      requires Valid() && FreshDuring(State(), OnChannel(State().active, order, channelKey), message, around)
      modifies Runtimes(), Handlers(), Matchers(), Publishers(), Roots(), database, database.arming
      ensures Valid()
      ensures (State(), r) == Deliver(old(State()), OnChannel(old(State().active), order, channelKey), message, around)
    {
      hide ProcessOn, FreshOn, Valid, Deliver, FreshDuring, Directories, RunningRoutes, OnChannel;
      var ids := RoutesOn(channelKey);
      var k := 0;
      assert ids[0..] == ids;
      while k < |ids|
        invariant 0 <= k <= |ids| && Valid()
        invariant Deliver(State(), ids[k..], message, around) == Deliver(old(State()), ids, message, around)
        invariant FreshDuring(State(), ids[k..], message, around)
      {
        DeliverStep(State(), ids, k, message, around);
        assert ids[k] in ids;
        r := ProcessRoute(ids[k], message, around(ids[k]));
        if r.Fail? {
          return;
        }
        k := k + 1;
      }
      assert ids[k..] == [];
      DeliverNone(State(), message, around);
      r := Pass;
    }

    method BuildRuntime(context: Context) returns (runtime: RouteRuntime)
      requires Wired(active) && context.root in roots && context.setup.dryRun == config.dryRun
      ensures fresh(runtime) && fresh(runtime.handler) && fresh(runtime.handler.matcher) && fresh(runtime.handler.matcher.publisher)
      ensures runtime.context == context && WiredTo(runtime, context.routeId) && runtime.Valid()
      ensures runtime.Parked() == Listener({}, Initial(map[]))
    {
      var publisher := new AtomicPublisher();
      var matcher := new TelegramPairMatcher(context.setup, roots[context.root], publisher);
      var handler := new TelegramMessageHandler(matcher);
      runtime := new RouteRuntime(context, handler);
    }

    lemma StateKeys()
      requires Ordered(order, active)
      ensures RunningRoutes().Keys == active.Keys && Directories().Keys == roots.Keys
      ensures Distinct(order) && forall i :: i in order <==> i in active
    {
    }

    method Register(context: Context)
      requires Valid() && context.routeId !in active && context.routeId in database.arming.routes
      requires context.root in roots && context.setup.dryRun == config.dryRun
      modifies this, database
      ensures Valid()
      ensures State() == Registered(old(State()), context)
    {
      hide RunningRoutes, Directories, Valid, Write;
      var runtime := Assemble(context);
      Remember(runtime);
      AnnounceStart(context.routeId);
    }

    /** A runtime that no running route shares anything with. */
    method Assemble(context: Context) returns (runtime: RouteRuntime)
      requires Valid() && context.root in roots && context.setup.dryRun == config.dryRun
      ensures Valid() && State() == old(State()) && WiredTo(runtime, context.routeId) && runtime.Valid()
      ensures forall j | j in active :: Apart(runtime, active[j])
      ensures runtime.context == context && runtime.Parked() == Listener({}, Initial(map[]))
    {
      hide RunningRoutes, Directories, Wired, Ordered, Distinct;
      runtime := BuildRuntime(context);
      RoutesKept();
    }

    method AnnounceStart(id: int)
      requires Valid()
      modifies database
      ensures Valid()
      ensures State() == old(State()).(tables := Write(old(State()).tables, id, WaitingForSignal, ListenerStart).0)
    {
      hide RunningRoutes, Directories, Wired, Ordered, Distinct, Write;
      var _ := database.RecordEvent(id, WaitingForSignal, ListenerStart);
      RoutesKept();
    }

    /** `_active[route_id] = runtime` */
    method Remember(runtime: RouteRuntime)
      requires Valid() && WiredTo(runtime, runtime.context.routeId) && runtime.Valid()
      requires runtime.context.routeId !in active && forall j | j in active :: Apart(runtime, active[j])
      modifies `active, `order
      ensures Valid()
      ensures State() == old(State()).(active := old(State().active)[runtime.context.routeId := Running(runtime.context, runtime.Parked())],
                                       order := old(order) + [runtime.context.routeId])
    {
      hide RunningRoutes, Directories, Wired;
      var id := runtime.context.routeId;
      WiredWith(active, id, runtime);
      active, order := active[id := runtime], order + [id];
      NoDirectoryChanged();
      RouteAdded(id, runtime);
    }

    method StartRoute(id: int, connected: bool, wiring: Wiring, hookFails: bool) returns (r: Response)
      requires Valid()
      modifies this, database
      ensures Valid()
      ensures (State(), r) == Start(old(State()), config, id, connected, wiring, hookFails)
    {
      hide ValidateStart, RunningRoutes, Directories, Wired, Ordered, Distinct, Indexed;
      StateKeys();
      if id in active {
        return Started(true);
      }
      var error := ValidateStart(database.arming.routes, id, connected, wiring);
      if error.Some? {
        return Refused(error.value);
      }
      if wiring.root !in roots {
        return Refused(RootInvalid);
      }
      ValidatedHasRow(database.arming.routes, id, connected, wiring);
      Register(ContextOf(id, wiring, config));
      r := Started(false);
      if config.telethonEnabled && hookFails {
        r := HookFailure(id);
        ForgottenRoute(old(RunningRoutes()), old(order), id, Running(ContextOf(id, wiring, config), Listener({}, Initial(map[]))));
      }
    }

    /** The route leaves the registry again when the Telegram client cannot be started. */
    method HookFailure(id: int) returns (r: Response)
      requires Valid() && id in database.arming.routes
      modifies this, database
      ensures Valid() && r == Refused(HookFailed)
      ensures var w := old(State());
              State() == w.(active := w.active - {id}, order := Without(w.order, id),
                            tables := w.tables.(statuses := w.tables.statuses[id := Stopped]))
    {
      hide RunningRoutes, Directories, Wired, Ordered, Distinct;
      Forget(id);
      label forgotten:
      var _ := database.UpsertRouteListenerState(id, Stopped);
      RoutesKept@forgotten();
      r := Refused(HookFailed);
    }

    method StopRoute(id: int) returns (r: Result<Response, ListenerError>)
      requires Valid()
      modifies this, database
      ensures Valid()
      ensures (State(), r) == Stop(old(State()), id)
    {
      hide RunningRoutes, Directories, Wired, Ordered, Distinct;
      StateKeys();
      var removed := id in active;
      Forget(id);
      label forgotten:
      if !removed && id in database.statuses && database.statuses[id] == Stopped {
        return Success(AlreadyStopped);
      }
      var written := database.RecordEvent(id, Stopped, ListenerStop);
      RoutesKept@forgotten();
      r := if written.Fail? then Failure(written.error) else Success(StoppedNow);
    }

    /** `_active.pop(route_id, None)` */
    method Forget(id: int)
      requires Valid()
      modifies `active, `order
      ensures Valid()
      ensures State() == old(State()).(active := old(State().active) - {id}, order := Without(old(order), id))
      ensures id !in old(active) ==> State() == old(State())
    {
      hide RunningRoutes, Directories, Wired, Ordered;
      WiredWithout(active, order, id);
      active, order := active - {id}, Without(order, id);
      NoDirectoryChanged();
      RouteRemoved(id);
    }
  }
}
