/**
 The listener worker's command queue: listener_worker_runtime.py and the commands table of
 dashboard_store.py (both in integrations/telegram).
 */
module WorkerQueue {
  import opened Wrappers
  import opened Sequences
  import opened RouteListener

  const CLAIM_LIMIT: nat := 20

  datatype CommandKind = StartRouteCommand | StopRouteCommand | WorkerStopCommand | UnknownCommand(text: string)

  datatype Progress = Pending | Processing | Done | Failed

  datatype Command = Command(kind: CommandKind, routeId: Option<int>, progress: Progress)

  // ---------- the commands table ----------

  /** Rows are never deleted and ids count up, so a command's id is its place in the table. */
  type Commands = seq<Command>

  /** The lowest pending ids from a place on, up to a limit. */
  function PendingFrom(commands: Commands, start: nat, limit: nat): (ids: seq<int>)
    ensures |ids| <= limit && forall id | id in ids :: start <= id < |commands| && commands[id].progress == Pending
    decreases |commands| - start
  {
    if limit == 0 || start >= |commands| then []
    else if commands[start].progress == Pending then [start] + PendingFrom(commands, start + 1, limit - 1)
    else PendingFrom(commands, start + 1, limit)
  }

  /** Ids go up, and a pending id from a place on is left out only when the limit is reached by lower ones. */
  ghost predicate LowestPending(commands: Commands, start: nat, limit: nat, ids: seq<int>) {
    && Increasing(ids)
    && (forall id | start <= id < |commands| && commands[id].progress == Pending && id !in ids ::
          |ids| == limit && forall claimed | claimed in ids :: claimed < id)
  }

  lemma LowestWithHead(commands: Commands, start: nat, limit: nat, rest: seq<int>)
    requires LowestPending(commands, start + 1, limit, rest) && forall id | id in rest :: start < id
    ensures LowestPending(commands, start, limit + 1, [start] + rest)
  {
    var ids := [start] + rest;
    forall i, j | 0 <= i < j < |ids| ensures ids[i] < ids[j] {
      assert rest[j - 1] in rest;
    }
    assert forall id :: id in ids <==> id == start || id in rest;
  }

  lemma {:induction false} PendingFromLowest(commands: Commands, start: nat, limit: nat)
    ensures LowestPending(commands, start, limit, PendingFrom(commands, start, limit))
    decreases |commands| - start
  {
    if limit > 0 && start < |commands| {
      if commands[start].progress == Pending {
        PendingFromLowest(commands, start + 1, limit - 1);
        LowestWithHead(commands, start, limit - 1, PendingFrom(commands, start + 1, limit - 1));
      } else {
        PendingFromLowest(commands, start + 1, limit);
      }
    }
  }

  function Marked(commands: Commands, ids: seq<int>, progress: Progress): Commands {
    seq(|commands|, i requires 0 <= i < |commands| => if i in ids then commands[i].(progress := progress) else commands[i])
  }

  class CommandTable {
    var commands: Commands

    constructor ()
      ensures commands == []
    {
      commands := [];
    }

    method Enqueue(kind: CommandKind, routeId: Option<int>) returns (id: nat)
      modifies `commands
      ensures commands == old(commands) + [Command(kind, routeId, Pending)] && id == |old(commands)|
    {
      id := |commands|;
      commands := commands + [Command(kind, routeId, Pending)];
    }

    method ClaimPending(limit: nat) returns (ids: seq<int>)
      modifies `commands
      ensures ids == PendingFrom(old(commands), 0, limit)
      ensures commands == Marked(old(commands), ids, Processing)
    {
      ids := [];
      var id := 0;
      while id < |commands| && |ids| < limit
        invariant commands == old(commands) && id <= |commands| && |ids| <= limit
        invariant ids + PendingFrom(commands, id, limit - |ids|) == PendingFrom(commands, 0, limit)
      {
        ghost var rest := PendingFrom(commands, id + 1, limit - |ids| - 1);
        assert ids + ([id] + rest) == (ids + [id]) + rest;
        if commands[id].progress == Pending {
          ids := ids + [id];
        }
        id := id + 1;
      }
      assert ids + [] == ids;
      commands := Marked(commands, ids, Processing);
    }

    method Complete(id: nat, progress: Progress)
      modifies `commands
      ensures commands == Marked(old(commands), [id], progress)
    {
      commands := Marked(commands, [id], progress);
    }
  }

  // ---------- the worker ----------

  /** What the worker's state row shows of the running routes. */
  datatype Shown = Shown(routeIds: seq<int>, count: nat)

  datatype StartSurroundings = StartSurroundings(connected: bool, wiring: Wiring, hookFails: bool)

  function Sync(order: seq<int>): Shown {
    var ids := SortedSet(SortedSet(order));
    Shown(ids, |ids|)
  }

  /** A command's effect, and whether it returned normally. */
  function Dispatch(w: World, config: Config, shown: Shown, kind: CommandKind, routeId: Option<int>, s: StartSurroundings)
    : (World, Shown, bool)
  {
    match kind
    case StartRouteCommand =>
      if routeId.None? then (w, shown, false)
      else
        var (w', _) := Start(w, config, routeId.value, s.connected, s.wiring, s.hookFails);
        (w', Sync(w'.order), true)
    case StopRouteCommand =>
      if routeId.None? then (w, shown, false)
      else
        var (w', response) := Stop(w, routeId.value);
        if response.Failure? then (w', shown, false) else (w', Sync(w'.order), true)
    case WorkerStopCommand => (w, shown, true)
    case UnknownCommand(_) => (w, shown, false)
  }

  datatype Dispatched = Dispatched(id: int, succeeded: bool)

  /**
   The queue and the one worker that serves it: the claimed ids not yet dispatched, the command being
   served, every id ever dispatched, and the ids that an earlier worker had claimed when it ended.
   */
  datatype Worker = Worker(
    world: World,
    commands: Commands,
    shown: Shown,
    batch: seq<int>,
    running: Option<Dispatched>,
    stopped: bool,
    dispatched: seq<int>,
    abandoned: set<int>)

  function Poll(w: Worker): Worker {
    if w.batch != [] || w.running.Some? || w.stopped then w
    else
      var ids := PendingFrom(w.commands, 0, CLAIM_LIMIT);
      w.(commands := Marked(w.commands, ids, Processing), batch := ids)
  }

  function CommandAt(commands: Commands, id: int): Command {
    if 0 <= id < |commands| then commands[id] else Command(UnknownCommand(""), None, Pending)
  }

  function Begin(w: Worker, config: Config, around: int -> StartSurroundings): Worker {
    if w.batch == [] || w.running.Some? || w.stopped then w
    else
      var id := w.batch[0];
      var command := CommandAt(w.commands, id);
      var (world, shown, succeeded) := Dispatch(w.world, config, w.shown, command.kind, command.routeId, around(id));
      w.(world := world, shown := shown, batch := w.batch[1..], running := Some(Dispatched(id, succeeded)),
         dispatched := w.dispatched + [id])
  }

  function Finish(w: Worker): Worker {
    if w.running.None? then w
    else
      var id := w.running.value.id;
      w.(commands := Marked(w.commands, [id], if w.running.value.succeeded then Done else Failed), running := None,
         stopped := w.stopped || CommandAt(w.commands, id).kind == WorkerStopCommand)
  }

  /** The rest of a claimed batch, until a stop command ends it. */
  function Serve(w: Worker, config: Config, around: int -> StartSurroundings): Worker
    decreases |w.batch|
  {
    if w.batch == [] || w.running.Some? || w.stopped then w else Serve(Finish(Begin(w, config, around)), config, around)
  }

  ghost predicate InRange(w: Worker) {
    forall id | id in w.batch :: 0 <= id < |w.commands|
  }

  lemma ServeStep(w: Worker, config: Config, around: int -> StartSurroundings)
    requires InRange(w) && w.batch != [] && w.running.None? && !w.stopped
    ensures var next := Finish(Begin(w, config, around));
            Serve(w, config, around) == Serve(next, config, around) && InRange(next) && next.batch == w.batch[1..]
  {
    hide Dispatch;
    assert forall id | id in w.batch[1..] :: id in w.batch;
  }

  lemma ServeDone(w: Worker, config: Config, around: int -> StartSurroundings)
    requires w.batch == [] || w.stopped
    ensures Serve(w, config, around) == w
  {
  }

  /** Routes stopped one after the other, until a stop raises. */
  function StopAll(w: World, ids: seq<int>): (World, bool)
    decreases |ids|
  {
    if ids == [] then (w, true)
    else
      var (w', r) := Stop(w, ids[0]);
      if r.Failure? then (w', false) else StopAll(w', ids[1..])
  }

  class ListenerWorkerRuntime {
    const manager: RouteListenerManager
    const table: CommandTable
    var stopRequested: bool
    var shown: Shown
    ghost var batch: seq<int>
    ghost var dispatched: seq<int>
    ghost var abandoned: set<int>

    constructor (manager: RouteListenerManager, table: CommandTable)
      ensures this.manager == manager && this.table == table && !stopRequested && shown == Shown([], 0)
      ensures batch == [] && dispatched == [] && abandoned == {}
    {
      this.manager, this.table, stopRequested, shown := manager, table, false, Shown([], 0);
      batch, dispatched, abandoned := [], [], {};
    }

    ghost function State(): Worker
      reads this, table, manager, manager.Runtimes(), manager.Handlers(), manager.Matchers(), manager.Publishers()
      reads manager.Roots(), manager.database, manager.database.arming
    {
      Worker(manager.State(), table.commands, shown, batch, None, stopRequested, dispatched, abandoned)
    }

    method SyncActiveRoutes()
      requires manager.Valid()
      modifies `shown
      ensures shown == Sync(manager.order)
      ensures manager.Valid() && manager.State() == old(manager.State())
    {
      var activeIds := SortedSet(manager.order);
      var normalized := SortedSet(activeIds);
      shown := Shown(normalized, |normalized|);
      manager.RoutesKept();
    }

    method DispatchCommand(kind: CommandKind, routeId: Option<int>, s: StartSurroundings) returns (succeeded: bool)
      requires manager.Valid()
      modifies `shown, manager, manager.database
      ensures manager.Valid()
      ensures (manager.State(), shown, succeeded)
              == Dispatch(old(manager.State()), manager.config, old(shown), kind, routeId, s)
    {
      hide Start, Stop, RouteListenerManager.RunningRoutes, RouteListenerManager.Directories;
      match kind {
        case StartRouteCommand =>
          if routeId.None? {
            return false;
          }
          var _ := manager.StartRoute(routeId.value, s.connected, s.wiring, s.hookFails);
          SyncActiveRoutes();
          return true;
        case StopRouteCommand =>
          if routeId.None? {
            return false;
          }
          var response := manager.StopRoute(routeId.value);
          if response.Failure? {
            return false;
          }
          SyncActiveRoutes();
          return true;
        case WorkerStopCommand =>
          return true;
        case UnknownCommand(_) =>
          return false;
      }
    }

    /** The command's outcome goes to its row, and a stop command to the worker. */
    method Settle(id: nat, kind: CommandKind, succeeded: bool)
      requires manager.Valid() && batch != []
      modifies this, table
      ensures manager.Valid() && manager.State() == old(manager.State())
      ensures table.commands == Marked(old(table.commands), [id], if succeeded then Done else Failed)
      ensures batch == old(batch)[1..] && dispatched == old(dispatched) + [id]
      ensures stopRequested == (kind == WorkerStopCommand) && shown == old(shown) && abandoned == old(abandoned)
    {
      hide Marked;
      batch, dispatched := batch[1..], dispatched + [id];
      table.Complete(id, if succeeded then Done else Failed);
      stopRequested := kind == WorkerStopCommand;
      manager.RoutesKept();
    }

    /** One turn of the loop over the claimed commands. */
    method ServeNext(id: nat, around: int -> StartSurroundings)
      requires manager.Valid() && !stopRequested && batch != [] && batch[0] == id && id < |table.commands|
      modifies this, table, manager, manager.database
      ensures manager.Valid()
      ensures State() == Finish(Begin(old(State()), manager.config, around))
    {
      hide Dispatch, Marked, RouteListenerManager.RunningRoutes, RouteListenerManager.Directories;
      hide RouteListenerManager.Valid;
      var command := table.commands[id];
      var succeeded := DispatchCommand(command.kind, command.routeId, around(id));
      Settle(id, command.kind, succeeded);
    }

    method Claim() returns (ids: seq<int>)
      requires manager.Valid() && !stopRequested && batch == []
      modifies `batch, table
      ensures manager.Valid() && State() == Poll(old(State())) && ids == batch
      ensures forall id | id in ids :: 0 <= id < |table.commands|
    {
      ids := table.ClaimPending(CLAIM_LIMIT);
      batch := ids;
      manager.RoutesKept();
    }

    method ProcessCommands(around: int -> StartSurroundings)
      requires manager.Valid() && !stopRequested && batch == []
      modifies this, table, manager, manager.database
      ensures manager.Valid()
      ensures State() == Serve(Poll(old(State())), manager.config, around)
    {
      hide Begin, Finish, Marked, Serve, Poll, RouteListenerManager.Valid;
      hide RouteListenerManager.RunningRoutes, RouteListenerManager.Directories;
      var ids := Claim();
      ghost var polled := State();
      var k := 0;
      while k < |ids| && !stopRequested
        invariant manager.Valid() && k <= |ids| && batch == ids[k..] && InRange(State())
        invariant Serve(State(), manager.config, around) == Serve(polled, manager.config, around)
      {
        ServeStep(State(), manager.config, around);
        assert ids[k] in batch;
        ServeNext(ids[k], around);
        k := k + 1;
      }
      ServeDone(State(), manager.config, around);
    }

    /** The end of the worker's loop: every running route is stopped, then the state row is cleared. */
    method Shutdown() returns (completed: bool)
      requires manager.Valid()
      modifies `shown, manager, manager.database
      ensures manager.Valid()
      ensures (manager.State(), completed) == StopAll(old(manager.State()), old(manager.order))
      ensures shown == if completed then Shown([], 0) else old(shown)
    {
      hide Stop, RouteListenerManager.Valid, RouteListenerManager.RunningRoutes, RouteListenerManager.Directories;
      var activeIds := manager.order;
      var k := 0;
      assert activeIds[0..] == activeIds;
      while k < |activeIds|
        invariant k <= |activeIds| && manager.Valid() && shown == old(shown)
        invariant StopAll(manager.State(), activeIds[k..]) == StopAll(old(manager.State()), activeIds)
      {
        assert activeIds[k..][1..] == activeIds[k + 1..];
        var response := manager.StopRoute(activeIds[k]);
        if response.Failure? {
          return false;
        }
        k := k + 1;
      }
      Clear();
      completed := true;
    }

    method Clear()
      requires manager.Valid()
      modifies `shown
      ensures manager.Valid() && manager.State() == old(manager.State()) && shown == Shown([], 0)
    {
      shown := Shown([], 0);
      manager.RoutesKept();
    }
  }
}
