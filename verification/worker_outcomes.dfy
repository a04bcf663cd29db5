/**
 How the worker's commands end: what each served command's row says after one call of the loop, and
 which ends a command can have at all (listener_worker_runtime.py in integrations/telegram).
 */
module WorkerOutcomes {
  import opened Wrappers
  import opened Sequences
  import opened RouteListener
  import opened WorkerQueue
  import opened WorkerRuns

  /**
   Whether a command served in this world ends done, and not failed: a start with a route id always, a
   stop with one unless its row is gone and it is not just recorded as stopped, a worker stop always,
   anything else never.
   */
  predicate EndsDone(command: Command, w: World) {
    match command.kind
    case StartRouteCommand => command.routeId.Some?
    case StopRouteCommand =>
      command.routeId.Some? &&
      var id := command.routeId.value;
      id in w.tables.rows || (id !in w.active && id in w.tables.statuses && w.tables.statuses[id] == Stopped)
    case WorkerStopCommand => true
    case UnknownCommand(_) => false
  }

  lemma DispatchedDone(w: World, config: Config, shown: Shown, command: Command, s: StartSurroundings)
    ensures Dispatch(w, config, shown, command.kind, command.routeId, s).2 <==> EndsDone(command, w)
  {
    hide Start, Sync, Without;
  }

  function Ended(command: Command, w: World): Command {
    command.(progress := if EndsDone(command, w) then Done else Failed)
  }

  /** The queue after some turns of the loop. */
  function Turns(w: Worker, config: Config, around: int -> StartSurroundings, k: nat): Worker {
    if k == 0 then w else Finish(Begin(Turns(w, config, around, k - 1), config, around))
  }

  predicate StopAt(w: Worker, k: nat) { k < |w.batch| && CommandAt(w.commands, w.batch[k]).kind == WorkerStopCommand }

  /** The queue with the first commands of its batch served and each of their rows saying how they ended. */
  ghost predicate ServedUpTo(w: Worker, w': Worker, config: Config, around: int -> StartSurroundings, k: nat)
    requires k <= |w.batch|
  {
    && w'.batch == w.batch[k..] && w'.dispatched == w.dispatched + w.batch[..k] && w'.running.None?
    && (w'.stopped <==> k > 0 && StopAt(w, k - 1))
    && |w'.commands| == |w.commands|
    && (forall j | 0 <= j < k ::
          CommandAt(w'.commands, w.batch[j]) == Ended(CommandAt(w.commands, w.batch[j]), Turns(w, config, around, j).world))
    && (forall id | id !in w.batch[..k] :: CommandAt(w'.commands, id) == CommandAt(w.commands, id))
  }

  lemma OneTurn(w: Worker, config: Config, around: int -> StartSurroundings)
    requires w.batch != [] && w.running.None? && !w.stopped && InRange(w)
    ensures var w', id := Finish(Begin(w, config, around)), w.batch[0];
            && w'.batch == w.batch[1..] && w'.dispatched == w.dispatched + [id] && w'.running.None?
            && (w'.stopped <==> StopAt(w, 0)) && |w'.commands| == |w.commands|
            && CommandAt(w'.commands, id) == Ended(CommandAt(w.commands, id), w.world)
            && (forall other | other != id :: CommandAt(w'.commands, other) == CommandAt(w.commands, other))
  {
    hide Dispatch, EndsDone, Marked;
    var id := w.batch[0];
    assert id in w.batch;
    DispatchedDone(w.world, config, w.shown, w.commands[id], around(id));
    MarkedAt(w.commands, [id], if EndsDone(w.commands[id], w.world) then Done else Failed);
  }

  lemma {:induction false} TurnsServe(w: Worker, config: Config, around: int -> StartSurroundings, k: nat)
    requires k <= |w.batch| && w.running.None? && !w.stopped && InRange(w) && Distinct(w.batch)
    requires forall j | 0 <= j < k - 1 :: !StopAt(w, j)
    ensures ServedUpTo(w, Turns(w, config, around, k), config, around, k)
  {
    hide Begin, Finish, Ended, ServedUpTo;
    if k == 0 {
      ServedNone(w, config, around);
    } else {
      var before := Turns(w, config, around, k - 1);
      TurnsServe(w, config, around, k - 1);
      assert k - 1 > 0 ==> !StopAt(w, k - 2);
      ServedOne(w, before, config, around, k - 1);
    }
  }

  lemma ServedNone(w: Worker, config: Config, around: int -> StartSurroundings)
    requires w.running.None? && !w.stopped
    ensures ServedUpTo(w, w, config, around, 0)
  {
    hide Turns;
    assert w.batch[0..] == w.batch && w.dispatched + w.batch[..0] == w.dispatched;
  }

  lemma ServedOne(w: Worker, before: Worker, config: Config, around: int -> StartSurroundings, k: nat)
    requires k < |w.batch| && InRange(w) && Distinct(w.batch) && before == Turns(w, config, around, k)
    requires ServedUpTo(w, before, config, around, k) && (k > 0 ==> !StopAt(w, k - 1))
    ensures ServedUpTo(w, Finish(Begin(before, config, around)), config, around, k + 1)
  {
    hide Begin, Finish, Ended, Turns;
    var id := w.batch[k];
    assert before.batch[0] == id && id !in w.batch[..k];
    assert forall other | other in before.batch :: other in w.batch;
    OneTurn(before, config, around);
    assert w.batch[..k + 1] == w.batch[..k] + [id];
    assert w.batch[k..][1..] == w.batch[k + 1..];
    assert CommandAt(before.commands, id) == CommandAt(w.commands, id);
  }

  lemma {:induction false} ServeIsTurns(w: Worker, config: Config, around: int -> StartSurroundings, k: nat)
    requires k <= |w.batch| && w.running.None? && !w.stopped && InRange(w) && Distinct(w.batch)
    requires forall j | 0 <= j < k :: !StopAt(w, j)
    ensures Serve(w, config, around) == Serve(Turns(w, config, around, k), config, around)
  {
    hide Begin, Finish, Serve;
    if k > 0 {
      var before := Turns(w, config, around, k - 1);
      ServeIsTurns(w, config, around, k - 1);
      TurnsServe(w, config, around, k - 1);
      assert forall id | id in before.batch :: id in w.batch;
      assert k - 1 > 0 ==> !StopAt(w, k - 2);
      ServeStep(before, config, around);
    }
  }

  /**
   One call of the loop, on a batch it has claimed: it serves the commands up to the first worker stop,
   that one included, or all of them; each served row ends done or failed as the command and the
   tables it found say, and no other row changes.
   */
  lemma LoopOutcome(w: Worker, config: Config, around: int -> StartSurroundings) returns (n: nat)
    requires w.running.None? && !w.stopped && InRange(w) && Distinct(w.batch)
    ensures n <= |w.batch| && (forall j | 0 <= j < n - 1 :: !StopAt(w, j)) && (n < |w.batch| ==> n > 0 && StopAt(w, n - 1))
    ensures Serve(w, config, around) == Turns(w, config, around, n)
    ensures ServedUpTo(w, Serve(w, config, around), config, around, n)
  {
    hide Begin, Finish, Serve, Turns, ServedUpTo;
    n := 0;
    while n < |w.batch| && !(n > 0 && StopAt(w, n - 1))
      invariant n <= |w.batch| && forall j | 0 <= j < n - 1 :: !StopAt(w, j)
    {
      n := n + 1;
    }
    TurnsServe(w, config, around, n);
    ServedStops(w, config, around, n);
  }

  lemma ServedStops(w: Worker, config: Config, around: int -> StartSurroundings, n: nat)
    requires w.running.None? && !w.stopped && InRange(w) && Distinct(w.batch)
    requires n <= |w.batch| && (forall j | 0 <= j < n - 1 :: !StopAt(w, j)) && (n == |w.batch| || (n > 0 && StopAt(w, n - 1)))
    requires ServedUpTo(w, Turns(w, config, around, n), config, around, n)
    ensures Serve(w, config, around) == Turns(w, config, around, n)
  {
    hide Begin, Finish, Serve;
    ServeDone(Turns(w, config, around, n), config, around);
    if n > 0 {
      ServeIsTurns(w, config, around, n - 1);
      var before := Turns(w, config, around, n - 1);
      TurnsServe(w, config, around, n - 1);
      assert forall id | id in before.batch :: id in w.batch;
      assert n - 1 > 0 ==> !StopAt(w, n - 2);
      ServeStep(before, config, around);
    }
  }

  /** So the one start command of a queue ends done, whether or not the start was refused. */
  lemma SingleStartEndsDone(w: Worker, config: Config, around: int -> StartSurroundings, id: int)
    requires w.batch == [id] && w.running.None? && !w.stopped && InRange(w)
    requires CommandAt(w.commands, id).kind == StartRouteCommand && CommandAt(w.commands, id).routeId.Some?
    ensures CommandAt(Serve(w, config, around).commands, id).progress == Done
  {
    hide Serve, Turns;
    var n := LoopOutcome(w, config, around);
    assert n == 1 && w.batch[0] == id;
  }

  /** An idle worker claims the lowest pending commands, twenty at most, and none beyond them changes. */
  lemma PollClaims(w: Worker)
    requires w.batch == [] && w.running.None? && !w.stopped
    ensures var w' := Poll(w);
            && |w'.batch| <= 20 && LowestPending(w.commands, 0, 20, w'.batch) && |w'.commands| == |w.commands|
            && (forall id | id in w'.batch :: IsPending(w.commands, id))
            && (forall id | 0 <= id < |w.commands| ::
                  w'.commands[id] == if id in w'.batch then w.commands[id].(progress := Processing) else w.commands[id])
            && w'.dispatched == w.dispatched && w'.world == w.world
  {
    hide Marked;
    PendingFromLowest(w.commands, 0, 20);
    MarkedAt(w.commands, Poll(w).batch, Processing);
  }

  // ---------- over whole runs ----------

  /** A command that can end done: a stop of the worker, or a start or stop of a route with its id. */
  predicate MayEndDone(command: Command) {
    command.kind == WorkerStopCommand || (command.kind in {StartRouteCommand, StopRouteCommand} && command.routeId.Some?)
  }

  predicate MayEndFailed(command: Command) {
    command.kind != WorkerStopCommand && !(command.kind == StartRouteCommand && command.routeId.Some?)
  }

  predicate Fits(command: Command) {
    (command.progress == Done ==> MayEndDone(command)) && (command.progress == Failed ==> MayEndFailed(command))
  }

  ghost predicate AllFit(w: Worker) {
    && (forall id | 0 <= id < |w.commands| :: Fits(w.commands[id]))
    && (w.running.Some? ==>
          var id := w.running.value.id;
          0 <= id < |w.commands| && if w.running.value.succeeded then MayEndDone(w.commands[id]) else MayEndFailed(w.commands[id]))
  }

  lemma EndsFit(command: Command, w: World)
    ensures if EndsDone(command, w) then MayEndDone(command) else MayEndFailed(command)
  {
  }

  lemma AdvanceFits(w: Worker, config: Config, step: Step)
    requires WorkerRuns.Sound(w) && AllFit(w)
    ensures AllFit(Advance(w, config, step))
  {
    hide Marked, PendingFrom, Dispatch, EndsDone;
    match step
    case Claim => MarkedAt(w.commands, PendingFrom(w.commands, 0, CLAIM_LIMIT), Processing);
    case Completing =>
      if w.running.Some? {
        MarkedAt(w.commands, [w.running.value.id], if w.running.value.succeeded then Done else Failed);
      }
    case Dispatching(around) =>
      if w.batch != [] && w.running.None? && !w.stopped {
        var id := w.batch[0];
        assert id in w.batch && IsClaimed(w.commands, id);
        DispatchedDone(w.world, config, w.shown, w.commands[id], around(id));
        EndsFit(w.commands[id], w.world);
      }
    case _ =>
  }

  /**
   Over every run of workers: a start with a route id and a worker stop never end failed, and a command
   without an id or of an unknown kind never ends done.
   */
  lemma {:induction false} CommandsEndAsTheyMay(w: Worker, config: Config, steps: seq<Step>)
    requires WorkerRuns.Sound(w) && AllFit(w)
    ensures AllFit(Run(w, config, steps))
  {
    hide Advance, InQueueOrder, Accounted, AllFit;
    if steps != [] {
      CommandsEndAsTheyMay(w, config, steps[..|steps| - 1]);
      DispatchedOnceInOrder(w, config, steps[..|steps| - 1]);
      AdvanceFits(Run(w, config, steps[..|steps| - 1]), config, steps[|steps| - 1]);
    }
  }
}
