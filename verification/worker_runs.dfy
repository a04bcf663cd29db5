/**
 Whole runs of the command queue through any number of workers, one at a time: what is dispatched,
 in which order, what is left behind, and what the worker shows of the running routes.
 */
module WorkerRuns {
  import opened Wrappers
  import opened Sequences
  import opened RouteListener
  import opened ListenerRuns
  import opened WorkerQueue

  /** `Replace` ends the worker, whatever it was doing, and starts the next one. */
  datatype Step =
    | Enqueue(kind: CommandKind, routeId: Option<int>)
    | Claim
    | Dispatching(around: int -> StartSurroundings)
    | Completing
    | Between(move: Move)
    | Replace

  function Replaced(w: Worker, config: Config): Worker {
    var served := if w.running.Some? then {w.running.value.id} else {};
    w.(world := ListenerRuns.Next(w.world, config, RestartMove), shown := Shown([], 0), batch := [], running := None,
       stopped := false, abandoned := w.abandoned + served + set id | id in w.batch)
  }

  function Advance(w: Worker, config: Config, step: Step): Worker {
    match step
    case Enqueue(kind, routeId) => w.(commands := w.commands + [Command(kind, routeId, Pending)])
    case Claim => Poll(w)
    case Dispatching(around) => Begin(w, config, around)
    case Completing => Finish(w)
    case Between(move) =>
      if move.DeliverMove? || move.RowsMove? then w.(world := ListenerRuns.Next(w.world, config, move)) else w
    case Replace => Replaced(w, config)
  }

  function Run(w: Worker, config: Config, steps: seq<Step>): Worker {
    if steps == [] then w else Advance(Run(w, config, steps[..|steps| - 1]), config, steps[|steps| - 1])
  }

  // ---------- order and number of dispatches ----------

  predicate IsPending(commands: Commands, id: int) { 0 <= id < |commands| && commands[id].progress == Pending }

  predicate IsClaimed(commands: Commands, id: int) { 0 <= id < |commands| && commands[id].progress != Pending }

  /** Dispatched ids went up, the claimed ones go on from there, and the pending ones come last. */
  ghost predicate InQueueOrder(w: Worker) {
    && Increasing(w.dispatched) && Increasing(w.batch)
    && (forall d, b | d in w.dispatched && b in w.batch :: d < b)
    && (forall id | id in w.dispatched :: IsClaimed(w.commands, id))
    && (forall id | id in w.batch :: IsClaimed(w.commands, id))
    && (forall i, j | IsPending(w.commands, i) && IsClaimed(w.commands, j) :: j < i)
  }

  predicate Serving(w: Worker, id: int) { w.running.Some? && w.running.value.id == id }

  /** A command is being processed exactly while it is claimed, served or left behind by an ended worker. */
  ghost predicate Accounted(w: Worker) {
    && (w.running.Some? ==> w.dispatched != [] && w.dispatched[|w.dispatched| - 1] == w.running.value.id)
    && (forall id | id in w.abandoned :: 0 <= id < |w.commands| && id !in w.batch && !Serving(w, id))
    && (forall id | 0 <= id < |w.commands| ::
          w.commands[id].progress == Processing <==> id in w.batch || id in w.abandoned || Serving(w, id))
    && (forall id | 0 <= id < |w.commands| && w.commands[id].progress in {Done, Failed} :: id in w.dispatched)
  }

  ghost predicate Sound(w: Worker) { InQueueOrder(w) && Accounted(w) }

  lemma MarkedAt(commands: Commands, ids: seq<int>, progress: Progress)
    ensures var marked := Marked(commands, ids, progress);
            && |marked| == |commands|
            && (forall id | 0 <= id < |commands| ::
                  marked[id] == if id in ids then commands[id].(progress := progress) else commands[id])
  {
  }

  lemma PollSound(w: Worker)
    requires Sound(w)
    ensures Sound(Poll(w))
  {
    hide PendingFrom, Marked;
    var ids := PendingFrom(w.commands, 0, CLAIM_LIMIT);
    PendingFromLowest(w.commands, 0, CLAIM_LIMIT);
    MarkedAt(w.commands, ids, Processing);
    var w' := Poll(w);
    if w.batch == [] && w.running.None? && !w.stopped {
      forall i, j | IsPending(w'.commands, i) && IsClaimed(w'.commands, j) ensures j < i {
        assert IsPending(w.commands, i) && i !in ids;
        assert j in ids || IsClaimed(w.commands, j);
      }
      forall d, b | d in w'.dispatched && b in w'.batch ensures d < b {
        assert IsPending(w.commands, b);
      }
    }
  }

  lemma BeginSound(w: Worker, config: Config, around: int -> StartSurroundings)
    requires Sound(w)
    ensures Sound(Begin(w, config, around))
  {
    hide Dispatch;
    if w.batch != [] && w.running.None? && !w.stopped {
      var w', id := Begin(w, config, around), w.batch[0];
      assert id in w.batch;
      assert forall b :: b in w.batch <==> b == id || b in w.batch[1..];
      assert forall i | 0 <= i < |w.batch[1..]| :: id < w.batch[1..][i];
      assert forall d :: d in w'.dispatched <==> d in w.dispatched || d == id;
      forall i | 0 <= i < |w.dispatched| ensures w.dispatched[i] < id {
        assert w.dispatched[i] in w.dispatched;
      }
    }
  }

  lemma ServedIsClaimed(w: Worker)
    requires Sound(w) && w.running.Some?
    ensures w.running.value.id in w.dispatched && IsClaimed(w.commands, w.running.value.id)
  {
  }

  lemma FinishSound(w: Worker)
    requires Sound(w)
    ensures Sound(Finish(w))
  {
    hide Marked;
    if w.running.Some? {
      var id := w.running.value.id;
      ServedIsClaimed(w);
      MarkedAt(w.commands, [id], if w.running.value.succeeded then Done else Failed);
      var w' := Finish(w);
      assert forall i :: i in [id] <==> i == id;
      assert forall i :: IsPending(w'.commands, i) <==> IsPending(w.commands, i);
      assert forall i :: IsClaimed(w'.commands, i) <==> IsClaimed(w.commands, i);
    }
  }

  lemma EnqueueSound(w: Worker, command: Command)
    requires Sound(w) && command.progress == Pending
    ensures Sound(w.(commands := w.commands + [command]))
  {
    var w', n := w.(commands := w.commands + [command]), |w.commands|;
    if w.running.Some? {
      ServedIsClaimed(w);
    }
    assert w'.commands[n] == command;
    assert forall id | 0 <= id < n :: w'.commands[id] == w.commands[id];
    assert forall i :: IsClaimed(w'.commands, i) <==> IsClaimed(w.commands, i);
    assert forall i :: IsPending(w'.commands, i) <==> IsPending(w.commands, i) || i == n;
    assert n !in w.batch by {
      assert !IsClaimed(w.commands, n);
    }
  }

  lemma ReplacedSound(w: Worker, config: Config)
    requires Sound(w)
    ensures Sound(Replaced(w, config))
  {
    if w.running.Some? {
      ServedIsClaimed(w);
    }
    forall id | id in w.batch ensures 0 <= id < |w.commands| {
      assert IsClaimed(w.commands, id);
    }
  }

  lemma AdvanceSound(w: Worker, config: Config, step: Step)
    requires Sound(w)
    ensures Sound(Advance(w, config, step))
  {
    hide Poll, Begin, Finish, Replaced, InQueueOrder, Accounted;
    match step
    case Enqueue(kind, routeId) => EnqueueSound(w, Command(kind, routeId, Pending));
    case Claim => PollSound(w);
    case Dispatching(around) => BeginSound(w, config, around);
    case Completing => FinishSound(w);
    case Between(move) => WorldAside(w, Advance(w, config, step).world);
    case Replace => ReplacedSound(w, config);
  }

  lemma WorldAside(w: Worker, world: World)
    requires Sound(w)
    ensures Sound(w.(world := world))
  {
  }

  function NewWorker(world: World): Worker {
    Worker(world, [], Shown([], 0), [], None, false, [], {})
  }

  /** A command below a dispatched one was dispatched too, unless a worker that ended had claimed it. */
  ghost predicate NoneSkipped(w: Worker) {
    forall id, d | 0 <= id < d && d in w.dispatched :: id in w.dispatched || id in w.abandoned
  }

  lemma SoundMeans(w: Worker)
    requires Sound(w)
    ensures Distinct(w.dispatched) && NoneSkipped(w)
  {
    forall id, d | 0 <= id < d && d in w.dispatched ensures id in w.dispatched || id in w.abandoned {
      assert IsClaimed(w.commands, d);
      assert !IsPending(w.commands, id);
      if w.running.Some? {
        ServedIsClaimed(w);
      }
    }
  }

  /**
   Over any run of workers, deaths in the middle of a batch included, each command is dispatched at
   most once, in the order of ids, and none is skipped except what an ended worker had claimed.
   */
  lemma {:induction false} DispatchedOnceInOrder(w: Worker, config: Config, steps: seq<Step>)
    requires Sound(w)
    ensures var w' := Run(w, config, steps);
            Sound(w') && Increasing(w'.dispatched) && Distinct(w'.dispatched) && NoneSkipped(w')
  {
    hide Advance, InQueueOrder, Accounted, NoneSkipped, Distinct;
    if steps != [] {
      DispatchedOnceInOrder(w, config, steps[..|steps| - 1]);
      AdvanceSound(Run(w, config, steps[..|steps| - 1]), config, steps[|steps| - 1]);
    }
    SoundMeans(Run(w, config, steps));
    SoundIncreasing(Run(w, config, steps));
  }

  lemma SoundIncreasing(w: Worker)
    requires Sound(w)
    ensures Increasing(w.dispatched)
  {
  }

  lemma NewWorkerSound(world: World)
    ensures Sound(NewWorker(world))
  {
  }

  // ---------- statuses only move forward ----------

  predicate Forward(before: Progress, after: Progress) {
    match before
    case Pending => true
    case Processing => after != Pending
    case _ => after == before
  }

  ghost predicate MovedForward(w: Worker, w': Worker) {
    && w.dispatched <= w'.dispatched && |w.commands| <= |w'.commands|
    && forall id | 0 <= id < |w.commands| ::
         && w'.commands[id] == w.commands[id].(progress := w'.commands[id].progress)
         && Forward(w.commands[id].progress, w'.commands[id].progress)
  }

  lemma AdvanceMovesForward(w: Worker, config: Config, step: Step)
    requires Sound(w)
    ensures MovedForward(w, Advance(w, config, step))
  {
    hide Marked, PendingFrom, Dispatch, ListenerRuns.Next;
    match step
    case Claim =>
      MarkedAt(w.commands, PendingFrom(w.commands, 0, CLAIM_LIMIT), Processing);
    case Completing =>
      if w.running.Some? {
        ServedIsClaimed(w);
        MarkedAt(w.commands, [w.running.value.id], if w.running.value.succeeded then Done else Failed);
      }
    case _ =>
  }

  /** A command keeps its kind and route and only ever goes from pending to processing to done or failed. */
  lemma {:induction false} RunMovesForward(w: Worker, config: Config, steps: seq<Step>)
    requires Sound(w)
    ensures MovedForward(w, Run(w, config, steps))
  {
    hide Advance, InQueueOrder, Accounted;
    if steps != [] {
      var front := steps[..|steps| - 1];
      RunMovesForward(w, config, front);
      DispatchedOnceInOrder(w, config, front);
      AdvanceMovesForward(Run(w, config, front), config, steps[|steps| - 1]);
    }
  }

  // ---------- what a stop leaves behind ----------

  /** Claimed by a worker that has been told to stop or has ended, and never dispatched. */
  ghost predicate Left(w: Worker, id: int) {
    id !in w.dispatched && (id in w.abandoned || (w.stopped && id in w.batch))
  }

  lemma LeftStays(w: Worker, config: Config, step: Step, id: int)
    requires Sound(w) && Left(w, id)
    ensures Left(Advance(w, config, step), id)
  {
    hide Marked, PendingFrom, Dispatch, ListenerRuns.Next;
    if w.running.Some? {
      ServedIsClaimed(w);
    }
  }

  /** The commands claimed together with a stop, and after it, are processing for ever and never dispatched. */
  lemma {:induction false} StopLeavesItsBatch(w: Worker, config: Config, steps: seq<Step>, id: int)
    requires Sound(w) && w.stopped && id in w.batch
    ensures var w' := Run(w, config, steps);
            Left(w', id) && 0 <= id < |w'.commands| && w'.commands[id].progress == Processing
  {
    hide Advance, InQueueOrder, Accounted;
    DispatchedOnceInOrder(w, config, steps);
    if steps == [] {
      BatchUndispatched(w, id);
    } else {
      var front := steps[..|steps| - 1];
      StopLeavesItsBatch(w, config, front, id);
      DispatchedOnceInOrder(w, config, front);
      LeftStays(Run(w, config, front), config, steps[|steps| - 1], id);
    }
    LeftIsProcessing(Run(w, config, steps), id);
  }

  lemma BatchUndispatched(w: Worker, id: int)
    requires Sound(w) && id in w.batch
    ensures id !in w.dispatched
  {
    forall d | d in w.dispatched ensures d != id {
    }
  }

  lemma LeftIsProcessing(w: Worker, id: int)
    requires Sound(w) && Left(w, id)
    ensures 0 <= id < |w.commands| && w.commands[id].progress == Processing
  {
    assert id in w.batch ==> IsClaimed(w.commands, id);
  }

  /** After a stop command the same worker dispatches nothing more. */
  lemma {:induction false} NothingAfterStop(w: Worker, config: Config, steps: seq<Step>)
    requires w.stopped && w.running.None? && forall step | step in steps :: !step.Replace?
    ensures var w' := Run(w, config, steps);
            w'.dispatched == w.dispatched && w'.batch == w.batch && w'.stopped && w'.running.None?
  {
    hide Marked, PendingFrom, Dispatch, ListenerRuns.Next;
    if steps != [] {
      assert steps[|steps| - 1] in steps;
      NothingAfterStop(w, config, steps[..|steps| - 1]);
    }
  }

  // Workers that end only when stopped or idle leave nothing else behind.

  predicate Idle(w: Worker) { w.running.None? && (w.stopped || w.batch == []) }

  predicate EndsCleanly(w: Worker, config: Config, steps: seq<Step>) {
    steps == [] ||
    (EndsCleanly(w, config, steps[..|steps| - 1])
     && (steps[|steps| - 1].Replace? ==> Idle(Run(w, config, steps[..|steps| - 1]))))
  }

  ghost predicate Consecutive(s: seq<int>) {
    forall i | 0 <= i < |s| :: s[i] == s[0] + i
  }

  /** How a batch lies behind the command being served, and which command stopped the worker. */
  ghost predicate BatchFollows(w: Worker) {
    && Consecutive(w.batch) && |w.batch| <= 20
    && (w.running.Some? || w.stopped ==>
          w.dispatched != [] && |w.batch| < 20
          && (w.batch != [] ==> w.batch[0] == w.dispatched[|w.dispatched| - 1] + 1))
    && (w.stopped && w.running.None? ==> CommandAt(w.commands, w.dispatched[|w.dispatched| - 1]).kind == WorkerStopCommand)
    && (w.running.Some? ==> !w.stopped)
  }

  ghost predicate LeftByStop(w: Worker, id: int) {
    id !in w.dispatched &&
    exists stop :: stop in w.dispatched && stop < id < stop + 20 && CommandAt(w.commands, stop).kind == WorkerStopCommand
  }

  ghost predicate OnlyStopsLeave(w: Worker) {
    BatchFollows(w) && forall id | id in w.abandoned :: LeftByStop(w, id)
  }

  lemma PollConsecutive(w: Worker)
    requires Sound(w)
    ensures Consecutive(PendingFrom(w.commands, 0, CLAIM_LIMIT))
  {
    hide PendingFrom;
    var ids := PendingFrom(w.commands, 0, CLAIM_LIMIT);
    PendingFromLowest(w.commands, 0, CLAIM_LIMIT);
    ConsecutiveUpTo(w, ids, |ids|);
  }

  lemma {:induction false} ConsecutiveUpTo(w: Worker, ids: seq<int>, n: nat)
    requires Sound(w) && n <= |ids| && Increasing(ids) && forall id | id in ids :: IsPending(w.commands, id)
    requires forall id | IsPending(w.commands, id) && id !in ids :: forall claimed | claimed in ids :: claimed < id
    ensures forall i | 0 <= i < n :: ids[i] == ids[0] + i
  {
    if n > 1 {
      ConsecutiveUpTo(w, ids, n - 1);
      var next := ids[n - 2] + 1;
      assert ids[n - 1] in ids && ids[n - 2] in ids;
      assert !IsClaimed(w.commands, next);
      assert IsPending(w.commands, next);
      if ids[n - 1] != next {
        assert next !in ids;
      }
    }
  }

  /** Queue steps keep what stops have left, as long as kinds stay and no left command is dispatched. */
  lemma LeftByStopStays(w: Worker, w': Worker)
    requires forall id | id in w.abandoned :: LeftByStop(w, id) && id !in w'.dispatched
    requires w'.abandoned == w.abandoned && w.dispatched <= w'.dispatched
    requires forall id | id in w.dispatched :: CommandAt(w'.commands, id).kind == CommandAt(w.commands, id).kind
    ensures forall id | id in w'.abandoned :: LeftByStop(w', id)
  {
    forall id | id in w'.abandoned ensures LeftByStop(w', id) {
      var stop :| stop in w.dispatched && stop < id < stop + 20 && CommandAt(w.commands, stop).kind == WorkerStopCommand;
      assert stop in w'.dispatched;
    }
  }

  lemma KindsStay(w: Worker, w': Worker)
    requires Sound(w) && MovedForward(w, w')
    ensures forall id | id in w.dispatched :: CommandAt(w'.commands, id).kind == CommandAt(w.commands, id).kind
  {
    forall id | id in w.dispatched ensures CommandAt(w'.commands, id).kind == CommandAt(w.commands, id).kind {
      assert IsClaimed(w.commands, id);
    }
  }

  lemma ReplacedLeaves(w: Worker, config: Config)
    requires Sound(w) && OnlyStopsLeave(w) && Idle(w)
    ensures OnlyStopsLeave(Replaced(w, config))
  {
    var w' := Replaced(w, config);
    forall id | id in w'.abandoned ensures LeftByStop(w', id) {
      if id in w.abandoned {
        assert LeftByStop(w, id);
      } else {
        BatchUndispatched(w, id);
        var stop := w.dispatched[|w.dispatched| - 1];
        assert stop in w.dispatched;
      }
    }
  }

  lemma BatchStillFollows(w: Worker, config: Config, step: Step)
    requires Sound(w) && BatchFollows(w) && !step.Replace?
    ensures BatchFollows(Advance(w, config, step))
  {
    hide Marked, PendingFrom, Dispatch, ListenerRuns.Next, Consecutive;
    var w' := Advance(w, config, step);
    AdvanceMovesForward(w, config, step);
    KindsStay(w, w');
    PollConsecutive(w);
    if w.batch != [] {
      ConsecutiveTail(w.batch);
    }
    assert Consecutive([]) by {
      ConsecutiveEmpty();
    }
  }

  lemma ConsecutiveEmpty()
    ensures Consecutive([])
  {
  }

  lemma ConsecutiveTail(s: seq<int>)
    requires Consecutive(s) && s != []
    ensures Consecutive(s[1..]) && (|s| > 1 ==> s[1..][0] == s[0] + 1)
  {
  }

  lemma AdvanceLeaves(w: Worker, config: Config, step: Step)
    requires Sound(w) && OnlyStopsLeave(w) && !step.Replace?
    ensures OnlyStopsLeave(Advance(w, config, step))
  {
    hide Marked, PendingFrom, Dispatch, ListenerRuns.Next, BatchFollows;
    var w' := Advance(w, config, step);
    BatchStillFollows(w, config, step);
    AdvanceMovesForward(w, config, step);
    KindsStay(w, w');
    forall id | id in w.abandoned ensures id !in w'.dispatched {
      assert LeftByStop(w, id);
    }
    LeftByStopStays(w, w');
  }

  /**
   When workers end only after a stop command or with nothing claimed, every command they leave behind
   lies fewer than twenty ids after a dispatched stop.
   */
  lemma {:induction false} OnlyStopsLeaveCommands(w: Worker, config: Config, steps: seq<Step>)
    requires Sound(w) && OnlyStopsLeave(w) && EndsCleanly(w, config, steps)
    ensures OnlyStopsLeave(Run(w, config, steps))
  {
    hide Advance, InQueueOrder, Accounted, OnlyStopsLeave, Idle;
    if steps != [] {
      var front, last := steps[..|steps| - 1], steps[|steps| - 1];
      OnlyStopsLeaveCommands(w, config, front);
      DispatchedOnceInOrder(w, config, front);
      if last.Replace? {
        ReplaceStep(Run(w, config, front), config);
        ReplacedLeaves(Run(w, config, front), config);
      } else {
        AdvanceLeaves(Run(w, config, front), config, last);
      }
    }
  }

  lemma ReplaceStep(w: Worker, config: Config)
    ensures Advance(w, config, Replace) == Replaced(w, config)
  {
  }

  /** At some point of the run a stop had ended the worker's loop with the command still in its claimed batch. */
  ghost predicate ClaimedWithStop(w: Worker, config: Config, steps: seq<Step>, id: int) {
    exists n | 0 <= n <= |steps| :: Run(w, config, steps[..n]).stopped && id in Run(w, config, steps[..n]).batch
  }

  lemma {:induction false} RunSplits(w: Worker, config: Config, steps: seq<Step>, n: nat)
    requires n <= |steps|
    ensures Run(Run(w, config, steps[..n]), config, steps[n..]) == Run(w, config, steps)
  {
    hide Advance;
    if n == |steps| {
      assert steps[..n] == steps;
    } else {
      var front := steps[..|steps| - 1];
      RunSplits(w, config, front, n);
      assert front[..n] == steps[..n] && steps[n..][..|steps[n..]| - 1] == front[n..];
    }
  }

  lemma {:induction false} LeftWasClaimed(w: Worker, config: Config, steps: seq<Step>, id: int)
    requires w.abandoned == {} && EndsCleanly(w, config, steps) && Left(Run(w, config, steps), id)
    ensures ClaimedWithStop(w, config, steps, id)
  {
    hide Advance;
    var w' := Run(w, config, steps);
    assert steps[..|steps|] == steps;
    if id in w'.abandoned {
      var front, last := steps[..|steps| - 1], steps[|steps| - 1];
      if id in Run(w, config, front).abandoned {
        AbandonedUndispatched(w, config, steps, id);
        LeftWasClaimed(w, config, front, id);
        ClaimedEarlier(w, config, steps, id);
      } else {
        AbandonedByReplace(Run(w, config, front), config, last, id);
        assert front == steps[..|steps| - 1];
      }
    }
  }

  lemma AbandonedUndispatched(w: Worker, config: Config, steps: seq<Step>, id: int)
    requires steps != [] && id !in Run(w, config, steps).dispatched
    ensures id !in Run(w, config, steps[..|steps| - 1]).dispatched
  {
    hide Marked, PendingFrom, Dispatch, ListenerRuns.Next;
  }

  lemma AbandonedByReplace(w: Worker, config: Config, step: Step, id: int)
    requires id !in w.abandoned && id in Advance(w, config, step).abandoned
    ensures step.Replace? && (Idle(w) ==> w.stopped && id in w.batch)
  {
    hide Marked, PendingFrom, Dispatch, ListenerRuns.Next;
  }

  lemma ClaimedEarlier(w: Worker, config: Config, steps: seq<Step>, id: int)
    requires steps != [] && ClaimedWithStop(w, config, steps[..|steps| - 1], id)
    ensures ClaimedWithStop(w, config, steps, id)
  {
    hide Run;
    var front := steps[..|steps| - 1];
    var n :| 0 <= n <= |front| && Run(w, config, front[..n]).stopped && id in Run(w, config, front[..n]).batch;
    assert front[..n] == steps[..n];
  }

  /**
   And what they leave behind, never dispatched and processing for ever, is exactly what was claimed
   together with a stop and after it.
   */
  lemma StopsLeaveExactlyTheirBatches(w: Worker, config: Config, steps: seq<Step>, id: int)
    requires Sound(w) && w.abandoned == {} && EndsCleanly(w, config, steps)
    ensures Left(Run(w, config, steps), id) <==> ClaimedWithStop(w, config, steps, id)
  {
    hide Run, Sound, Left, EndsCleanly;
    if Left(Run(w, config, steps), id) {
      LeftWasClaimed(w, config, steps, id);
    }
    if ClaimedWithStop(w, config, steps, id) {
      var n :| 0 <= n <= |steps| && Run(w, config, steps[..n]).stopped && id in Run(w, config, steps[..n]).batch;
      DispatchedOnceInOrder(w, config, steps[..n]);
      StopLeavesItsBatch(Run(w, config, steps[..n]), config, steps[n..], id);
      RunSplits(w, config, steps, n);
    }
  }

  // ---------- the three views of what runs ----------

  /** Registry, stored statuses and the worker's state row say the same. */
  ghost predicate ViewsAgree(w: Worker) {
    InStep(w.world) && w.shown == Sync(w.world.order)
  }

  lemma {:induction false} DistinctCount(s: seq<int>)
    requires Distinct(s)
    ensures |set x | x in s| == |s|
  {
    if s == [] {
      assert (set x | x in s) == {};
    } else {
      assert s[0] !in s[1..];
      assert (set x | x in s) == (set x | x in s[1..]) + {s[0]};
      DistinctCount(s[1..]);
    }
  }

  /** What agreeing views mean: ascending ids without repeats, of exactly the running routes, and their number. */
  lemma AgreeingViews(w: Worker)
    requires ViewsAgree(w)
    ensures Increasing(w.shown.routeIds) && w.shown.count == |w.world.active|
    ensures forall id :: id in w.shown.routeIds <==> id in w.world.active
    ensures forall id :: id in w.shown.routeIds <==> StatusOf(w.world.tables, id) != Stopped
  {
    DistinctCount(w.world.order);
    assert (set id | id in w.world.order) == w.world.active.Keys;
    assert |w.world.active| == |w.world.active.Keys|;
    IncreasingIsDistinct(SortedSet(w.world.order));
  }

  lemma IncreasingIsDistinct(s: seq<int>)
    requires Increasing(s)
    ensures Distinct(s)
  {
  }

  lemma DispatchKeepsViews(w: World, config: Config, shown: Shown, kind: CommandKind, routeId: Option<int>, s: StartSurroundings)
    requires InStep(w) && shown == Sync(w.order)
    ensures var (w', shown', _) := Dispatch(w, config, shown, kind, routeId, s);
            InStep(w') && shown' == Sync(w'.order)
  {
    hide InStep, Start;
    if routeId.Some? {
      if kind == StartRouteCommand {
        StartInStep(w, config, routeId.value, s.connected, s.wiring, s.hookFails);
      } else if kind == StopRouteCommand {
        StopInStep(w, routeId.value);
        FailedStopChangesNothing(w, routeId.value);
      }
    }
  }

  lemma FailedStopChangesNothing(w: World, id: int)
    requires InStep(w)
    ensures Stop(w, id).1.Failure? ==> Stop(w, id).0.order == w.order
  {
  }

  lemma BetweenKeepsViews(w: World, config: Config, move: Move)
    requires InStep(w) && (move.DeliverMove? || move.RowsMove?)
    ensures InStep(ListenerRuns.Next(w, config, move)) && ListenerRuns.Next(w, config, move).order == w.order
  {
    hide InStep, Deliver;
    match move
    case DeliverMove(channelKey, message, around) =>
      DeliverInStep(w, OnChannel(w.active, w.order, channelKey), message, around);
    case RowsMove(rows) =>
      if w.tables.rows.Keys <= rows.Keys {
        RowsInStep(w, rows);
      }
  }

  /**
   Over any run in which no route is deleted, after every step (a start or stop and its sync are one),
   the worker's state row lists in ascending order exactly the routes that run, which are
   exactly those whose stored status is not stopped.
   */
  lemma {:induction false} ThreeViewsAgree(w: Worker, config: Config, steps: seq<Step>)
    requires ViewsAgree(w)
    ensures ViewsAgree(Run(w, config, steps))
  {
    hide InStep, Dispatch, ListenerRuns.Next, Marked, PendingFrom;
    if steps != [] {
      var before, last := Run(w, config, steps[..|steps| - 1]), steps[|steps| - 1];
      ThreeViewsAgree(w, config, steps[..|steps| - 1]);
      match last
      case Dispatching(around) =>
        if before.batch != [] {
          var command := CommandAt(before.commands, before.batch[0]);
          DispatchKeepsViews(before.world, config, before.shown, command.kind, command.routeId, around(before.batch[0]));
        }
      case Between(move) =>
        if move.DeliverMove? || move.RowsMove? {
          BetweenKeepsViews(before.world, config, move);
        }
      case Replace =>
        RestartInStep(before.world, config);
        RestartShowsNothing(before.world, config);
      case _ =>
    }
  }

  lemma RestartShowsNothing(w: World, config: Config)
    ensures Sync(ListenerRuns.Next(w, config, RestartMove).order) == Shown([], 0)
  {
  }

  /** A worker that shuts down with no route deleted leaves nothing running and every status stopped. */
  lemma {:induction false} ShutdownStopsEverything(w: World, ids: seq<int>)
    requires InStep(w) && forall id | id in w.active :: id in ids
    requires forall id | id in ids :: id in w.tables.rows
    ensures var (w', completed) := StopAll(w, ids);
            completed && forall id: int :: id !in w'.active && StatusOf(w'.tables, id) == Stopped
    decreases |ids|
  {
    if ids != [] {
      assert ids[0] in ids;
      StopInStep(w, ids[0]);
      var w1 := Stop(w, ids[0]).0;
      assert forall id :: id in ids <==> id == ids[0] || id in ids[1..];
      ShutdownStopsEverything(w1, ids[1..]);
    }
  }

  // ---------- one call of _process_commands is a run ----------

  lemma {:induction false} RunFirst(w: Worker, config: Config, step: Step, steps: seq<Step>)
    ensures Run(w, config, [step] + steps) == Run(Advance(w, config, step), config, steps)
  {
    hide Advance;
    var all := [step] + steps;
    if steps == [] {
      assert all[..0] == [];
    } else {
      assert all[..|all| - 1] == [step] + steps[..|steps| - 1];
      RunFirst(w, config, step, steps[..|steps| - 1]);
    }
  }

  lemma {:induction false} ServeIsRun(w: Worker, config: Config, around: int -> StartSurroundings) returns (steps: seq<Step>)
    ensures Run(w, config, steps) == Serve(w, config, around) && forall step | step in steps :: !step.Replace?
    decreases |w.batch|
  {
    hide Begin, Finish;
    steps := [];
    if w.batch != [] && w.running.None? && !w.stopped {
      var served := Finish(Begin(w, config, around));
      BatchShrinks(w, config, around);
      var rest := ServeIsRun(served, config, around);
      RunFirst(Begin(w, config, around), config, Completing, rest);
      RunFirst(w, config, Dispatching(around), [Completing] + rest);
      steps := [Dispatching(around)] + ([Completing] + rest);
    }
  }

  lemma BatchShrinks(w: Worker, config: Config, around: int -> StartSurroundings)
    requires w.batch != [] && w.running.None? && !w.stopped
    ensures Finish(Begin(w, config, around)).batch == w.batch[1..]
  {
    hide Dispatch, Marked;
  }

  /** What one call of _process_commands does is a run of the queue, so all of the above holds of it. */
  lemma ProcessCommandsIsRun(w: Worker, config: Config, around: int -> StartSurroundings) returns (steps: seq<Step>)
    ensures Run(w, config, steps) == Serve(Poll(w), config, around) && forall step | step in steps :: !step.Replace?
  {
    hide Poll, Serve;
    var rest := ServeIsRun(Poll(w), config, around);
    RunFirst(w, config, Claim, rest);
    steps := [Claim] + rest;
  }
}
