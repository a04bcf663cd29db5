/**
 The one-shot permission over whole runs: what any sequence of requests keeps, and that no arm
 authorises two publishes however the dashboard's transactions interleave with the listener's
 (integrations/telegram: dashboard_api.py, dashboard_store.py, route_listener_service.py).
 */
module CandidateRuns {
  import opened Wrappers
  import opened Timestamps
  import opened CandidateTest

  // ---------- requests, each one atomic ----------

  datatype Request =
    | ArmRoute(id: int, now: nat)
    | DisarmRoute(id: int)
    | ReadRoutes(now: nat)
    | RecordPublish(id: int, now: nat)
    | BlockRoute(id: int, reason: string)
    | CreateRoute(id: int, name: string, channelTitle: string, target: Target)
    | UpdateRoute(id: int, name: string, isEnabled: bool)
    | DeleteRoute(id: int)

  function NewRoute(name: string, channelTitle: string, target: Target): Route {
    Route(name, true, channelTitle, target, ObserverOnly, None, None, None, 0, None)
  }

  function Apply(rows: Rows, request: Request): Rows {
    match request
    case ArmRoute(id, now) => Arm(rows, id, now)
    case DisarmRoute(id) => if id in rows then rows[id := DisarmedRow(rows[id])] else rows
    case ReadRoutes(now) => ExpireArms(rows, now)
    case RecordPublish(id, now) =>
      var current := ExpireArms(rows, now);
      if id in current && current[id].mode == Armed then current[id := ConsumedRow(current[id])] else current
    case BlockRoute(id, reason) => if id in rows then rows[id := BlockedRow(rows[id], reason)] else rows
    case CreateRoute(id, name, title, target) => if id in rows then rows else rows[id := NewRoute(name, title, target)]
    case UpdateRoute(id, name, isEnabled) =>
      if id in rows then rows[id := rows[id].(name := name, isEnabled := isEnabled)] else rows
    case DeleteRoute(id) => rows - {id}
  }

  function Run(rows: Rows, requests: seq<Request>): Rows {
    if requests == [] then rows else Apply(Run(rows, requests[..|requests| - 1]), requests[|requests| - 1])
  }

  /** The clock shows a four-digit year, also when the permission runs out. */
  predicate Clocked(request: Request) {
    request.ArmRoute? ==> FourDigitYear(request.now / 1_000_000) && FourDigitYear(request.now / 1_000_000 + 900)
  }

  /** Armed at a whole second, with nothing published and exactly the time to live ahead. */
  ghost predicate ArmedFor(route: Route, start: nat) {
    && FourDigitYear(start) && FourDigitYear(start + 900)
    && route.armedAt == Some(Iso(start)) && route.expiresAt == Some(Iso(start + 900))
  }

  ghost predicate RowSound(route: Route) {
    && 0 <= route.publishCount <= 1
    && (route.mode == Armed ==> route.publishCount == 0 && exists start: nat :: ArmedFor(route, start))
    && (route.mode == Consumed ==> route.publishCount == 1)
    && (route.publishCount == 1 ==> route.mode in {Consumed, Blocked})
  }

  ghost predicate AtMostOneArmed(rows: Rows) {
    forall i, j | i in rows && j in rows && rows[i].mode == Armed && rows[j].mode == Armed :: i == j
  }

  ghost predicate Sound(rows: Rows) {
    AtMostOneArmed(rows) && forall id | id in rows :: RowSound(rows[id])
  }

  lemma ExpireKeepsSound(rows: Rows, now: nat)
    requires Sound(rows)
    ensures Sound(ExpireArms(rows, now))
  {
    hide TextAtMost, Iso, ArmedFor;
    var rows' := ExpireArms(rows, now);
    forall id | id in rows' ensures RowSound(rows'[id]) {
      assert RowSound(rows[id]);
    }
  }

  lemma OneRowSound(rows: Rows, id: int, route: Route)
    requires Sound(rows) && RowSound(route)
    requires route.mode == Armed ==> forall other | other in rows && rows[other].mode == Armed :: other == id
    ensures Sound(rows[id := route])
  {
    hide RowSound;
  }

  lemma ArmKeepsSound(rows: Rows, id: int, now: nat)
    requires Sound(rows) && FourDigitYear(now / MICROS) && FourDigitYear(now / MICROS + TTL_SECONDS)
    ensures Sound(Arm(rows, id, now))
  {
    hide ExpireArms, Iso, FourDigitYear;
    ExpireKeepsSound(rows, now);
    var current := ExpireArms(rows, now);
    if CanArm(current, id) {
      NobodyElseArmed(current, id);
      var route := ArmedRow(current[id], now);
      assert ArmedFor(route, now / MICROS);
      OneRowSound(current, id, route);
    }
  }

  lemma NobodyElseArmed(rows: Rows, id: int)
    requires CanArm(rows, id)
    ensures forall other | other in rows && rows[other].mode == Armed :: other == id
    ensures rows[id].mode == ObserverOnly
  {
    assert ArmedIds(rows) - {id} == {};
    forall other | other in rows && rows[other].mode == Armed ensures other == id {
      assert other in ArmedIds(rows);
    }
  }

  lemma ApplyKeepsSound(rows: Rows, request: Request)
    requires Sound(rows) && Clocked(request)
    ensures Sound(Apply(rows, request))
  {
    hide ExpireArms, Arm, ArmedFor;
    match request
    case ArmRoute(id, now) => ArmKeepsSound(rows, id, now);
    case ReadRoutes(now) => ExpireKeepsSound(rows, now);
    case RecordPublish(id, now) =>
      ExpireKeepsSound(rows, now);
      var current := ExpireArms(rows, now);
      if id in current && current[id].mode == Armed {
        OneRowSound(current, id, ConsumedRow(current[id]));
      }
    case DisarmRoute(id) =>
      if id in rows {
        OneRowSound(rows, id, DisarmedRow(rows[id]));
      }
    case BlockRoute(id, reason) =>
      if id in rows {
        OneRowSound(rows, id, BlockedRow(rows[id], reason));
      }
    case CreateRoute(id, name, title, target) => OneRowSound(rows, id, NewRoute(name, title, target));
    case UpdateRoute(id, name, isEnabled) =>
      if id in rows {
        UpdateKeepsRowSound(rows[id], name, isEnabled);
        OneRowSound(rows, id, rows[id].(name := name, isEnabled := isEnabled));
      }
    case DeleteRoute(id) =>
  }

  lemma UpdateKeepsRowSound(route: Route, name: string, isEnabled: bool)
    requires RowSound(route)
    ensures RowSound(route.(name := name, isEnabled := isEnabled))
  {
    if route.mode == Armed {
      var start: nat :| ArmedFor(route, start);
      assert ArmedFor(route.(name := name, isEnabled := isEnabled), start);
    }
  }

  /**
   Over any run of requests at most one route is armed; an armed route has published nothing and
   expires exactly 900 seconds after it was armed; a consumed one has published once, and none more.
   */
  lemma {:induction false} RunKeepsSound(rows: Rows, requests: seq<Request>)
    requires Sound(rows) && forall request | request in requests :: Clocked(request)
    ensures Sound(Run(rows, requests))
  {
    hide Apply, Sound;
    if requests != [] {
      assert requests[|requests| - 1] in requests;
      RunKeepsSound(rows, requests[..|requests| - 1]);
      ApplyKeepsSound(Run(rows, requests[..|requests| - 1]), requests[|requests| - 1]);
    }
  }

  /**
   Over any run of requests that starts with nothing armed, every armed row was armable when the
   request that armed it came, and shows that request's time: its test runs out 900 seconds later.
   */
  lemma {:induction false} ArmedWasArmable(rows: Rows, requests: seq<Request>, id: int) returns (n: nat)
    requires forall other | other in rows :: rows[other].mode != Armed
    requires id in Run(rows, requests) && Run(rows, requests)[id].mode == Armed
    ensures n < |requests| && requests[n].ArmRoute? && requests[n].id == id
    ensures Armable(ExpireArms(Run(rows, requests[..n]), requests[n].now), id)
    ensures var row, second := Run(rows, requests)[id], requests[n].now / 1_000_000;
            row.armedAt == Some(Iso(second)) && row.expiresAt == Some(Iso(second + 900))
    ensures forall k | n < k < |requests| :: requests[k] != DisarmRoute(id) && requests[k] != DeleteRoute(id)
  {
    hide Apply, Armable, Iso, Due;
    if requests == [] {
      assert false;
    }
    var front, last := requests[..|requests| - 1], requests[|requests| - 1];
    ArmedByOrBefore(Run(rows, front), last, id);
    if last.ArmRoute? && last.id == id && Armable(ExpireArms(Run(rows, front), last.now), id) {
      n := |requests| - 1;
    } else {
      n := ArmedWasArmable(rows, front, id);
      assert front[..n] == requests[..n];
    }
  }

  /** A row is armed by the request itself, or was armed before, as it is. */
  lemma ArmedByOrBefore(rows: Rows, request: Request, id: int)
    requires id in Apply(rows, request) && Apply(rows, request)[id].mode == Armed
    ensures var after := Apply(rows, request)[id];
            if request.ArmRoute? && request.id == id && Armable(ExpireArms(rows, request.now), id) then
              after.armedAt == Some(Iso(request.now / 1_000_000)) && after.expiresAt == Some(Iso(request.now / 1_000_000 + 900))
            else
              && request != DisarmRoute(id) && request != DeleteRoute(id)
              && id in rows && rows[id].mode == Armed && rows[id].armedAt == after.armedAt && rows[id].expiresAt == after.expiresAt
  {
    hide CanArm, Armable, Iso, Due;
    if request.ArmRoute? {
      CanArmIff(ExpireArms(rows, request.now), request.id);
    }
  }

  predicate Spent(mode: Mode) { mode in {Consumed, Expired, Blocked} }

  /** A consumed, expired or blocked route stays so until it is disarmed or deleted. */
  lemma {:induction false} SpentUntilDisarmed(rows: Rows, requests: seq<Request>, id: int)
    requires id in rows && Spent(rows[id].mode)
    requires DisarmRoute(id) !in requests && DeleteRoute(id) !in requests
    ensures id in Run(rows, requests) && Spent(Run(rows, requests)[id].mode)
  {
    hide ValidateArmEligibility, Due, Apply;
    if requests != [] {
      var front, last := requests[..|requests| - 1], requests[|requests| - 1];
      assert last in requests;
      SpentUntilDisarmed(rows, front, id);
      SpentStep(Run(rows, front), last, id);
    }
  }

  lemma SpentStep(rows: Rows, request: Request, id: int)
    requires id in rows && Spent(rows[id].mode) && request != DisarmRoute(id) && request != DeleteRoute(id)
    ensures id in Apply(rows, request) && Spent(Apply(rows, request)[id].mode)
  {
    hide ValidateArmEligibility, Due;
    if request.ArmRoute? && CanArm(ExpireArms(rows, request.now), request.id) {
      NobodyElseArmed(ExpireArms(rows, request.now), request.id);
    }
  }

  lemma ArmedRowIsArmed(route: Route, now: nat)
    ensures ArmedRow(route, now).mode == Armed
  {
  }

  /** With the check and the write of an arm request apart, two requests can both pass and both write. */
  lemma SplitArmBreaksTheBound(rows: Rows, i: int, j: int, now: nat)
    requires i != j && CanArm(ExpireArms(rows, now), i) && CanArm(ExpireArms(rows, now), j)
    ensures var current := ExpireArms(rows, now);
            var written := current[i := ArmedRow(current[i], now)][j := ArmedRow(current[j], now)];
            !AtMostOneArmed(written)
  {
    hide ExpireArms, ArmBlock, ArmedRow;
    ArmedRowIsArmed(ExpireArms(rows, now)[i], now);
    ArmedRowIsArmed(ExpireArms(rows, now)[j], now);
    var current := ExpireArms(rows, now);
    var written := current[i := ArmedRow(current[i], now)][j := ArmedRow(current[j], now)];
    assert written[i].mode == Armed && written[j].mode == Armed;
  }

  /** Right after a route's detail is read, the permission test never answers `expired`: reading has expired it. */
  lemma ReadingSettlesExpiry(rows: Rows, id: int, now: nat)
    requires Sound(rows) && id in rows && FourDigitYear(now / MICROS)
    ensures EvaluateRealPublishPermission(ExpireArms(rows, now)[id], true, false, now) != Some(CandidateTestExpired)
    ensures EvaluateRealPublishPermission(ExpireArms(rows, now)[id], true, false, now).None? <==>
              rows[id].mode == Armed && !Due(rows[id], now)
  {
    hide Iso, ParseIso, FourDigitYear, TextAtMost;
    assert RowSound(rows[id]);
    if rows[id].mode == Armed {
      var start: nat :| ArmedFor(rows[id], start);
      ExpiryTestsAgree(start + TTL_SECONDS, now);
      IsoRoundTrip(start + TTL_SECONDS);
    }
  }

  // ---------- transactions that interleave ----------

  /** What a publish rests on: one particular arm of a route, or a route row that was gone when asked for. */
  datatype Authority = ArmOf(route: int, number: nat) | NoRow

  /** Where the listener of a route stands in `_process_message`. */
  datatype Phase =
    | Idle
    | Detected
    | Cleared(authority: Authority)
    | Published(authority: Authority)
    | Consuming(authority: Authority)

  function NumberAt(arms: map<int, nat>, id: int): nat { if id in arms then arms[id] else 0 }

  function PhaseAt(phases: map<int, Phase>, id: int): Phase { if id in phases then phases[id] else Idle }

  /** `arms` numbers the arms of each route; `published` lists the successful publishes. */
  datatype System = System(rows: Rows, arms: map<int, nat>, phases: map<int, Phase>, published: seq<Authority>) {
    function CurrentArm(id: int): Authority { ArmOf(id, NumberAt(arms, id)) }
    function Move(id: int, phase: Phase): System { this.(phases := phases[id := phase]) }
  }

  /** One transaction, or one move of a listener, or its death. */
  datatype Step =
    | WriteArm(id: int, now: nat)
    | WriteDisarm(id: int)
    | WriteExpiry(now: nat)
    | WriteBlock(id: int, reason: string)
    | WriteNew(id: int, route: Route)
    | Remove(id: int)
    | Detect(id: int)
    | Check(id: int, now: nat)
    | FinishPublish(id: int, succeeded: bool)
    | ReadMode(id: int)
    | WriteConsumed(id: int)
    | Crash(id: int)

  /** The listener goes on when there is no row to ask, or when the row permits. */
  predicate Clears(rows: Rows, id: int, now: nat) {
    id in rows ==> EvaluateRealPublishPermission(rows[id], true, false, now).None?
  }

  function Next(s: System, step: Step): System {
    match step
    case WriteArm(id, now) =>
      if id in s.rows then s.(rows := s.rows[id := ArmedRow(s.rows[id], now)], arms := s.arms[id := NumberAt(s.arms, id) + 1]) else s
    case WriteDisarm(id) => if id in s.rows then s.(rows := s.rows[id := DisarmedRow(s.rows[id])]) else s
    case WriteExpiry(now) => s.(rows := ExpireArms(s.rows, now))
    case WriteBlock(id, reason) => if id in s.rows then s.(rows := s.rows[id := BlockedRow(s.rows[id], reason)]) else s
    case WriteNew(id, route) =>
      if id in s.rows || route.mode != ObserverOnly || route.publishCount != 0 then s else s.(rows := s.rows[id := route])
    case Remove(id) => s.(rows := s.rows - {id})
    case Detect(id) => if PhaseAt(s.phases, id) == Idle && id in s.rows then s.Move(id, Detected) else s
    case Check(id, now) =>
      if PhaseAt(s.phases, id) != Detected then s
      else if Clears(s.rows, id, now) then s.Move(id, Cleared(if id in s.rows then s.CurrentArm(id) else NoRow))
      else s.Move(id, Idle)
    case FinishPublish(id, succeeded) =>
      (match PhaseAt(s.phases, id)
       case Cleared(authority) =>
         if succeeded then s.Move(id, Published(authority)).(published := s.published + [authority]) else s.Move(id, Idle)
       case _ => s)
    case ReadMode(id) =>
      (match PhaseAt(s.phases, id)
       case Published(authority) =>
         if id in s.rows && s.rows[id].mode == Armed then s.Move(id, Consuming(authority)) else s.Move(id, Idle)
       case _ => s)
    case WriteConsumed(id) =>
      if PhaseAt(s.phases, id).Consuming? then
        (if id in s.rows then s.(rows := s.rows[id := ConsumedRow(s.rows[id])]) else s).Move(id, Idle)
      else s
    case Crash(id) => s.Move(id, Idle)
  }

  function Interleave(s: System, steps: seq<Step>): System {
    if steps == [] then s else Next(Interleave(s, steps[..|steps| - 1]), steps[|steps| - 1])
  }

  ghost predicate CountsSound(s: System) {
    forall id | id in s.rows ::
      && 0 <= s.rows[id].publishCount <= 1
      && (s.rows[id].mode == Armed || PhaseAt(s.phases, id).Consuming? ==> s.rows[id].publishCount == 0)
  }

  /** An arm that has published is being consumed, or its route is no longer armed by it. */
  ghost predicate SpentArmsClose(s: System) {
    forall id | id in s.rows && s.rows[id].mode == Armed && s.CurrentArm(id) in s.published ::
      PhaseAt(s.phases, id) in {Published(s.CurrentArm(id)), Consuming(s.CurrentArm(id))}
  }

  /** A cleared listener rests on an arm of its own route that has not published. */
  ghost predicate ClearedArmsOpen(s: System) {
    forall id | PhaseAt(s.phases, id).Cleared? && PhaseAt(s.phases, id).authority.ArmOf? ::
      && PhaseAt(s.phases, id).authority.route == id
      && PhaseAt(s.phases, id).authority.number <= NumberAt(s.arms, id)
      && PhaseAt(s.phases, id).authority !in s.published
  }

  ghost predicate ArmsNumbered(s: System) {
    forall a | a in s.published && a.ArmOf? :: a.number <= NumberAt(s.arms, a.route)
  }

  ghost predicate ArmsSound(s: System) {
    SpentArmsClose(s) && ClearedArmsOpen(s) && ArmsNumbered(s)
  }

  ghost predicate OncePerArm(published: seq<Authority>) {
    forall i, j | 0 <= i < j < |published| && published[i].ArmOf? :: published[i] != published[j]
  }

  ghost predicate Safe(s: System) {
    CountsSound(s) && ArmsSound(s) && OncePerArm(s.published)
  }

  lemma NextKeepsCounts(s: System, step: Step)
    requires CountsSound(s)
    ensures CountsSound(Next(s, step))
  {
    hide Due, Iso, EvaluateRealPublishPermission;
  }

  /** Transactions on the rows leave phases and publishes alone; only a new arm, under a new number, arms. */
  lemma RowStepKeepsArms(s: System, s': System, armed: int)
    requires ArmsSound(s) && s'.phases == s.phases && s'.published == s.published
    requires s'.arms in {s.arms, s.arms[armed := NumberAt(s.arms, armed) + 1]}
    requires forall id | id in s'.rows && s'.rows[id].mode == Armed ::
               (id == armed && s'.arms != s.arms) || (id in s.rows && s.rows[id].mode == Armed)
    ensures ArmsSound(s')
  {
    forall id | id in s'.rows && s'.rows[id].mode == Armed && s'.CurrentArm(id) in s'.published
      ensures PhaseAt(s'.phases, id) in {Published(s'.CurrentArm(id)), Consuming(s'.CurrentArm(id))}
    {
      assert s'.CurrentArm(id).number <= NumberAt(s.arms, id);
      assert s.CurrentArm(id) == s'.CurrentArm(id);
    }
  }

  /** A listener's move away from `Cleared` keeps the arms sound if it adds at most its own authority. */
  lemma MoveKeepsArms(s: System, id: int, phase: Phase, rows: Rows)
    requires ArmsSound(s) && !phase.Cleared?
    requires forall other | other in rows && rows[other].mode == Armed :: other in s.rows && s.rows[other].mode == Armed
    requires id in rows && rows[id].mode == Armed && s.CurrentArm(id) in s.published ==>
               phase in {Published(s.CurrentArm(id)), Consuming(s.CurrentArm(id))}
    ensures ArmsSound(s.Move(id, phase).(rows := rows))
  {
    var s' := s.Move(id, phase).(rows := rows);
    forall other | other != id ensures PhaseAt(s'.phases, other) == PhaseAt(s.phases, other) {
    }
    assert PhaseAt(s'.phases, id) == phase;
  }

  lemma CheckKeepsArms(s: System, id: int)
    requires ArmsSound(s) && PhaseAt(s.phases, id) == Detected
    requires id in s.rows ==> s.rows[id].mode == Armed
    ensures ArmsSound(s.Move(id, Cleared(if id in s.rows then s.CurrentArm(id) else NoRow)))
  {
    var s' := s.Move(id, Cleared(if id in s.rows then s.CurrentArm(id) else NoRow));
    forall other | other != id ensures PhaseAt(s'.phases, other) == PhaseAt(s.phases, other) {
    }
  }

  lemma PublishKeepsArms(s: System, id: int)
    requires ArmsSound(s) && PhaseAt(s.phases, id).Cleared?
    ensures var authority := PhaseAt(s.phases, id).authority;
            ArmsSound(s.Move(id, Published(authority)).(published := s.published + [authority]))
  {
    var authority := PhaseAt(s.phases, id).authority;
    var s' := s.Move(id, Published(authority)).(published := s.published + [authority]);
    forall other | other != id ensures PhaseAt(s'.phases, other) == PhaseAt(s.phases, other) {
    }
    assert PhaseAt(s'.phases, id) == Published(authority);
    assert forall a :: a in s'.published <==> a in s.published || a == authority;
  }

  /** A listener may die at any time but while its route is armed by the arm it has published under. */
  predicate Harmless(s: System, step: Step) {
    step.Crash? ==> !(step.id in s.rows && s.rows[step.id].mode == Armed && s.CurrentArm(step.id) in s.published)
  }

  lemma NextKeepsArms(s: System, step: Step)
    requires CountsSound(s) && ArmsSound(s) && Harmless(s, step)
    ensures ArmsSound(Next(s, step))
  {
    hide ArmsSound, Next, CountsSound;
    match step
    case Crash(id) =>
      MoveKeepsArms(s, id, Idle, s.rows);
      CrashMoves(s, id);
    case Detect(id) => ListenerKeepsArms(s, step);
    case Check(id, now) => ListenerKeepsArms(s, step);
    case FinishPublish(id, succeeded) => ListenerKeepsArms(s, step);
    case ReadMode(id) => ListenerKeepsArms(s, step);
    case WriteConsumed(id) => ListenerKeepsArms(s, step);
    case _ => RowsKeepArms(s, step);
  }

  lemma CrashMoves(s: System, id: int)
    ensures Next(s, Crash(id)) == s.Move(id, Idle).(rows := s.rows)
  {
  }

  lemma RowsKeepArms(s: System, step: Step)
    requires ArmsSound(s)
    requires !step.Detect? && !step.Check? && !step.FinishPublish? && !step.ReadMode? && !step.WriteConsumed? && !step.Crash?
    ensures ArmsSound(Next(s, step))
  {
    hide Due, Iso, ArmsSound;
    RowStepKeepsArms(s, Next(s, step), if step.WriteExpiry? then 0 else step.id);
  }

  lemma ListenerKeepsArms(s: System, step: Step)
    requires CountsSound(s) && ArmsSound(s)
    requires step.Detect? || step.Check? || step.FinishPublish? || step.ReadMode? || step.WriteConsumed?
    ensures ArmsSound(Next(s, step))
  {
    hide ArmsSound, EvaluateRealPublishPermission;
    match step
    case Detect(id) =>
      if PhaseAt(s.phases, id) == Idle {
        OpenArmIsUnpublished(s, id);
        MoveKeepsArms(s, id, Detected, s.rows);
      }
    case Check(id, now) =>
      PermissionNeedsArm(s.rows, id, now);
      if PhaseAt(s.phases, id) == Detected {
        OpenArmIsUnpublished(s, id);
        MoveKeepsArms(s, id, Idle, s.rows);
        if Clears(s.rows, id, now) {
          CheckKeepsArms(s, id);
        }
      }
    case FinishPublish(id, succeeded) =>
      if PhaseAt(s.phases, id).Cleared? {
        PublishKeepsArms(s, id);
        OpenArmIsUnpublished(s, id);
        MoveKeepsArms(s, id, Idle, s.rows);
      }
    case ReadMode(id) =>
      if PhaseAt(s.phases, id).Published? {
        PublishedIsCurrent(s, id);
        if id in s.rows && s.rows[id].mode == Armed {
          MoveKeepsArms(s, id, Consuming(PhaseAt(s.phases, id).authority), s.rows);
        } else {
          MoveKeepsArms(s, id, Idle, s.rows);
        }
      }
    case WriteConsumed(id) =>
      if PhaseAt(s.phases, id).Consuming? {
        MoveKeepsArms(s, id, Idle, if id in s.rows then s.rows[id := ConsumedRow(s.rows[id])] else s.rows);
      }
  }

  lemma PermissionNeedsArm(rows: Rows, id: int, now: nat)
    ensures id in rows && Clears(rows, id, now) ==> rows[id].mode == Armed
  {
    hide IsArmExpired;
  }

  /** A route whose listener has not just published has not published under its current arm. */
  lemma OpenArmIsUnpublished(s: System, id: int)
    requires ArmsSound(s) && !PhaseAt(s.phases, id).Published? && !PhaseAt(s.phases, id).Consuming?
    ensures id in s.rows && s.rows[id].mode == Armed ==> s.CurrentArm(id) !in s.published
  {
  }

  lemma PublishedIsCurrent(s: System, id: int)
    requires ArmsSound(s) && PhaseAt(s.phases, id).Published?
    ensures id in s.rows && s.rows[id].mode == Armed && s.CurrentArm(id) in s.published ==>
              PhaseAt(s.phases, id).authority == s.CurrentArm(id)
  {
  }

  lemma NextKeepsOnce(s: System, step: Step)
    requires ArmsSound(s) && OncePerArm(s.published)
    ensures OncePerArm(Next(s, step).published)
  {
    hide Due, Iso, EvaluateRealPublishPermission;
  }

  /** Every death on the way is harmless. */
  ghost predicate HarmlessDeaths(s: System, steps: seq<Step>) {
    steps == [] ||
    (HarmlessDeaths(s, steps[..|steps| - 1]) && Harmless(Interleave(s, steps[..|steps| - 1]), steps[|steps| - 1]))
  }

  /**
   No arm authorises two successful publishes, and no row ever counts more than one, however the
   transactions of any number of routes interleave and wherever listeners die, as long as none dies
   while its route is still armed by the arm it has just published under.
   */
  lemma {:induction false} AtMostOncePerArm(s: System, steps: seq<Step>)
    requires Safe(s) && HarmlessDeaths(s, steps)
    ensures Safe(Interleave(s, steps))
  {
    hide Next, CountsSound, ArmsSound, OncePerArm, Harmless;
    if steps != [] {
      var front, last := steps[..|steps| - 1], steps[|steps| - 1];
      AtMostOncePerArm(s, front);
      NextKeepsCounts(Interleave(s, front), last);
      NextKeepsArms(Interleave(s, front), last);
      NextKeepsOnce(Interleave(s, front), last);
    }
  }

  lemma {:induction false} NoDeathsNoHarm(s: System, steps: seq<Step>)
    requires forall step | step in steps :: !step.Crash?
    ensures HarmlessDeaths(s, steps)
  {
    hide Next;
    if steps != [] {
      assert steps[|steps| - 1] in steps;
      NoDeathsNoHarm(s, steps[..|steps| - 1]);
    }
  }

  /** So deaths of listeners that have not published, or have settled, never matter. */
  lemma DeathBeforePublishIsHarmless(s: System, id: int)
    requires Safe(s) && !PhaseAt(s.phases, id).Published? && !PhaseAt(s.phases, id).Consuming?
    ensures Harmless(s, Crash(id))
  {
    hide CountsSound, OncePerArm, ArmsSound;
    OpenArmIsUnpublished(s, id);
  }

  /** Every start is safe: no publish yet, no listener at work, and rows as `RunKeepsSound` leaves them. */
  lemma StartIsSafe(rows: Rows)
    requires Sound(rows)
    ensures Safe(System(rows, map[], map[], []))
  {
    hide ArmedFor;
    forall id | id in rows ensures 0 <= rows[id].publishCount <= 1 && (rows[id].mode == Armed ==> rows[id].publishCount == 0) {
      assert RowSound(rows[id]);
    }
  }

  // ---------- what a harmful death allows ----------

  function PublishedSince(s: System, steps: seq<Step>): seq<Authority> {
    var published := Interleave(s, steps).published;
    if |s.published| <= |published| then published[|s.published|..] else []
  }

  /** No check before the given instant. */
  predicate ChecksFrom(steps: seq<Step>, from: nat) {
    forall step | step in steps && step.Check? :: step.now >= from
  }

  /** The arm cannot publish any more, whatever happens from the given instant on. */
  ghost predicate Shut(s: System, id: int, number: nat, from: nat) {
    && number <= NumberAt(s.arms, id)
    && !(id in s.rows && s.CurrentArm(id) == ArmOf(id, number) && Clears(s.rows, id, from))
    && forall other :: PhaseAt(s.phases, other) != Cleared(ArmOf(id, number))
  }

  lemma ExpiryStays(row: Route, from: nat, now: nat)
    requires from <= now
    ensures IsArmExpired(row, from) ==> IsArmExpired(row, now)
  {
    hide ParseIso;
  }

  lemma ClearsEarlier(rows: Rows, id: int, from: nat, now: nat)
    requires from <= now && id in rows && Clears(rows, id, now)
    ensures Clears(rows, id, from)
  {
    hide IsArmExpired;
    ExpiryStays(rows[id], from, now);
  }

  /** What happens to a row other than by arming never makes a refused row permitted. */
  lemma RefusedStays(row: Route, row': Route, now: nat)
    requires EvaluateRealPublishPermission(row, true, false, now).Some?
    requires row'.mode != Armed
             || (row'.mode == row.mode && row'.expiresAt == row.expiresAt && row'.publishCount >= row.publishCount)
    ensures EvaluateRealPublishPermission(row', true, false, now).Some?
  {
    hide ParseIso;
  }

  lemma ShutRows(s: System, step: Step, id: int, number: nat, from: nat)
    requires Shut(s, id, number, from)
    requires !step.Detect? && !step.Check? && !step.FinishPublish? && !step.ReadMode? && !step.WriteConsumed? && !step.Crash?
    ensures Shut(Next(s, step), id, number, from) && Next(s, step).published == s.published
  {
    hide Due, Iso, EvaluateRealPublishPermission;
    var s' := Next(s, step);
    if id in s'.rows && s'.CurrentArm(id) == ArmOf(id, number) {
      if id in s.rows {
        RefusedStays(s.rows[id], s'.rows[id], from);
      } else {
        NewRowRefuses(s'.rows[id], from);
      }
    }
  }

  lemma NewRowRefuses(row: Route, now: nat)
    ensures row.mode == ObserverOnly ==> EvaluateRealPublishPermission(row, true, false, now).Some?
  {
  }

  lemma ShutStep(s: System, step: Step, id: int, number: nat, from: nat)
    requires Shut(s, id, number, from) && (step.Check? ==> step.now >= from)
    ensures Shut(Next(s, step), id, number, from)
    ensures Next(s, step).published == s.published
            || exists a :: a != ArmOf(id, number) && Next(s, step).published == s.published + [a]
  {
    hide EvaluateRealPublishPermission, ConsumedRow, Shut;
    var arm := ArmOf(id, number);
    match step
    case Detect(other) => ShutMove(s, id, number, from, other, Detected);
    case Check(other, now) =>
      ShutMove(s, id, number, from, other, Idle);
      if Clears(s.rows, other, now) {
        if other == id && id in s.rows {
          ClearsEarlier(s.rows, id, from, now);
          ShutRefuses(s, id, number, from);
        }
        ShutMove(s, id, number, from, other, Cleared(if other in s.rows then s.CurrentArm(other) else NoRow));
      }
    case FinishPublish(other, succeeded) =>
      ShutMove(s, id, number, from, other, Idle);
      if PhaseAt(s.phases, other).Cleared? {
        ShutClears(s, id, number, from, other);
        ShutMove(s, id, number, from, other, Published(PhaseAt(s.phases, other).authority));
        ShutPublishes(s.Move(other, Published(PhaseAt(s.phases, other).authority)), id, number, from,
                      s.published + [PhaseAt(s.phases, other).authority]);
      }
    case ReadMode(other) =>
      ShutMove(s, id, number, from, other, Idle);
      if PhaseAt(s.phases, other).Published? {
        ShutMove(s, id, number, from, other, Consuming(PhaseAt(s.phases, other).authority));
      }
    case WriteConsumed(other) =>
      ShutMove(s, id, number, from, other, Idle);
      if other in s.rows {
        ShutConsumes(s, id, number, from, other);
        ShutMove(s.(rows := s.rows[other := ConsumedRow(s.rows[other])]), id, number, from, other, Idle);
      }
    case Crash(other) => ShutMove(s, id, number, from, other, Idle);
    case _ => ShutRows(s, step, id, number, from);
  }

  lemma ShutMove(s: System, id: int, number: nat, from: nat, other: int, phase: Phase)
    requires Shut(s, id, number, from) && phase != Cleared(ArmOf(id, number))
    ensures Shut(s.Move(other, phase), id, number, from)
  {
    hide EvaluateRealPublishPermission;
    var s' := s.Move(other, phase);
    forall any ensures PhaseAt(s'.phases, any) == if any == other then phase else PhaseAt(s.phases, any) {
    }
  }

  lemma ShutRefuses(s: System, id: int, number: nat, from: nat)
    requires Shut(s, id, number, from) && id in s.rows && Clears(s.rows, id, from)
    ensures s.CurrentArm(id) != ArmOf(id, number)
  {
  }

  lemma ShutClears(s: System, id: int, number: nat, from: nat, other: int)
    requires Shut(s, id, number, from) && PhaseAt(s.phases, other).Cleared?
    ensures PhaseAt(s.phases, other).authority != ArmOf(id, number)
  {
  }

  lemma ShutPublishes(s: System, id: int, number: nat, from: nat, published: seq<Authority>)
    requires Shut(s, id, number, from)
    ensures Shut(s.(published := published), id, number, from)
  {
  }

  lemma ShutConsumes(s: System, id: int, number: nat, from: nat, other: int)
    requires Shut(s, id, number, from) && other in s.rows
    ensures Shut(s.(rows := s.rows[other := ConsumedRow(s.rows[other])]), id, number, from)
  {
    hide EvaluateRealPublishPermission;
    if other == id && EvaluateRealPublishPermission(s.rows[id], true, false, from).Some? {
      RefusedStays(s.rows[id], ConsumedRow(s.rows[id]), from);
    }
  }

  lemma {:induction false} ShutForEver(s: System, steps: seq<Step>, id: int, number: nat, from: nat)
    requires Shut(s, id, number, from) && ChecksFrom(steps, from)
    ensures Shut(Interleave(s, steps), id, number, from) && s.published <= Interleave(s, steps).published
    ensures ArmOf(id, number) !in PublishedSince(s, steps)
  {
    hide Next, Shut;
    if steps != [] {
      var front, last := steps[..|steps| - 1], steps[|steps| - 1];
      assert last in steps;
      ShutForEver(s, front, id, number, from);
      ShutStep(Interleave(s, front), last, id, number, from);
    }
  }

  lemma OpenPublishes(s: System, id: int, from: nat)
    requires id in s.rows && PhaseAt(s.phases, id) == Idle && Clears(s.rows, id, from)
    ensures var steps := [Detect(id), Check(id, from), FinishPublish(id, true)];
            Interleave(s, steps) == PublishOnce(s, id, from) && PublishedSince(s, steps) == [s.CurrentArm(id)]
  {
    hide EvaluateRealPublishPermission;
    var steps := [Detect(id), Check(id, from), FinishPublish(id, true)];
    assert steps[..2] == [Detect(id), Check(id, from)] && steps[..2][..1] == [Detect(id)] && steps[..2][..1][..0] == [];
    assert Interleave(s, []) == s;
    assert Interleave(s, steps[..2][..1]) == Next(s, Detect(id));
    assert Interleave(s, steps[..2]) == Next(Next(s, Detect(id)), Check(id, from));
    assert Interleave(s, steps) == PublishOnce(s, id, from);
  }

  /** An arm of an idle route can publish from some instant on exactly when its row is permitted then. */
  lemma ArmCanPublishIff(s: System, id: int, number: nat, from: nat)
    requires ClearedArmsOpen(s) && PhaseAt(s.phases, id) == Idle && number <= NumberAt(s.arms, id)
    ensures (exists steps: seq<Step> :: ChecksFrom(steps, from) && ArmOf(id, number) in PublishedSince(s, steps)) <==>
              id in s.rows && s.CurrentArm(id) == ArmOf(id, number) && Clears(s.rows, id, from)
  {
    hide Next, Interleave, EvaluateRealPublishPermission, PublishedSince;
    if id in s.rows && s.CurrentArm(id) == ArmOf(id, number) && Clears(s.rows, id, from) {
      OpenPublishes(s, id, from);
      var steps := [Detect(id), Check(id, from), FinishPublish(id, true)];
      assert ChecksFrom(steps, from) && ArmOf(id, number) in PublishedSince(s, steps);
    } else {
      forall other ensures PhaseAt(s.phases, other) != Cleared(ArmOf(id, number)) {
      }
      forall steps: seq<Step> | ChecksFrom(steps, from) ensures ArmOf(id, number) !in PublishedSince(s, steps) {
        ShutForEver(s, steps, id, number, from);
      }
    }
  }

  /**
   A listener that dies between its publish and the write that consumes the arm lets the same arm
   publish again from some instant on exactly when the row is still armed by it, uncounted and not
   expired at that instant; no matter what happens to any route in between.
   */
  lemma CrashBreaksTheBound(s: System, id: int, number: nat, from: nat)
    requires Safe(s) && ArmOf(id, number) in s.published
    requires PhaseAt(s.phases, id) in {Published(ArmOf(id, number)), Consuming(ArmOf(id, number))}
    ensures (exists steps: seq<Step> ::
               ChecksFrom(steps, from) && ArmOf(id, number) in PublishedSince(Next(s, Crash(id)), steps)) <==>
              && id in s.rows && s.rows[id].mode == Armed && s.CurrentArm(id) == ArmOf(id, number)
              && s.rows[id].publishCount == 0 && !IsArmExpired(s.rows[id], from)
  {
    hide Interleave, PublishedSince, IsArmExpired;
    var s' := Next(s, Crash(id));
    assert PhaseAt(s'.phases, id) == Idle;
    forall other | other != id ensures PhaseAt(s'.phases, other) == PhaseAt(s.phases, other) {
    }
    ArmCanPublishIff(s', id, number, from);
  }

  function PublishOnce(s: System, id: int, now: nat): System {
    Next(Next(Next(s, Detect(id)), Check(id, now)), FinishPublish(id, true))
  }

  /** A publish that outlasts the time to live leaves the route expired and uncounted, and still cannot repeat. */
  lemma OverrunEndsExpired(s: System, id: int, now: nat, later: nat)
    requires Safe(s) && id in s.rows && PhaseAt(s.phases, id) == Idle && Clears(s.rows, id, now) && Due(s.rows[id], later)
    ensures var end := Next(Next(PublishOnce(s, id, now), WriteExpiry(later)), ReadMode(id));
            && end.published == s.published + [s.CurrentArm(id)]
            && id in end.rows && end.rows[id].mode == Expired && end.rows[id].publishCount == 0
            && PhaseAt(end.phases, id) == Idle
            && forall any: nat :: !Clears(end.rows, id, any)
  {
    hide Due, EvaluateRealPublishPermission, ArmsSound, OncePerArm;
    PermissionNeedsArm(s.rows, id, now);
    var published := PublishOnce(s, id, now);
    assert published.rows == s.rows && PhaseAt(published.phases, id) == Published(s.CurrentArm(id));
    var end := Next(Next(published, WriteExpiry(later)), ReadMode(id));
    assert end.rows[id] == ExpiredRow(s.rows[id]);
    forall any: nat ensures !Clears(end.rows, id, any) {
      ExpiredRowRefuses(s.rows[id], any);
    }
  }

  lemma ExpiredRowRefuses(row: Route, now: nat)
    ensures EvaluateRealPublishPermission(ExpiredRow(row), true, false, now).Some?
  {
  }

  /**
   A row deleted before the details are detected stops the listener: its first write raises. One
   deleted right after lets the details through unasked, whatever the route's mode was.
   */
  lemma DeletionRacesTheCheck(s: System, id: int, now: nat)
    requires id in s.rows && PhaseAt(s.phases, id) == Idle
    ensures PublishOnce(Next(s, Remove(id)), id, now).published == s.published
    ensures var raced := Next(Next(s, Detect(id)), Remove(id));
            Next(Next(raced, Check(id, now)), FinishPublish(id, true)).published == s.published + [NoRow]
  {
    hide EvaluateRealPublishPermission;
  }

  /** Corollary: that race is the only way past the arms: a cleared listener rests on the current arm, or found no row. */
  lemma ClearedByArmOrByAbsence(s: System, id: int, now: nat)
    requires PhaseAt(s.phases, id) == Detected
    ensures var phase := PhaseAt(Next(s, Check(id, now)).phases, id);
            && (phase == Cleared(NoRow) <==> id !in s.rows)
            && (phase == Cleared(s.CurrentArm(id)) <==>
                  id in s.rows && s.rows[id].mode == Armed && !IsArmExpired(s.rows[id], now)
                  && s.rows[id].publishCount < 1)
            && (phase in {Cleared(NoRow), Cleared(s.CurrentArm(id)), Idle})
  {
    hide IsArmExpired;
  }
}
