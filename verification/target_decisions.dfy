/**
 What counts as a conflict between MT5 targets, and which requests go through, said of the stored
 columns (integrations/telegram: mt5_target_service.py, dashboard_api.py).
 */
module TargetDecisions {
  import opened Wrappers
  import opened Sequences
  import opened MessageText
  import opened TargetRegistry

  // ---------- conflicts of two rows ----------

  /** Both paths are given and resolve to one place. */
  predicate SamePlace(resolve: Resolver, a: string, b: string) {
    a != "" && b != "" && resolve(Strip(a)) != "" && resolve(Strip(a)) == resolve(Strip(b))
  }

  /** The account a row asks for: its expected login and server, both given. */
  predicate Expects(row: Row, login: string, server: string) {
    && login != "" && server != ""
    && Strip(row.expectedLogin) == login && Lower(Strip(row.expectedServer)) == server
  }

  /**
   The account a row holds: the detected login and server if both were detected, else the expected ones,
   with what was detected in the place of one that is missing.
   */
  predicate Holds(row: Row, login: string, server: string) {
    && login != "" && server != ""
    && if Strip(row.detectedLogin) != "" && Lower(Strip(row.detectedServer)) != "" then
         Strip(row.detectedLogin) == login && Lower(Strip(row.detectedServer)) == server
       else
         && Strip(if row.expectedLogin != "" then row.expectedLogin else Strip(row.detectedLogin)) == login
         && Lower(Strip(if row.expectedServer != "" then row.expectedServer else Lower(Strip(row.detectedServer)))) == server
  }

  /** The conflict of a row with another one. */
  ghost predicate InConflict(resolve: Resolver, c: Conflict, row: Row, other: Row) {
    match c
    case SameInstance => SamePlace(resolve, row.dataPath, other.dataPath)
    case SameAccount => exists login, server :: Expects(row, login, server) && Holds(other, login, server)
    case SameFiles =>
      && SamePlace(resolve, row.fileRoot, other.fileRoot)
      && row.seedFilename != "" && row.seedFilename == other.seedFilename
      && row.detailsFilename != "" && row.detailsFilename == other.detailsFilename
    case SameMagic => row.magicNumber.Some? && row.magicNumber == other.magicNumber
  }

  lemma EmptyStrip()
    ensures Strip("") == "" && Lower("") == ""
  {
  }

  lemma OwnPair(row: Row, login: string, server: string)
    ensures AccountServerPair(row, false) == Some((login, server)) <==> Expects(row, login, server)
  {
    hide Strip, Lower;
    EmptyStrip();
  }

  lemma LowerTwice(s: string)
    ensures Lower(Lower(s)) == Lower(s)
  {
    assert forall i | 0 <= i < |s| :: Lower(Lower(s))[i] == LowerChar(LowerChar(s[i]));
  }

  /** The second way the source asks for the other row's account adds nothing to the first. */
  lemma OtherPair(row: Row, login: string, server: string)
    ensures var detected := AccountServerPair(row, true);
            (if detected.Some? then detected else AccountServerPair(row, false)) == Some((login, server)) <==> Holds(row, login, server)
  {
    hide Strip, Lower;
    EmptyStrip();
  }

  lemma ClashMeans(resolve: Resolver, c: Conflict, row: Row, other: Row)
    ensures Clash(resolve, c, row, other) <==> InConflict(resolve, c, row, other)
  {
    hide Strip, Lower, Expects, Holds, AccountServerPair;
    match c
    case SameInstance =>
    case SameFiles =>
    case SameMagic =>
    case SameAccount =>
      if Clash(resolve, SameAccount, row, other) {
        var pair := AccountServerPair(row, false).value;
        OwnPair(row, pair.0, pair.1);
        OtherPair(other, pair.0, pair.1);
      }
      forall login, server | Expects(row, login, server) && Holds(other, login, server) ensures Clash(resolve, SameAccount, row, other) {
        OwnPair(row, login, server);
        OtherPair(other, login, server);
      }
  }

  /** The scan of one enabled target reports exactly its conflicts with the other enabled ones. */
  lemma ScanMeans(resolve: Resolver, targets: seq<Row>, row: Row, c: Conflict)
    requires IdsDiffer(targets) && row in targets
    ensures c in Conflicts(resolve, targets, Some(row.id)) <==>
              row.isEnabled == 1
              && exists other | other in targets :: other.isEnabled == 1 && other.id != row.id && InConflict(resolve, c, row, other)
  {
    hide Clash, InConflict, Conflicts;
    OneRowScan(resolve, targets, row, c);
    forall other ensures Clash(resolve, c, row, other) <==> InConflict(resolve, c, row, other) {
      ClashMeans(resolve, c, row, other);
    }
  }

  // ---------- which requests go through ----------

  /** Another enabled target has the row's place or holds the account it expects. */
  ghost predicate Taken(resolve: Resolver, c: Conflict, row: Row, targets: seq<Row>) {
    exists other | other in targets :: other.isEnabled == 1 && other.id != row.id && InConflict(resolve, c, row, other)
  }

  lemma {:induction false} FirstBlockingIs(conflicts: seq<Conflict>)
    ensures FirstBlocking(conflicts).Some? ==> FirstBlocking(conflicts).value in {SameInstance, SameAccount}
    ensures FirstBlocking(conflicts).Some? ==> FirstBlocking(conflicts).value in conflicts
  {
    if conflicts != [] {
      FirstBlockingIs(conflicts[1..]);
    }
  }

  lemma {:induction false} FirstStaysFirst(conflicts: seq<Conflict>)
    requires conflicts != []
    ensures FirstOccurrences(conflicts) != [] && FirstOccurrences(conflicts)[0] == conflicts[0]
  {
    if |conflicts| > 1 {
      FirstStaysFirst(conflicts[..|conflicts| - 1]);
    }
  }

  lemma InstanceComesFirst(resolve: Resolver, targets: seq<Row>, row: Row)
    requires IdsDiffer(targets) && row in targets && SameInstance in Conflicts(resolve, targets, Some(row.id))
    ensures FirstBlocking(Conflicts(resolve, targets, Some(row.id))) == Some(SameInstance)
  {
    hide Clashes, Clash;
    OneRowScan(resolve, targets, row, SameInstance);
    var checked := RowsToCheck(targets, Some(row.id));
    assert row in ActiveRows(targets);
    assert checked[0] in checked && checked == [row];
    assert checked[..0] == [] && [] + RowConflicts(resolve, row, targets) == RowConflicts(resolve, row, targets);
    assert AllConflicts(resolve, [], targets) == [];
    assert AllConflicts(resolve, checked, targets) == RowConflicts(resolve, row, targets);
    assert RowConflicts(resolve, row, targets)[0] == SameInstance;
    FirstStaysFirst(RowConflicts(resolve, row, targets));
  }

  lemma BlockingMeans(resolve: Resolver, targets: seq<Row>, row: Row)
    requires IdsDiffer(targets) && row in targets
    ensures var blocking := FirstBlocking(Conflicts(resolve, targets, Some(row.id)));
            && (blocking.None? <==>
                  row.isEnabled == 1 ==> !Taken(resolve, SameInstance, row, targets) && !Taken(resolve, SameAccount, row, targets))
            && (blocking.Some? ==> blocking.value == if Taken(resolve, SameInstance, row, targets) then SameInstance else SameAccount)
  {
    hide InConflict, Conflicts, FirstBlocking;
    var conflicts := Conflicts(resolve, targets, Some(row.id));
    NothingBlocks(conflicts);
    FirstBlockingIs(conflicts);
    ScanMeans(resolve, targets, row, SameInstance);
    ScanMeans(resolve, targets, row, SameAccount);
    if SameInstance in conflicts {
      InstanceComesFirst(resolve, targets, row);
    }
  }

  lemma TakenSame(resolve: Resolver, c: Conflict, row: Row, targets: seq<Row>, working: seq<Row>)
    requires forall other: Row | other.id != row.id :: other in working <==> other in targets
    ensures Taken(resolve, c, row, working) <==> Taken(resolve, c, row, targets)
  {
    hide InConflict;
  }

  /** The row a create body asks for, before it has an id; switched on unless the body says otherwise. */
  function Asked(p: Payload): Row {
    Row(-1, if p.isEnabled.Some? then p.isEnabled.value else 1, Strip(if p.dataPath.Some? then p.dataPath.value else ""),
        if p.fileRoot.Some? then p.fileRoot.value else "", if p.seedFilename.Some? then p.seedFilename.value else "",
        if p.detailsFilename.Some? then p.detailsFilename.value else "", if p.magicNumber.Some? then p.magicNumber.value else None,
        if p.expectedLogin.Some? then p.expectedLogin.value else "", if p.expectedServer.Some? then p.expectedServer.value else "", "", "")
  }

  /** What is stored of it: its texts stripped, and switched on whatever the body says. */
  function StoredAs(row: Row, id: int): Row {
    Row(id, 1, Strip(row.dataPath), Strip(row.fileRoot), Strip(row.seedFilename), Strip(row.detailsFilename), row.magicNumber,
        Strip(row.expectedLogin), Strip(row.expectedServer), "", "")
  }

  lemma AskedIsCandidate(p: Payload)
    ensures Candidate(p) == Asked(p) && forall id :: Stored(p, id) == StoredAs(Asked(p), id)
  {
    hide Strip;
  }

  /**
   A create goes through exactly when its data path is not blank, the store accepts it and, if the body
   has the target switched on, no other enabled target has its place or holds its account. Files and
   magic numbers never stand against it.
   */
  lemma CreateOutcome(r: Registry, resolve: Resolver, p: Payload, storeAccepts: bool)
    requires Sound(r)
    ensures var row := Asked(p);
            var free := row.isEnabled == 1 ==> !Taken(resolve, SameInstance, row, r.targets) && !Taken(resolve, SameAccount, row, r.targets);
            var (r', outcome) := Create(r, resolve, p, storeAccepts);
            && (outcome.Pass? <==> row.dataPath != "" && free && storeAccepts)
            && (outcome.Pass? ==> r' == Registry(r.targets + [StoredAs(row, r.nextId)], r.nextId + 1))
            && (outcome.Fail? ==> r' == r)
            && (outcome.Fail? ==>
                  if row.dataPath == "" then outcome.error == DataPathRequired
                  else if !free then
                    outcome.error == Blocked(if Taken(resolve, SameInstance, row, r.targets) then SameInstance else SameAccount)
                  else outcome.error == RejectedByStore)
  {
    hide InConflict, Taken, Conflicts, FirstBlocking, Stored, StoredAs, Strip, Candidate, Asked;
    AskedIsCandidate(p);
    AskedPath(p);
    var row := Asked(p);
    var working := r.targets + [row];
    assert row in working && forall other :: other in working <==> other in r.targets || other == row;
    assert IdsDiffer(working);
    BlockingMeans(resolve, working, row);
    TakenSame(resolve, SameInstance, row, r.targets, working);
    TakenSame(resolve, SameAccount, row, r.targets, working);
  }

  lemma AskedPath(p: Payload)
    ensures Asked(p).id == -1 && Asked(p).dataPath == Strip(Given(p.dataPath, ""))
  {
    hide Strip;
  }

  /** The row as a patch body would have it: every column the body gives, the others as they were. */
  function Patched(row: Row, p: Payload): Row {
    Row(row.id, if p.isEnabled.Some? then p.isEnabled.value else row.isEnabled,
        if p.dataPath.Some? then p.dataPath.value else row.dataPath, if p.fileRoot.Some? then p.fileRoot.value else row.fileRoot,
        if p.seedFilename.Some? then p.seedFilename.value else row.seedFilename,
        if p.detailsFilename.Some? then p.detailsFilename.value else row.detailsFilename,
        if p.magicNumber.Some? then p.magicNumber.value else row.magicNumber,
        if p.expectedLogin.Some? then p.expectedLogin.value else row.expectedLogin,
        if p.expectedServer.Some? then p.expectedServer.value else row.expectedServer, row.detectedLogin, row.detectedServer)
  }

  lemma PatchedIsMerged(row: Row, p: Payload)
    requires p.id in {None, Some(row.id)}
    ensures Merged(row, p) == Patched(row, p)
    ensures Updated(row, p) == Patched(row, p).(seedFilename := if p.seedFilename.Some? then Strip(p.seedFilename.value) else row.seedFilename,
                                                detailsFilename := if p.detailsFilename.Some? then Strip(p.detailsFilename.value)
                                                                   else row.detailsFilename)
  {
    hide Strip;
  }

  /** A patch whose body names no foreign id goes through exactly when the patched row, if switched on, takes nobody's place or account. */
  lemma PatchOutcome(r: Registry, resolve: Resolver, id: int, p: Payload, row: Row)
    requires Sound(r) && row in r.targets && row.id == id && p.id in {None, Some(id)}
    ensures var patched := Patched(row, p);
            var (r', outcome) := Patch(r, resolve, id, p, true);
            && (outcome.Pass? <==>
                  (patched.isEnabled == 1 ==>
                     !Taken(resolve, SameInstance, patched, r.targets) && !Taken(resolve, SameAccount, patched, r.targets)))
            && (outcome.Fail? ==> r' == r && outcome.error ==
                                  Blocked(if Taken(resolve, SameInstance, patched, r.targets) then SameInstance else SameAccount))
            && (outcome.Pass? ==> forall x :: x in r'.targets <==> x == Updated(row, p) || (x in r.targets && x.id != id))
  {
    hide InConflict, Taken, Conflicts, FirstBlocking, MergedInto, Merged, Updated, Patched, Replaced;
    PatchedIsMerged(row, p);
    PatchedId(row, p);
    var patched, working := Patched(row, p), MergedInto(r.targets, id, p);
    MergedHolds(r.targets, id, p, row);
    ReplacedHolds(r.targets, id, x => Updated(x, p), row);
    assert patched in working && IdsDiffer(working);
    BlockingMeans(resolve, working, patched);
    TakenSame(resolve, SameInstance, patched, r.targets, working);
    TakenSame(resolve, SameAccount, patched, r.targets, working);
    assert HasRow(r.targets, id);
  }

  lemma PatchedId(row: Row, p: Payload)
    ensures Patched(row, p).id == row.id
  {
  }

  /** The other requests: switching off, recording what was detected, deleting a target without routes. */
  lemma OtherRequests(r: Registry, resolve: Resolver, id: int, login: string, server: string, row: Row)
    requires Sound(r) && row in r.targets && row.id == id
    ensures forall x :: x in Serve(r, resolve, DisableRequest(id)).targets <==> x == row.(isEnabled := 0) || (x in r.targets && x.id != id)
    ensures forall x :: x in Serve(r, resolve, VerifyRequest(id, login, server)).targets <==>
                          x == row.(detectedLogin := login, detectedServer := server) || (x in r.targets && x.id != id)
    ensures forall x :: x in Serve(r, resolve, DeleteRequest(id, false)).targets <==> x in r.targets && x.id != id
    ensures Serve(r, resolve, DeleteRequest(id, true)) == r
  {
    hide Replaced, WithoutRow;
    ReplacedHolds(r.targets, id, x => Disabled(x), row);
    ReplacedHolds(r.targets, id, x => Verified(x, login, server), row);
  }
}
