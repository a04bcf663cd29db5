/**
 The registry of MT5 targets: find_target_conflicts and validate_target_registration in
 integrations/telegram/mt5_target_service.py, under the create, patch, disable, delete and
 discovery requests of dashboard_api.py.
 */
module TargetRegistry {
  import opened Wrappers
  import opened Sequences
  import opened MessageText

  /** The path normaliser: expanduser, resolve and lower. It is not looked into, but resolves to something. */
  type Resolver = string -> string

  datatype Conflict = SameInstance | SameAccount | SameFiles | SameMagic

  /** A row of `mt5_targets`; a NULL text is the empty text. */
  datatype Row = Row(
    id: int,
    isEnabled: int,
    dataPath: string,
    fileRoot: string,
    seedFilename: string,
    detailsFilename: string,
    magicNumber: Option<int>,
    expectedLogin: string,
    expectedServer: string,
    detectedLogin: string,
    detectedServer: string)

  ghost predicate Resolves(resolve: Resolver) { forall p :: resolve(p) != "" }

  function NormalizeStoragePath(resolve: Resolver, path: string): string {
    if path == "" then "" else resolve(Strip(path))
  }

  function Or(a: string, b: string): string { if a != "" then a else b }

  function AccountServerPair(row: Row, preferDetected: bool): Option<(string, string)> {
    var login := if preferDetected then Strip(row.detectedLogin) else "";
    var server := if preferDetected then Lower(Strip(row.detectedServer)) else "";
    var pair := if login == "" || server == ""
                then (Strip(Or(row.expectedLogin, login)), Lower(Strip(Or(row.expectedServer, server))))
                else (login, server);
    if pair.0 != "" && pair.1 != "" then Some(pair) else None
  }

  predicate Active(row: Row) { row.isEnabled == 1 }

  // ---------- one row against another ----------

  predicate ClashInstance(resolve: Resolver, row: Row, other: Row) {
    var path := NormalizeStoragePath(resolve, row.dataPath);
    path != "" && path == NormalizeStoragePath(resolve, other.dataPath)
  }

  predicate ClashAccount(row: Row, other: Row) {
    var pair := AccountServerPair(row, false);
    var detected := AccountServerPair(other, true);
    pair.Some? && pair == if detected.Some? then detected else AccountServerPair(other, false)
  }

  predicate ClashFiles(resolve: Resolver, row: Row, other: Row) {
    var root := NormalizeStoragePath(resolve, row.fileRoot);
    root != "" && root == NormalizeStoragePath(resolve, other.fileRoot)
    && row.seedFilename != "" && row.detailsFilename != ""
    && row.seedFilename == other.seedFilename && row.detailsFilename == other.detailsFilename
  }

  predicate ClashMagic(row: Row, other: Row) {
    row.magicNumber.Some? && row.magicNumber == other.magicNumber
  }

  predicate Clash(resolve: Resolver, conflict: Conflict, row: Row, other: Row) {
    match conflict
    case SameInstance => ClashInstance(resolve, row, other)
    case SameAccount => ClashAccount(row, other)
    case SameFiles => ClashFiles(resolve, row, other)
    case SameMagic => ClashMagic(row, other)
  }

  // ---------- scans ----------

  predicate Clashes(resolve: Resolver, conflict: Conflict, row: Row, targets: seq<Row>) {
    exists other | other in targets :: Active(other) && other.id != row.id && Clash(resolve, conflict, row, other)
  }

  function Found(resolve: Resolver, conflict: Conflict, row: Row, targets: seq<Row>): seq<Conflict> {
    if Clashes(resolve, conflict, row, targets) then [conflict] else []
  }

  /** What one row runs into, in the order of the checks. */
  function RowConflicts(resolve: Resolver, row: Row, targets: seq<Row>): seq<Conflict> {
    Found(resolve, SameInstance, row, targets) + Found(resolve, SameAccount, row, targets)
    + Found(resolve, SameFiles, row, targets) + Found(resolve, SameMagic, row, targets)
  }

  function AllConflicts(resolve: Resolver, rows: seq<Row>, targets: seq<Row>): seq<Conflict> {
    if rows == [] then [] else AllConflicts(resolve, rows[..|rows| - 1], targets) + RowConflicts(resolve, rows[|rows| - 1], targets)
  }

  /** list(dict.fromkeys(...)): first occurrences, in order. */
  function FirstOccurrences(conflicts: seq<Conflict>): (r: seq<Conflict>)
    ensures Distinct(r) && forall c :: c in r <==> c in conflicts
  {
    if conflicts == [] then []
    else
      var front, last := FirstOccurrences(conflicts[..|conflicts| - 1]), conflicts[|conflicts| - 1];
      assert forall c :: c in conflicts <==> c in conflicts[..|conflicts| - 1] || c == last;
      if last in front then front else front + [last]
  }

  function ActiveRows(targets: seq<Row>): (r: seq<Row>)
    ensures forall row :: row in r <==> row in targets && Active(row)
  {
    if targets == [] then []
    else (if Active(targets[0]) then [targets[0]] else []) + ActiveRows(targets[1..])
  }

  /** Which rows are checked: all active ones, or the active one with the given id, which may be missing. */
  function RowsToCheck(targets: seq<Row>, targetId: Option<int>): seq<Row> {
    if targetId.None? then ActiveRows(targets)
    else if targetId.value == 0 then []
    else FirstWithId(ActiveRows(targets), targetId.value)
  }

  function FirstWithId(rows: seq<Row>, id: int): (r: seq<Row>)
    ensures |r| <= 1 && (forall row | row in r :: row in rows && row.id == id)
    ensures (exists row | row in rows :: row.id == id) ==> |r| == 1
  {
    if rows == [] then [] else if rows[0].id == id then [rows[0]] else FirstWithId(rows[1..], id)
  }

  function Conflicts(resolve: Resolver, targets: seq<Row>, targetId: Option<int>): seq<Conflict> {
    FirstOccurrences(AllConflicts(resolve, RowsToCheck(targets, targetId), targets))
  }

  /** One of the four inner loops: stop at the first other active row that clashes. */
  method ScanOthers(resolve: Resolver, conflict: Conflict, row: Row, active: seq<Row>, ghost targets: seq<Row>)
      returns (found: bool)
    requires forall r :: r in active <==> r in targets && Active(r)
    ensures found == Clashes(resolve, conflict, row, targets)
  {
    for i := 0 to |active|
      invariant forall k | 0 <= k < i :: active[k].id == row.id || !Clash(resolve, conflict, row, active[k])
    {
      var other := active[i];
      if other.id != row.id && Clash(resolve, conflict, row, other) {
        assert other in targets;
        return true;
      }
    }
    return false;
  }

  method FindTargetConflicts(resolve: Resolver, targets: seq<Row>, targetId: Option<int>) returns (conflicts: seq<Conflict>)
    ensures conflicts == Conflicts(resolve, targets, targetId)
  {
    hide Clash, Clashes;
    var active := ActiveRows(targets);
    var rowsToCheck := RowsToCheck(targets, targetId);
    var found: seq<Conflict> := [];
    for i := 0 to |rowsToCheck|
      invariant found == AllConflicts(resolve, rowsToCheck[..i], targets)
    {
      var row := rowsToCheck[i];
      var instance := ScanOthers(resolve, SameInstance, row, active, targets);
      var account := ScanOthers(resolve, SameAccount, row, active, targets);
      var files := ScanOthers(resolve, SameFiles, row, active, targets);
      var magic := ScanOthers(resolve, SameMagic, row, active, targets);
      assert rowsToCheck[..i + 1][..i] == rowsToCheck[..i];
      found := found + ((if instance then [SameInstance] else []) + (if account then [SameAccount] else [])
                        + (if files then [SameFiles] else []) + (if magic then [SameMagic] else []));
    }
    assert rowsToCheck[..|rowsToCheck|] == rowsToCheck;
    conflicts := FirstOccurrences(found);
  }

  // ---------- requests ----------

  /** The keys of a request body that the registry looks at; None for a key that is missing. */
  datatype Payload = Payload(
    id: Option<int>,
    isEnabled: Option<int>,
    dataPath: Option<string>,
    fileRoot: Option<string>,
    seedFilename: Option<string>,
    detailsFilename: Option<string>,
    magicNumber: Option<Option<int>>,
    expectedLogin: Option<string>,
    expectedServer: Option<string>)

  datatype RegistryError = TargetNotFound | DataPathRequired | Blocked(conflict: Conflict) | RejectedByStore | TargetHasRoutes

  datatype Registry = Registry(targets: seq<Row>, nextId: int)

  function Given<T>(value: Option<T>, otherwise: T): T { if value.Some? then value.value else otherwise }

  /** {**row, **payload} */
  function Merged(row: Row, p: Payload): Row {
    Row(Given(p.id, row.id), Given(p.isEnabled, row.isEnabled), Given(p.dataPath, row.dataPath), Given(p.fileRoot, row.fileRoot),
        Given(p.seedFilename, row.seedFilename), Given(p.detailsFilename, row.detailsFilename),
        Given(p.magicNumber, row.magicNumber), Given(p.expectedLogin, row.expectedLogin),
        Given(p.expectedServer, row.expectedServer), row.detectedLogin, row.detectedServer)
  }

  const NO_ROW := Row(-1, 1, "", "", "", "", None, "", "", "", "")

  /** The row a create request is checked as; whether it is checked at all hangs on the body's own is_enabled. */
  function Candidate(p: Payload): Row { Merged(NO_ROW, p.(dataPath := Some(Strip(Given(p.dataPath, ""))))).(id := -1) }

  /** The row a create request stores: always enabled. */
  function Stored(p: Payload, id: int): Row {
    var c := Candidate(p);
    Row(id, 1, Strip(c.dataPath), Strip(c.fileRoot), Strip(c.seedFilename), Strip(c.detailsFilename), c.magicNumber,
        Strip(c.expectedLogin), Strip(c.expectedServer), "", "")
  }

  function FirstBlocking(conflicts: seq<Conflict>): Option<Conflict> {
    if conflicts == [] then None
    else if conflicts[0] in {SameInstance, SameAccount} then Some(conflicts[0])
    else FirstBlocking(conflicts[1..])
  }

  function MergedInto(targets: seq<Row>, id: int, p: Payload): seq<Row> {
    Replaced(targets, id, row => Merged(row, p))
  }

  /** validate_target_registration: the first conflict that blocks, if any. */
  function ValidateRegistration(resolve: Resolver, targets: seq<Row>, p: Payload, targetId: Option<int>): Option<Conflict> {
    FirstBlocking(
      if targetId.None? then Conflicts(resolve, targets + [Candidate(p)], Some(-1))
      else Conflicts(resolve, MergedInto(targets, targetId.value, p), targetId))
  }

  predicate HasRow(targets: seq<Row>, id: int) { exists row | row in targets :: row.id == id }

  function Replaced(targets: seq<Row>, id: int, change: Row -> Row): seq<Row> {
    seq(|targets|, i requires 0 <= i < |targets| => if targets[i].id == id then change(targets[i]) else targets[i])
  }

  /** `storeAccepts` stands for the store's own checks: file names, account type, unique name. */
  function Create(r: Registry, resolve: Resolver, p: Payload, storeAccepts: bool): (Registry, Outcome<RegistryError>) {
    if Strip(Given(p.dataPath, "")) == "" then (r, Fail(DataPathRequired))
    else
      var blocking := ValidateRegistration(resolve, r.targets, p, None);
      if blocking.Some? then (r, Fail(Blocked(blocking.value)))
      else if !storeAccepts then (r, Fail(RejectedByStore))
      else (Registry(r.targets + [Stored(p, r.nextId)], r.nextId + 1), Pass)
  }

  /** update_target: the body's id is not among the columns it writes. */
  function Updated(row: Row, p: Payload): Row {
    var m := Merged(row, p);
    m.(id := row.id, seedFilename := if p.seedFilename.Some? then Strip(m.seedFilename) else m.seedFilename,
       detailsFilename := if p.detailsFilename.Some? then Strip(m.detailsFilename) else m.detailsFilename)
  }

  function Patch(r: Registry, resolve: Resolver, id: int, p: Payload, storeAccepts: bool): (Registry, Outcome<RegistryError>) {
    if !HasRow(r.targets, id) then (r, Fail(TargetNotFound))
    else
      var blocking := ValidateRegistration(resolve, r.targets, p, Some(id));
      if blocking.Some? then (r, Fail(Blocked(blocking.value)))
      else if !storeAccepts then (r, Fail(RejectedByStore))
      else (r.(targets := Replaced(r.targets, id, row => Updated(row, p))), Pass)
  }

  function Disabled(row: Row): Row { row.(isEnabled := 0) }

  function Verified(row: Row, login: string, server: string): Row { row.(detectedLogin := login, detectedServer := server) }

  function WithoutRow(targets: seq<Row>, id: int): (rest: seq<Row>)
    ensures forall row :: row in rest <==> row in targets && row.id != id
  {
    if targets == [] then []
    else (if targets[0].id == id then [] else [targets[0]]) + WithoutRow(targets[1..], id)
  }

  datatype Request =
    | CreateRequest(p: Payload, storeAccepts: bool)
    | DiscoveryRequest(p: Payload, login: string, server: string, storeAccepts: bool)
    | PatchRequest(id: int, p: Payload, storeAccepts: bool)
    | DisableRequest(id: int)
    | VerifyRequest(id: int, login: string, server: string)
    | DeleteRequest(id: int, hasRoutes: bool)

  function Serve(r: Registry, resolve: Resolver, request: Request): Registry {
    match request
    case CreateRequest(p, storeAccepts) => Create(r, resolve, p, storeAccepts).0
    case DiscoveryRequest(p, login, server, storeAccepts) =>
      var (created, outcome) := Create(r, resolve, p.(isEnabled := Some(1)), storeAccepts);
      if outcome.Pass? then created.(targets := Replaced(created.targets, r.nextId, row => Verified(row, login, server))) else r
    case PatchRequest(id, p, storeAccepts) => Patch(r, resolve, id, p, storeAccepts).0
    case DisableRequest(id) => r.(targets := Replaced(r.targets, id, row => Disabled(row)))
    case VerifyRequest(id, login, server) => r.(targets := Replaced(r.targets, id, row => Verified(row, login, server)))
    case DeleteRequest(id, hasRoutes) => if hasRoutes then r else r.(targets := WithoutRow(r.targets, id))
  }

  function Run(r: Registry, resolve: Resolver, requests: seq<Request>): Registry {
    if requests == [] then r else Serve(Run(r, resolve, requests[..|requests| - 1]), resolve, requests[|requests| - 1])
  }

  class TargetTable {
    const resolve: Resolver
    var targets: seq<Row>
    var nextId: int

    constructor (resolve: Resolver)
      ensures this.resolve == resolve && State() == Registry([], 1)
    {
      this.resolve, targets, nextId := resolve, [], 1;
    }

    function State(): Registry
      reads this
    {
      Registry(targets, nextId)
    }

    method ValidateTargetRegistration(p: Payload, targetId: Option<int>) returns (blocking: Option<Conflict>)
      ensures blocking == ValidateRegistration(resolve, targets, p, targetId)
    {
      hide Conflicts, Merged, FirstBlocking;
      var working := if targetId.None? then targets + [Candidate(p)] else MergedInto(targets, targetId.value, p);
      var conflicts := FindTargetConflicts(resolve, working, if targetId.None? then Some(-1) else targetId);
      blocking := FirstBlocking(conflicts);
    }

    method CreateMt5Target(p: Payload, storeAccepts: bool) returns (r: Outcome<RegistryError>)
      modifies this
      ensures (State(), r) == Create(old(State()), resolve, p, storeAccepts)
    {
      hide ValidateRegistration, Stored;
      if Strip(Given(p.dataPath, "")) == "" {
        return Fail(DataPathRequired);
      }
      var blocking := ValidateTargetRegistration(p, None);
      if blocking.Some? {
        return Fail(Blocked(blocking.value));
      }
      if !storeAccepts {
        return Fail(RejectedByStore);
      }
      targets, nextId := targets + [Stored(p, nextId)], nextId + 1;
      r := Pass;
    }

    method PatchMt5Target(id: int, p: Payload, storeAccepts: bool) returns (r: Outcome<RegistryError>)
      modifies this
      ensures (State(), r) == Patch(old(State()), resolve, id, p, storeAccepts)
    {
      hide ValidateRegistration, Updated;
      if !HasRow(targets, id) {
        return Fail(TargetNotFound);
      }
      var blocking := ValidateTargetRegistration(p, Some(id));
      if blocking.Some? {
        return Fail(Blocked(blocking.value));
      }
      if !storeAccepts {
        return Fail(RejectedByStore);
      }
      targets := Replaced(targets, id, row => Updated(row, p));
      r := Pass;
    }
  }

  // ---------- what a scan finds ----------

  lemma FoundIn(resolve: Resolver, row: Row, targets: seq<Row>, c: Conflict)
    ensures c in RowConflicts(resolve, row, targets) <==> Clashes(resolve, c, row, targets)
  {
    hide Clashes;
    match c
    case SameInstance =>
    case SameAccount =>
    case SameFiles =>
    case SameMagic =>
  }

  lemma {:induction false} AllFound(resolve: Resolver, rows: seq<Row>, targets: seq<Row>, c: Conflict)
    ensures c in AllConflicts(resolve, rows, targets) <==> exists row | row in rows :: Clashes(resolve, c, row, targets)
  {
    hide Clashes, RowConflicts;
    if rows != [] {
      var front, last := rows[..|rows| - 1], rows[|rows| - 1];
      AllFound(resolve, front, targets, c);
      FoundIn(resolve, last, targets, c);
      assert forall row :: row in rows <==> row in front || row == last;
    }
  }

  ghost predicate IdsDiffer(targets: seq<Row>) {
    (forall row | row in targets :: row.id != 0)
    && forall row, other | row in targets && other in targets && row.id == other.id :: row == other
  }

  lemma OneRowScan(resolve: Resolver, targets: seq<Row>, row: Row, c: Conflict)
    requires IdsDiffer(targets) && row in targets
    ensures c in Conflicts(resolve, targets, Some(row.id)) <==> Active(row) && Clashes(resolve, c, row, targets)
  {
    hide Clashes, AllConflicts;
    var checked := RowsToCheck(targets, Some(row.id));
    AllFound(resolve, checked, targets, c);
    if Active(row) {
      assert row in ActiveRows(targets);
      assert checked[0] in checked && checked == [row];
    } else {
      assert forall r | r in checked :: r == row;
    }
  }

  /** The scan of the whole list finds, without repeats, what the scans of the single targets find. */
  lemma WholeScanIsUnionOfScans(resolve: Resolver, targets: seq<Row>, c: Conflict)
    requires IdsDiffer(targets)
    ensures Distinct(Conflicts(resolve, targets, None))
    ensures c in Conflicts(resolve, targets, None) <==>
              exists row | row in targets :: c in Conflicts(resolve, targets, Some(row.id))
  {
    hide Clashes, AllConflicts, Conflicts;
    WholeScan(resolve, targets, c);
    forall row | row in targets
      ensures c in Conflicts(resolve, targets, Some(row.id)) <==> Active(row) && Clashes(resolve, c, row, targets)
    {
      OneRowScan(resolve, targets, row, c);
    }
  }

  lemma WholeScan(resolve: Resolver, targets: seq<Row>, c: Conflict)
    ensures Distinct(Conflicts(resolve, targets, None))
    ensures c in Conflicts(resolve, targets, None) <==>
              exists row | row in targets :: Active(row) && Clashes(resolve, c, row, targets)
  {
    hide Clashes;
    AllFound(resolve, ActiveRows(targets), targets, c);
  }

  /** A target can be reported for an account that another one claims while that other one's own scan is silent. */
  lemma AccountScanIsAsymmetric(resolve: Resolver, row: Row, login: string, server: string)
    requires Active(row) && row.id > 1 && Resolves(resolve)
    requires AccountServerPair(row, false) == Some((login, server)) && row.detectedLogin == "" && row.detectedServer == ""
    requires Strip(login) == login && Lower(Strip(server)) == server
    ensures var other := Row(1, 1, "", "", "", "", None, "", "", login, server);
            && SameAccount in Conflicts(resolve, [row, other], Some(row.id))
            && SameAccount !in Conflicts(resolve, [row, other], Some(1))
  {
    hide Conflicts, Strip, Lower;
    var other := Row(1, 1, "", "", "", "", None, "", "", login, server);
    EmptyStrips();
    assert IdsDiffer([row, other]);
    OneRowScan(resolve, [row, other], row, SameAccount);
    OneRowScan(resolve, [row, other], other, SameAccount);
    assert other in [row, other] && Clash(resolve, SameAccount, row, other);
  }

  lemma EmptyStrips()
    ensures Strip("") == "" && Lower("") == ""
  {
  }

  // ---------- what requests keep ----------

  /** No two active targets share a data path that is not empty. */
  ghost predicate NoSharedInstance(resolve: Resolver, targets: seq<Row>) {
    forall row, other | row in targets && other in targets && Active(row) && Active(other) && row.id != other.id ::
      !ClashInstance(resolve, row, other)
  }

  ghost predicate Sound(r: Registry) {
    (forall row | row in r.targets :: 0 < row.id < r.nextId) && r.nextId > 0 && IdsDiffer(r.targets)
  }

  lemma {:induction false} NothingBlocks(conflicts: seq<Conflict>)
    ensures FirstBlocking(conflicts).None? <==> SameInstance !in conflicts && SameAccount !in conflicts
  {
    if conflicts != [] {
      NothingBlocks(conflicts[1..]);
      assert forall c :: c in conflicts <==> c == conflicts[0] || c in conflicts[1..];
    }
  }

  lemma StripTwice(s: string)
    ensures Strip(Strip(s)) == Strip(s)
  {
    StripIdempotent(s);
  }

  /** The candidate's data path clashes as the stored row's does. */
  lemma StoredPath(resolve: Resolver, p: Payload, id: int, other: Row)
    ensures ClashInstance(resolve, Stored(p, id), other) <==> ClashInstance(resolve, Candidate(p), other)
    ensures Active(Stored(p, id)) && Stored(p, id).id == id
  {
    hide Strip;
    StripTwice(Given(p.dataPath, ""));
  }

  predicate CheckedCreate(p: Payload) { p.isEnabled in {None, Some(1)} }

  lemma AcceptedCreate(r: Registry, resolve: Resolver, p: Payload)
    requires Sound(r) && ValidateRegistration(resolve, r.targets, p, None).None? && CheckedCreate(p)
    ensures forall other | other in r.targets && Active(other) :: !ClashInstance(resolve, Candidate(p), other)
  {
    hide Conflicts, ClashInstance, Clash;
    var c := Candidate(p);
    var working := r.targets + [c];
    NothingBlocks(Conflicts(resolve, working, Some(-1)));
    assert c in working && IdsDiffer(working);
    OneRowScan(resolve, working, c, SameInstance);
    forall other | other in r.targets && Active(other) ensures !ClashInstance(resolve, c, other) {
      assert other in working;
      ClashOfInstance(resolve, c, other);
    }
  }

  lemma ClashOfInstance(resolve: Resolver, row: Row, other: Row)
    ensures Clash(resolve, SameInstance, row, other) <==> ClashInstance(resolve, row, other)
    ensures ClashInstance(resolve, row, other) <==> ClashInstance(resolve, other, row)
  {
  }

  /**
   An accepted create keeps the data paths of active targets apart exactly when its body was checked
   as an enabled target, or its path is new anyway: a body that says is_enabled is 0 passes unchecked
   and is stored enabled.
   */
  lemma CreateKeepsInstancesApart(r: Registry, resolve: Resolver, p: Payload, storeAccepts: bool)
    requires Sound(r) && NoSharedInstance(resolve, r.targets) && Create(r, resolve, p, storeAccepts).1.Pass?
    ensures NoSharedInstance(resolve, Create(r, resolve, p, storeAccepts).0.targets) <==>
              CheckedCreate(p)
              || forall other | other in r.targets && Active(other) :: !ClashInstance(resolve, Stored(p, r.nextId), other)
  {
    hide ValidateRegistration, Stored, ClashInstance;
    var stored := Stored(p, r.nextId);
    if CheckedCreate(p) {
      AcceptedCreate(r, resolve, p);
    }
    forall other ensures ClashInstance(resolve, stored, other) <==> ClashInstance(resolve, Candidate(p), other) {
      StoredPath(resolve, p, r.nextId, other);
    }
    StoredPath(resolve, p, r.nextId, stored);
    OneMoreTarget(r, resolve, stored);
  }

  lemma OneMoreTarget(r: Registry, resolve: Resolver, row: Row)
    requires Sound(r) && NoSharedInstance(resolve, r.targets) && Active(row) && row.id == r.nextId
    ensures NoSharedInstance(resolve, r.targets + [row]) <==>
              forall other | other in r.targets && Active(other) :: !ClashInstance(resolve, row, other)
  {
    hide ClashInstance;
    var after := r.targets + [row];
    forall other | other in r.targets
      ensures ClashInstance(resolve, row, other) <==> ClashInstance(resolve, other, row)
    {
      ClashOfInstance(resolve, row, other);
    }
    assert row in after;
    forall other | other in r.targets ensures other in after && other.id != row.id {
    }
  }

  /** A create body that switches the target off is accepted whatever it clashes with. */
  lemma UncheckedCreatePasses(r: Registry, resolve: Resolver, p: Payload)
    requires Sound(r) && p.isEnabled.Some? && p.isEnabled.value != 1 && Strip(Given(p.dataPath, "")) != ""
    ensures Create(r, resolve, p, true) == (Registry(r.targets + [Stored(p, r.nextId)], r.nextId + 1), Pass)
  {
    hide Conflicts, Stored, Strip;
    var working := r.targets + [Candidate(p)];
    assert Candidate(p) in working && IdsDiffer(working);
    OneRowScan(resolve, working, Candidate(p), SameInstance);
    OneRowScan(resolve, working, Candidate(p), SameAccount);
    NothingBlocks(Conflicts(resolve, working, Some(-1)));
  }

  predicate CheckedPatch(id: int, p: Payload) { p.id in {None, Some(id)} }

  lemma ReplacedHolds(targets: seq<Row>, id: int, change: Row -> Row, row: Row)
    requires IdsDiffer(targets) && row in targets && row.id == id
    ensures forall x :: x in Replaced(targets, id, change) <==> x == change(row) || (x in targets && x.id != id)
  {
    var after := Replaced(targets, id, change);
    forall x | x in after ensures x == change(row) || (x in targets && x.id != id) {
      var i :| 0 <= i < |after| && after[i] == x;
      assert targets[i] in targets;
    }
    forall x | x in targets && x.id != id ensures x in after {
      var i :| 0 <= i < |targets| && targets[i] == x;
      assert after[i] == x;
    }
    var i :| 0 <= i < |targets| && targets[i] == row;
    assert after[i] == change(row);
  }

  lemma MergedHolds(targets: seq<Row>, id: int, p: Payload, row: Row)
    requires IdsDiffer(targets) && row in targets && row.id == id
    ensures forall x :: x in MergedInto(targets, id, p) <==> x == Merged(row, p) || (x in targets && x.id != id)
  {
    ReplacedHolds(targets, id, x => Merged(x, p), row);
  }

  lemma AcceptedPatch(r: Registry, resolve: Resolver, id: int, p: Payload, row: Row)
    requires Sound(r) && row in r.targets && row.id == id && CheckedPatch(id, p)
    requires ValidateRegistration(resolve, r.targets, p, Some(id)).None? && Active(Merged(row, p))
    ensures forall other | other in r.targets && Active(other) && other.id != id :: !ClashInstance(resolve, Merged(row, p), other)
  {
    hide Conflicts, ClashInstance, Clash, MergedInto;
    var working, m := MergedInto(r.targets, id, p), Merged(row, p);
    NothingBlocks(Conflicts(resolve, working, Some(id)));
    MergedHolds(r.targets, id, p, row);
    assert m in working && m.id == id && IdsDiffer(working);
    OneRowScan(resolve, working, m, SameInstance);
    forall other | other in r.targets && Active(other) && other.id != id ensures !ClashInstance(resolve, m, other) {
      assert other in working;
      ClashOfInstance(resolve, m, other);
    }
  }

  /** Replacing a row keeps the paths apart exactly when the new row, if active, shares none. */
  lemma OneTargetReplaced(r: Registry, resolve: Resolver, id: int, change: Row -> Row, row: Row)
    requires Sound(r) && NoSharedInstance(resolve, r.targets) && row in r.targets && row.id == id && change(row).id == id
    ensures Sound(r.(targets := Replaced(r.targets, id, change)))
    ensures NoSharedInstance(resolve, Replaced(r.targets, id, change)) <==>
              (Active(change(row)) ==>
                 forall other | other in r.targets && Active(other) && other.id != id :: !ClashInstance(resolve, change(row), other))
  {
    hide ClashInstance, Replaced;
    var after, row' := Replaced(r.targets, id, change), change(row);
    ReplacedHolds(r.targets, id, change, row);
    forall other ensures ClashInstance(resolve, row', other) <==> ClashInstance(resolve, other, row') {
      ClashOfInstance(resolve, row', other);
    }
  }

  /**
   An accepted patch keeps the data paths of active targets apart exactly when its body names no
   foreign id, or the patched row is off or its path new anyway: the check looks the row up under the
   body's own id.
   */
  lemma PatchKeepsInstancesApart(r: Registry, resolve: Resolver, id: int, p: Payload, storeAccepts: bool, row: Row)
    requires Sound(r) && NoSharedInstance(resolve, r.targets) && row in r.targets && row.id == id
    requires Patch(r, resolve, id, p, storeAccepts).1.Pass?
    ensures NoSharedInstance(resolve, Patch(r, resolve, id, p, storeAccepts).0.targets) <==>
              CheckedPatch(id, p) || !Active(Updated(row, p))
              || forall other | other in r.targets && Active(other) && other.id != id :: !ClashInstance(resolve, Updated(row, p), other)
  {
    hide ValidateRegistration, NoSharedInstance, Replaced, Sound;
    OneTargetReplaced(r, resolve, id, x => Updated(x, p), row);
    if CheckedPatch(id, p) && Active(Merged(row, p)) {
      AcceptedPatch(r, resolve, id, p, row);
    }
  }

  /**
   A patch body with a foreign id is accepted whatever it clashes with: the merged row is filed under
   the body's id, so the check finds no row under the target's own, and the row stored keeps that one.
   */
  lemma ForeignIdPatchPasses(r: Registry, resolve: Resolver, id: int, p: Payload, row: Row)
    requires Sound(r) && row in r.targets && row.id == id && p.id.Some? && p.id.value != id
    ensures var (r', outcome) := Patch(r, resolve, id, p, true);
            && outcome.Pass? && r'.nextId == r.nextId && |r'.targets| == |r.targets|
            && forall x :: x in r'.targets <==> x == Updated(row, p) || (x in r.targets && x.id != id)
  {
    hide Merged, AllConflicts;
    var working := MergedInto(r.targets, id, p);
    MergedHolds(r.targets, id, p, row);
    assert Merged(row, p).id == p.id.value by {
      MergedId(row, p);
    }
    NobodyHasId(ActiveRows(working), id);
    NothingToCheck(resolve, working);
    NothingBlocks(Conflicts(resolve, working, Some(id)));
    ReplacedHolds(r.targets, id, x => Updated(x, p), row);
    assert HasRow(r.targets, id);
  }

  lemma MergedId(row: Row, p: Payload)
    ensures Merged(row, p).id == Given(p.id, row.id)
  {
  }

  lemma {:induction false} NobodyHasId(rows: seq<Row>, id: int)
    requires forall row | row in rows :: row.id != id
    ensures FirstWithId(rows, id) == []
  {
    if rows != [] {
      assert rows[0] in rows;
      NobodyHasId(rows[1..], id);
    }
  }

  lemma NothingToCheck(resolve: Resolver, targets: seq<Row>)
    ensures AllConflicts(resolve, [], targets) == []
  {
  }

  // ---------- runs ----------

  /** Bodies that are checked as what they become. */
  predicate Checked(request: Request) {
    match request
    case CreateRequest(p, _) => CheckedCreate(p)
    case PatchRequest(id, p, _) => CheckedPatch(id, p)
    case _ => true
  }

  ghost predicate Kept(r: Registry, resolve: Resolver) {
    Sound(r) && NoSharedInstance(resolve, r.targets)
  }

  lemma CreateKeeps(r: Registry, resolve: Resolver, p: Payload, storeAccepts: bool)
    requires Kept(r, resolve) && CheckedCreate(p)
    ensures Kept(Create(r, resolve, p, storeAccepts).0, resolve)
  {
    hide ValidateRegistration, Stored, NoSharedInstance, Strip;
    if Create(r, resolve, p, storeAccepts).1.Pass? {
      CreateKeepsInstancesApart(r, resolve, p, storeAccepts);
      StoredPathPresent(p, r.nextId);
    }
  }

  lemma StoredPathPresent(p: Payload, id: int)
    ensures Stored(p, id).id == id && Stored(p, id).dataPath == Strip(Given(p.dataPath, ""))
  {
    hide Strip;
    StripTwice(Given(p.dataPath, ""));
  }

  lemma ChangeKeeps(r: Registry, resolve: Resolver, id: int, change: Row -> Row)
    requires Kept(r, resolve)
    requires forall row | row in r.targets && row.id == id ::
               change(row).id == id && change(row).dataPath == row.dataPath && (Active(change(row)) ==> Active(row))
    ensures Kept(r.(targets := Replaced(r.targets, id, change)), resolve)
  {
    hide Replaced, ClashInstance;
    if row :| row in r.targets && row.id == id {
      OneTargetReplaced(r, resolve, id, change, row);
      ReplacedHolds(r.targets, id, change, row);
      forall other ensures ClashInstance(resolve, change(row), other) <==> ClashInstance(resolve, row, other) {
        SamePathSameClash(resolve, row, change(row), other);
      }
    } else {
      NobodyReplaced(r.targets, id, change);
    }
  }

  lemma SamePathSameClash(resolve: Resolver, row: Row, row': Row, other: Row)
    requires row.dataPath == row'.dataPath
    ensures ClashInstance(resolve, row, other) <==> ClashInstance(resolve, row', other)
  {
  }

  lemma NobodyReplaced(targets: seq<Row>, id: int, change: Row -> Row)
    requires forall row | row in targets :: row.id != id
    ensures Replaced(targets, id, change) == targets
  {
    forall i | 0 <= i < |targets| ensures Replaced(targets, id, change)[i] == targets[i] {
      assert targets[i] in targets;
    }
  }

  lemma PatchKeeps(r: Registry, resolve: Resolver, id: int, p: Payload, storeAccepts: bool)
    requires Kept(r, resolve) && CheckedPatch(id, p)
    ensures Kept(Patch(r, resolve, id, p, storeAccepts).0, resolve)
  {
    hide ValidateRegistration, NoSharedInstance, Replaced, Strip;
    if Patch(r, resolve, id, p, storeAccepts).1.Pass? {
      var row :| row in r.targets && row.id == id;
      PatchKeepsInstancesApart(r, resolve, id, p, storeAccepts, row);
      OneTargetReplaced(r, resolve, id, x => Updated(x, p), row);
    }
  }

  lemma ServeKeeps(r: Registry, resolve: Resolver, request: Request)
    requires Kept(r, resolve) && Checked(request)
    ensures Kept(Serve(r, resolve, request), resolve)
  {
    hide Kept, Create, Patch, Replaced;
    match request
    case CreateRequest(p, storeAccepts) => CreateKeeps(r, resolve, p, storeAccepts);
    case DiscoveryRequest(p, login, server, storeAccepts) =>
      CreateKeeps(r, resolve, p.(isEnabled := Some(1)), storeAccepts);
      var created := Create(r, resolve, p.(isEnabled := Some(1)), storeAccepts).0;
      ChangeKeeps(created, resolve, r.nextId, row => Verified(row, login, server));
    case PatchRequest(id, p, storeAccepts) => PatchKeeps(r, resolve, id, p, storeAccepts);
    case DisableRequest(id) => ChangeKeeps(r, resolve, id, row => Disabled(row));
    case VerifyRequest(id, login, server) => ChangeKeeps(r, resolve, id, row => Verified(row, login, server));
    case DeleteRequest(id, hasRoutes) => DeleteKeeps(r, resolve, id);
  }

  lemma DeleteKeeps(r: Registry, resolve: Resolver, id: int)
    requires Kept(r, resolve)
    ensures Kept(r.(targets := WithoutRow(r.targets, id)), resolve)
  {
    hide WithoutRow, ClashInstance;
  }

  lemma {:induction false} RunKeeps(resolve: Resolver, requests: seq<Request>)
    requires forall request | request in requests :: Checked(request)
    ensures Kept(Run(Registry([], 1), resolve, requests), resolve)
  {
    hide Serve, Checked;
    if requests != [] {
      assert requests[|requests| - 1] in requests;
      RunKeeps(resolve, requests[..|requests| - 1]);
      ServeKeeps(Run(Registry([], 1), resolve, requests[..|requests| - 1]), resolve, requests[|requests| - 1]);
    }
  }

  /**
   After any sequence of creates, discoveries, patches, disables, verifications and deletes whose
   bodies are checked as what they become, no two active targets have the same normalised data path,
   unless both have none.
   */
  lemma ActiveInstancesStayApart(resolve: Resolver, requests: seq<Request>)
    requires forall request | request in requests :: Checked(request)
    ensures var targets := Run(Registry([], 1), resolve, requests).targets;
            forall row, other | row in targets && other in targets && Active(row) && Active(other) && row.id != other.id ::
              var path := NormalizeStoragePath(resolve, row.dataPath);
              path != "" ==> path != NormalizeStoragePath(resolve, other.dataPath)
  {
    hide Serve;
    RunKeeps(resolve, requests);
  }

  // ---------- empty data paths ----------

  ghost predicate PathsPresent(targets: seq<Row>) {
    forall row | row in targets :: row.dataPath != ""
  }

  /** Whether a request writes an empty data path over an existing row. */
  predicate Blanks(r: Registry, resolve: Resolver, request: Request) {
    request.PatchRequest? && request.p.dataPath == Some("")
    && Patch(r, resolve, request.id, request.p, request.storeAccepts).1.Pass?
  }

  /** Every request keeps every data path present exactly when it is not an accepted patch with an empty one. */
  lemma PathsStayPresent(r: Registry, resolve: Resolver, request: Request)
    requires PathsPresent(r.targets)
    ensures PathsPresent(Serve(r, resolve, request).targets) <==> !Blanks(r, resolve, request)
  {
    hide ValidateRegistration, Replaced, Stored, Strip;
    match request
    case CreateRequest(p, storeAccepts) => StoredPathPresent(p, r.nextId);
    case DiscoveryRequest(p, login, server, storeAccepts) =>
      StoredPathPresent(p.(isEnabled := Some(1)), r.nextId);
      if Create(r, resolve, p.(isEnabled := Some(1)), storeAccepts).1.Pass? {
        ReplacedPaths(r.targets + [Stored(p.(isEnabled := Some(1)), r.nextId)], r.nextId, row => Verified(row, login, server));
      }
    case PatchRequest(id, p, storeAccepts) => ReplacedPaths(r.targets, id, row => Updated(row, p));
    case DisableRequest(id) => ReplacedPaths(r.targets, id, row => Disabled(row));
    case VerifyRequest(id, login, server) => ReplacedPaths(r.targets, id, row => Verified(row, login, server));
    case DeleteRequest(id, hasRoutes) =>
  }

  /** So over any run without such patches every target, active or not, has a normalised data path. */
  lemma {:induction false} EveryTargetHasItsPath(resolve: Resolver, requests: seq<Request>)
    requires Resolves(resolve)
    requires forall request | request in requests && request.PatchRequest? :: request.p.dataPath != Some("")
    ensures var targets := Run(Registry([], 1), resolve, requests).targets;
            PathsPresent(targets) && forall row | row in targets :: NormalizeStoragePath(resolve, row.dataPath) != ""
  {
    hide Serve;
    if requests != [] {
      var front, last := requests[..|requests| - 1], requests[|requests| - 1];
      assert last in requests;
      EveryTargetHasItsPath(resolve, front);
      PathsStayPresent(Run(Registry([], 1), resolve, front), resolve, last);
    }
    var targets := Run(Registry([], 1), resolve, requests).targets;
    forall row | row in targets ensures NormalizeStoragePath(resolve, row.dataPath) != "" {
      assert resolve(Strip(row.dataPath)) != "";
    }
  }

  lemma ReplacedPaths(targets: seq<Row>, id: int, change: Row -> Row)
    requires PathsPresent(targets)
    ensures PathsPresent(Replaced(targets, id, change)) <==>
              forall row | row in targets && row.id == id :: change(row).dataPath != ""
  {
    var after := Replaced(targets, id, change);
    forall row | row in targets && row.id == id ensures change(row) in after {
      var i :| 0 <= i < |targets| && targets[i] == row;
      assert after[i] == change(row);
    }
    forall x | x in after ensures x in targets || exists row | row in targets && row.id == id :: x == change(row) {
      var i :| 0 <= i < |after| && after[i] == x;
      assert targets[i] in targets;
    }
  }

  /** A body that does nothing but empty the data path. */
  const BLANK_BODY := Payload(None, None, Some(""), None, None, None, None, None, None)

  /**
   The patch that empties the data path of an active target is accepted exactly when no other active
   target claims its account, and it leaves the target active without a path.
   */
  lemma BlankPatchPasses(r: Registry, resolve: Resolver, row: Row)
    requires Sound(r) && row in r.targets && Active(row)
    ensures var (r', outcome) := Patch(r, resolve, row.id, BLANK_BODY, true);
            && (outcome.Pass? <==> !Clashes(resolve, SameAccount, row, r.targets))
            && (outcome.Pass? ==> row.(dataPath := "") in r'.targets && Active(row.(dataPath := "")))
  {
    hide Conflicts, Clashes, MergedInto, Replaced, Strip;
    var m := row.(dataPath := "");
    var working := MergedInto(r.targets, row.id, BLANK_BODY);
    MergedHolds(r.targets, row.id, BLANK_BODY, row);
    assert Merged(row, BLANK_BODY) == m && m in working && IdsDiffer(working);
    NothingBlocks(Conflicts(resolve, working, Some(row.id)));
    OneRowScan(resolve, working, m, SameInstance);
    OneRowScan(resolve, working, m, SameAccount);
    BlankClashes(resolve, r.targets, working, row);
    ReplacedHolds(r.targets, row.id, x => Updated(x, BLANK_BODY), row);
    assert HasRow(r.targets, row.id);
  }

  lemma BlankClashes(resolve: Resolver, targets: seq<Row>, working: seq<Row>, row: Row)
    requires forall x :: x in working <==> x == row.(dataPath := "") || (x in targets && x.id != row.id)
    ensures !Clashes(resolve, SameInstance, row.(dataPath := ""), working)
    ensures Clashes(resolve, SameAccount, row.(dataPath := ""), working) <==> Clashes(resolve, SameAccount, row, targets)
  {
    hide Strip;
    var m := row.(dataPath := "");
    forall other ensures Clash(resolve, SameAccount, m, other) <==> Clash(resolve, SameAccount, row, other) {
    }
    if Clashes(resolve, SameAccount, row, targets) {
      var other :| other in targets && Active(other) && other.id != row.id && Clash(resolve, SameAccount, row, other);
      assert other in working;
    }
  }
}
