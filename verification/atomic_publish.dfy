/**
 The two-file publish (AtomicPublisher.publish_pair and move_to_hold in
 integrations/telegram/fasttrack_file_bridge.py): hold the old files, stage and replace the
 details, stage and replace the seed, drop the holds; on any exception, roll back by hand.
 */
module AtomicPublish {
  import opened Wrappers
  import opened MessageText
  import opened SignalPrices
  import SignalMeta

  /** The files of the FILE_COMMON root, by name. */
  type Directory = map<string, string>

  /** What a reader of the two final names sees. */
  datatype Pair = Pair(seed: Option<string>, details: Option<string>)

  datatype Names = Names(seed: string, details: string)

  /** The four uuid4 suffixes of one call. */
  datatype Uuids = Uuids(seedHold: string, detailsHold: string, detailsPart: string, seedPart: string)

  /** One call: the final names, the new texts and the scratch names. */
  datatype Call = Call(names: Names, seed: string, details: string,
                       seedHold: string, detailsHold: string, detailsPart: string, seedPart: string) {
    function Scratch(): set<string> { {seedHold, detailsHold, detailsPart, seedPart} }
    function Wanted(): Pair { Pair(Some(seed), Some(details)) }

    /** uuid4 suffixes do not collide: the scratch names are new and pairwise different. */
    predicate Fresh(d: Directory) {
      && seedHold != detailsHold && seedHold != detailsPart && seedHold != seedPart
      && detailsHold != detailsPart && detailsHold != seedPart && detailsPart != seedPart
      && Scratch() !! d.Keys && Scratch() !! {names.seed, names.details}
    }
  }

  function CallOf(names: Names, seed: string, details: string, uuids: Uuids): Call {
    Call(names, seed, details,
         names.seed + ".hold." + uuids.seedHold,
         names.details + ".hold." + uuids.detailsHold,
         names.details + ".part." + uuids.detailsPart,
         names.seed + ".part." + uuids.seedPart)
  }

  datatype Step =
    | HoldSeed
    | HoldDetails
    | WriteDetails
    | ReplaceDetails
    | WriteSeed
    | ReplaceSeed
    | UnlinkSeedHold
    | UnlinkDetailsHold
    | LogReady

  /** The step that raises, if any; a raising write may leave a torn staging file. */
  datatype Fault = NoFault | At(step: Step, torn: Option<string>)

  function Index(step: Step): nat {
    match step
    case HoldSeed => 0
    case HoldDetails => 1
    case WriteDetails => 2
    case ReplaceDetails => 3
    case WriteSeed => 4
    case ReplaceSeed => 5
    case UnlinkSeedHold => 6
    case UnlinkDetailsHold => 7
    case LogReady => 8
  }

  function Lookup(d: Directory, name: string): Option<string> {
    if name in d then Some(d[name]) else None
  }

  function Visible(d: Directory, names: Names): Pair {
    Pair(Lookup(d, names.seed), Lookup(d, names.details))
  }

  function Entry(name: string, content: Option<string>): Directory {
    if content.Some? then map[name := content.value] else map[]
  }

  /** The directory with the two final names showing the given pair and every other file as it was. */
  function WithPair(d: Directory, names: Names, pair: Pair): Directory {
    (d - {names.seed, names.details}) + Entry(names.seed, pair.seed) + Entry(names.details, pair.details)
  }

  function Renamed(d: Directory, src: string, dst: string): Directory
    requires src in d
  {
    (d - {src})[dst := d[src]]
  }

  /** The steps a call takes: a hold that was never made is not unlinked. */
  predicate Strikes(fault: Fault, d: Directory, names: Names) {
    && fault.At?
    && (fault.step == UnlinkSeedHold ==> names.seed in d)
    && (fault.step == UnlinkDetailsHold ==> names.details in d && names.details != names.seed)
  }

  // ---------- the outcome table ----------

  /**
   What the two names show when a call with distinct names ends, from what they showed before and
   the step that raised. Only a fault in the middle of the call restores the old pair.
   */
  function VisibleAfter(before: Pair, wanted: Pair, fault: Fault): Pair {
    match fault
    case NoFault => wanted
    case At(step, _) =>
      match step
      case HoldSeed => Pair(None, None)
      case HoldDetails => Pair(before.seed, None)
      case UnlinkSeedHold =>
        if before.seed.Some? && before.details.Some? then Pair(wanted.seed, before.details) else wanted
      case UnlinkDetailsHold =>
        if before.details.Some? then Pair(wanted.seed, before.details) else wanted
      case LogReady => wanted
      case _ => before
  }

  /** The whole directory when a call ends. With equal names the rollback deletes what it restored. */
  function DirectoryAfter(d: Directory, c: Call, fault: Fault): Directory {
    if c.names.seed != c.names.details then
      WithPair(d, c.names, VisibleAfter(Visible(d, c.names), c.Wanted(), fault))
    else if fault.At? && Index(fault.step) < 6 then d - {c.names.seed}
    else d[c.names.seed := c.seed]
  }

  /** The fingerprint is recorded as the last act before the ready line is logged. */
  predicate Records(fault: Fault, d: Directory, names: Names) {
    !Strikes(fault, d, names) || fault.step == LogReady
  }

  // ---------- the forward path ----------

  function Moved(d: Directory, src: string, dst: string): Directory {
    if src in d then Renamed(d, src, dst) else d
  }

  /** Forward step number k. */
  function Advance(d: Directory, c: Call, k: nat): Directory {
    match k
    case 0 => Moved(d, c.names.seed, c.seedHold)
    case 1 => Moved(d, c.names.details, c.detailsHold)
    case 2 => d[c.detailsPart := c.details]
    case 3 => Moved(d, c.detailsPart, c.names.details)
    case 4 => d[c.seedPart := c.seed]
    case 5 => Moved(d, c.seedPart, c.names.seed)
    case 6 => d - {c.seedHold}
    case 7 => d - {c.detailsHold}
    case _ => d
  }

  /** The directory after the first k forward steps. */
  function After(d: Directory, c: Call, k: nat): Directory {
    if k == 0 then d else Advance(After(d, c, k - 1), c, k - 1)
  }

  function AtFault(d: Directory, c: Call, fault: Fault): Directory
    requires fault.At?
  {
    var reached := After(d, c, Index(fault.step));
    if fault.torn.None? then reached
    else if fault.step == WriteDetails then reached[c.detailsPart := fault.torn.value]
    else if fault.step == WriteSeed then reached[c.seedPart := fault.torn.value]
    else reached
  }

  /** What a name holds after k forward steps. */
  function Content(d: Directory, c: Call, k: nat, name: string): Option<string> {
    var s, t := c.names.seed, c.names.details;
    if name == s && (s != t || k < 4 || k >= 6) then
      if k == 0 then Lookup(d, s) else if k >= 6 then Some(c.seed) else None
    else if name == t then
      if k <= 1 then Lookup(d, t) else if k >= 4 then Some(c.details) else None
    else if name == c.seedHold then
      if 1 <= k <= 6 then Lookup(d, s) else None
    else if name == c.detailsHold then
      if 2 <= k <= 7 && s != t then Lookup(d, t) else None
    else if name == c.detailsPart then
      if k == 3 then Some(c.details) else None
    else if name == c.seedPart then
      if k == 5 then Some(c.seed) else None
    else Lookup(d, name)
  }

  lemma {:induction false} AfterContent(d: Directory, c: Call, k: nat, name: string)
    requires c.Fresh(d) && k <= 8
    ensures Lookup(After(d, c, k), name) == Content(d, c, k, name)
  {
    if k > 0 {
      AfterContent(d, c, k - 1, name);
      AfterContent(d, c, k - 1, c.names.seed);
      AfterContent(d, c, k - 1, c.names.details);
      AfterContent(d, c, k - 1, c.detailsPart);
      AfterContent(d, c, k - 1, c.seedPart);
      if k <= 4 {
        AdvanceEarly(After(d, c, k - 1), d, c, k - 1, name);
      } else {
        AdvanceLate(After(d, c, k - 1), d, c, k - 1, name);
      }
    }
  }

  ghost predicate Agrees(e: Directory, d: Directory, c: Call, k: nat, name: string) {
    Lookup(e, name) == Content(d, c, k, name)
  }

  lemma AdvanceEarly(e: Directory, d: Directory, c: Call, k: nat, name: string)
    requires c.Fresh(d) && k < 4
    requires Agrees(e, d, c, k, c.names.seed) && Agrees(e, d, c, k, c.names.details)
    requires Agrees(e, d, c, k, c.detailsPart) && Agrees(e, d, c, k, name)
    ensures Agrees(Advance(e, c, k), d, c, k + 1, name)
  {
  }

  lemma AdvanceLate(e: Directory, d: Directory, c: Call, k: nat, name: string)
    requires c.Fresh(d) && 4 <= k < 8
    requires Agrees(e, d, c, k, c.seedPart) && Agrees(e, d, c, k, name)
    ensures Agrees(Advance(e, c, k), d, c, k + 1, name)
  {
  }

  lemma AfterStep(d: Directory, c: Call, k: nat)
    ensures After(d, c, 0) == d
    ensures After(d, c, k + 1) == Advance(After(d, c, k), c, k)
  {
  }

  lemma SameFiles(d: Directory, e: Directory)
    requires forall name :: Lookup(d, name) == Lookup(e, name)
    ensures d == e
  {
    forall name ensures name in d <==> name in e {
      assert Lookup(d, name) == Lookup(e, name);
    }
    forall name | name in d ensures d[name] == e[name] {
      assert Lookup(d, name) == Lookup(e, name);
    }
  }

  // ---------- what a reader may see ----------

  /** A reader that waits for the seed file never pairs an old file with a new one. */
  ghost predicate NeverMixed(e: Directory, d: Directory, c: Call) {
    var seen := Visible(e, c.names);
    seen.seed.Some? ==> seen == Visible(d, c.names) || seen == c.Wanted()
  }

  /** Both old texts are still in the directory, under the final name or the hold name. */
  ghost predicate Recoverable(e: Directory, d: Directory, c: Call) {
    var old' := Visible(d, c.names);
    && (old'.seed.Some? ==> old'.seed in {Lookup(e, c.names.seed), Lookup(e, c.seedHold)})
    && (old'.details.Some? ==> old'.details in {Lookup(e, c.names.details), Lookup(e, c.detailsHold)})
  }

  ghost predicate ForwardSafe(e: Directory, d: Directory, c: Call) {
    c.names.seed != c.names.details ==>
      NeverMixed(e, d, c) && (Visible(e, c.names) == c.Wanted() || Recoverable(e, d, c))
  }

  /**
   Every state of the forward path, torn writes included, is safe to crash in: a visible seed comes
   with its own details, and the old texts are lost only once the new pair is visible.
   */
  lemma ForwardStateSafe(e: Directory, d: Directory, c: Call, k: nat, torn: Option<string>)
    requires c.Fresh(d) && k <= 8
    requires || e == After(d, c, k)
             || (k == 2 && torn.Some? && e == After(d, c, k)[c.detailsPart := torn.value])
             || (k == 4 && torn.Some? && e == After(d, c, k)[c.seedPart := torn.value])
    ensures ForwardSafe(e, d, c)
  {
    AfterContent(d, c, k, c.names.seed);
    AfterContent(d, c, k, c.names.details);
    AfterContent(d, c, k, c.seedHold);
    AfterContent(d, c, k, c.detailsHold);
  }

  // ---------- the directory as an object ----------

  /** FILE_COMMON with its atomic operations; `history` lists every state another process could see. */
  class FileCommonRoot {
    var entries: Directory
    ghost var history: seq<Directory>

    constructor (files: Directory)
      ensures entries == files && history == [files]
    {
      entries, history := files, [files];
    }

    method Replace(src: string, dst: string)
      requires src in entries
      modifies this
      ensures entries == Renamed(old(entries), src, dst)
      ensures history == old(history) + [entries]
    {
      entries := (entries - {src})[dst := entries[src]];
      history := history + [entries];
    }

    method WriteFullFile(name: string, content: string)
      modifies this
      ensures entries == old(entries)[name := content]
      ensures history == old(history) + [entries]
    {
      entries := entries[name := content];
      history := history + [entries];
    }

    method SafeUnlink(name: string)
      modifies this
      ensures entries == old(entries) - {name}
      ensures history == if name in old(entries) then old(history) + [entries] else old(history)
    {
      if name in entries {
        entries := entries - {name};
        history := history + [entries];
      } else {
        assert entries == entries - {name};
      }
    }
  }

  /** The locals of publish_pair that its exception handler reads. */
  datatype Handles = Handles(
    seedHold: Option<string>,
    detailsHold: Option<string>,
    detailsStaging: Option<string>,
    seedStaging: Option<string>,
    seedFinalCreated: bool)

  function Raise(fault: Fault, step: Step): Outcome<Step> {
    if fault.At? && fault.step == step then Fail(step) else Pass
  }

  /** The handler's view of a call on d that raised at the given step. */
  function HandlesAt(d: Directory, c: Call, step: Step): Handles {
    var k := Index(step);
    Handles(
      if 1 <= k <= 6 && c.names.seed in d then Some(c.seedHold) else None,
      if 2 <= k <= 7 && c.names.details in d && c.names.details != c.names.seed then Some(c.detailsHold) else None,
      if 2 <= k <= 3 then Some(c.detailsPart) else None,
      if 4 <= k <= 5 then Some(c.seedPart) else None,
      k >= 6)
  }

  method MoveToHold(root: FileCommonRoot, name: string, hold: string) returns (held: Option<string>)
    modifies root
    ensures root.entries == Moved(old(root.entries), name, hold)
    ensures root.history == if name in old(root.entries) then old(root.history) + [root.entries] else old(root.history)
    ensures held == if name in old(root.entries) then Some(hold) else None
  {
    if name !in root.entries {
      return None;
    }
    root.Replace(name, hold);
    return Some(hold);
  }

  /** The states added since `before` are all safe to crash in. */
  ghost predicate SafeSince(before: seq<Directory>, after: seq<Directory>, d: Directory, c: Call) {
    before <= after && forall i | |before| <= i < |after| :: ForwardSafe(after[i], d, c)
  }

  /** Steps 0 and 1: the old files go to their hold names. */
  method HoldOldFiles(root: FileCommonRoot, c: Call, fault: Fault) returns (r: Outcome<Step>, h: Handles)
    requires c.Fresh(root.entries)
    modifies root
    ensures r.Fail? <==> fault.At? && Index(fault.step) < 2
    ensures r.Fail? ==> r.error == fault.step
    ensures r.Pass? ==> root.entries == After(old(root.entries), c, 2)
                        && h == HandlesAt(old(root.entries), c, WriteDetails).(detailsStaging := None)
    ensures r.Fail? ==> root.entries == AtFault(old(root.entries), c, fault) && h == HandlesAt(old(root.entries), c, fault.step)
    ensures SafeSince(old(root.history), root.history, old(root.entries), c)
  {
    hide After;
    ghost var d := root.entries;
    AfterStep(d, c, 0);
    AfterStep(d, c, 1);
    h := Handles(None, None, None, None, false);
    :- Raise(fault, HoldSeed);
    var seedHold := MoveToHold(root, c.names.seed, c.seedHold);
    h := h.(seedHold := seedHold);
    ForwardStateSafe(root.entries, d, c, 1, None);
    :- Raise(fault, HoldDetails);
    var detailsHold := MoveToHold(root, c.names.details, c.detailsHold);
    h := h.(detailsHold := detailsHold);
    ForwardStateSafe(root.entries, d, c, 2, None);
    r := Pass;
  }

  /** Steps 2 and 3: the details are staged in full and renamed into place. */
  method PublishDetails(root: FileCommonRoot, c: Call, fault: Fault, ghost d: Directory, before: Handles)
      returns (r: Outcome<Step>, h: Handles)
    requires c.Fresh(d) && root.entries == After(d, c, 2)
    requires before == HandlesAt(d, c, WriteDetails).(detailsStaging := None)
    modifies root
    ensures r.Fail? <==> fault.At? && 2 <= Index(fault.step) < 4
    ensures r.Fail? ==> r.error == fault.step
    ensures r.Pass? ==> root.entries == After(d, c, 4) && h == HandlesAt(d, c, WriteSeed).(seedStaging := None)
    ensures r.Fail? ==> root.entries == AtFault(d, c, fault) && h == HandlesAt(d, c, fault.step)
    ensures SafeSince(old(root.history), root.history, d, c)
  {
    hide After;
    AfterStep(d, c, 2);
    AfterStep(d, c, 3);
    h := before.(detailsStaging := Some(c.detailsPart));
    if fault.At? && fault.step == WriteDetails && fault.torn.Some? {
      root.WriteFullFile(c.detailsPart, fault.torn.value);
      ForwardStateSafe(root.entries, d, c, 2, fault.torn);
    }
    :- Raise(fault, WriteDetails);
    root.WriteFullFile(c.detailsPart, c.details);
    ForwardStateSafe(root.entries, d, c, 3, None);
    :- Raise(fault, ReplaceDetails);
    root.Replace(c.detailsPart, c.names.details);
    ForwardStateSafe(root.entries, d, c, 4, None);
    h := h.(detailsStaging := None);
    r := Pass;
  }

  /** Steps 4 and 5: the seed is staged in full and renamed into place. */
  method PublishSeed(root: FileCommonRoot, c: Call, fault: Fault, ghost d: Directory, before: Handles)
      returns (r: Outcome<Step>, h: Handles)
    requires c.Fresh(d) && root.entries == After(d, c, 4)
    requires before == HandlesAt(d, c, WriteSeed).(seedStaging := None)
    modifies root
    ensures r.Fail? <==> fault.At? && 4 <= Index(fault.step) < 6
    ensures r.Fail? ==> r.error == fault.step
    ensures r.Pass? ==> root.entries == After(d, c, 6) && h == HandlesAt(d, c, UnlinkSeedHold)
    ensures r.Fail? ==> root.entries == AtFault(d, c, fault) && h == HandlesAt(d, c, fault.step)
    ensures SafeSince(old(root.history), root.history, d, c)
  {
    hide After;
    AfterStep(d, c, 4);
    AfterStep(d, c, 5);
    h := before.(seedStaging := Some(c.seedPart));
    if fault.At? && fault.step == WriteSeed && fault.torn.Some? {
      root.WriteFullFile(c.seedPart, fault.torn.value);
      ForwardStateSafe(root.entries, d, c, 4, fault.torn);
    }
    :- Raise(fault, WriteSeed);
    root.WriteFullFile(c.seedPart, c.seed);
    ForwardStateSafe(root.entries, d, c, 5, None);
    :- Raise(fault, ReplaceSeed);
    root.Replace(c.seedPart, c.names.seed);
    ForwardStateSafe(root.entries, d, c, 6, None);
    h := h.(seedStaging := None, seedFinalCreated := true);
    r := Pass;
  }

  /** Steps 6 and 7: the holds that were made are unlinked. */
  method DropHolds(root: FileCommonRoot, c: Call, fault: Fault, ghost d: Directory, before: Handles)
      returns (r: Outcome<Step>, h: Handles)
    requires c.Fresh(d) && root.entries == After(d, c, 6)
    requires before == HandlesAt(d, c, UnlinkSeedHold)
    requires fault.At? ==> Index(fault.step) >= 6
    modifies root
    ensures r.Fail? <==> Strikes(fault, d, c.names) && fault.step != LogReady
    ensures r.Fail? ==> r.error == fault.step
    ensures r.Pass? ==> root.entries == After(d, c, 8) && h == HandlesAt(d, c, LogReady)
    ensures r.Fail? ==> root.entries == AtFault(d, c, fault) && h == HandlesAt(d, c, fault.step)
    ensures SafeSince(old(root.history), root.history, d, c)
  {
    hide After;
    AfterStep(d, c, 6);
    AfterStep(d, c, 7);
    AfterContent(d, c, 6, c.seedHold);
    AfterContent(d, c, 7, c.detailsHold);
    h := before;
    if h.seedHold.Some? {
      :- Raise(fault, UnlinkSeedHold);
      root.SafeUnlink(h.seedHold.value);
      ForwardStateSafe(root.entries, d, c, 7, None);
      h := h.(seedHold := None);
    }
    assert root.entries == After(d, c, 7);
    if h.detailsHold.Some? {
      :- Raise(fault, UnlinkDetailsHold);
      root.SafeUnlink(h.detailsHold.value);
      ForwardStateSafe(root.entries, d, c, 8, None);
      h := h.(detailsHold := None);
    }
    assert root.entries == After(d, c, 8);
    r := Pass;
  }

  /** The file steps of the try block. */
  method Attempt(root: FileCommonRoot, c: Call, fault: Fault) returns (r: Outcome<Step>, h: Handles)
    requires c.Fresh(root.entries)
    modifies root
    ensures r.Fail? <==> Strikes(fault, old(root.entries), c.names) && fault.step != LogReady
    ensures r.Fail? ==> r.error == fault.step
    ensures r.Pass? ==> root.entries == After(old(root.entries), c, 8) && h == HandlesAt(old(root.entries), c, LogReady)
    ensures r.Fail? ==> root.entries == AtFault(old(root.entries), c, fault)
                        && h == HandlesAt(old(root.entries), c, fault.step)
    ensures SafeSince(old(root.history), root.history, old(root.entries), c)
  {
    hide After, AtFault, HandlesAt, ForwardSafe;
    ghost var d := root.entries;
    h :- HoldOldFiles(root, c, fault);
    h :- PublishDetails(root, c, fault, d, h);
    h :- PublishSeed(root, c, fault, d, h);
    h :- DropHolds(root, c, fault, d, h);
    r := Pass;
  }

  // ---------- the rollback ----------

  predicate Restores(fault: Fault) {
    fault.At? && 2 <= Index(fault.step) < 6
  }

  /** When the rollback itself, which puts the seed back before the details, shows a mixed pair. */
  predicate RollbackExposes(d: Directory, c: Call, fault: Fault)
    requires fault.At?
  {
    var before := Visible(d, c.names);
    before.seed.Some? && (before.details.Some? || (Index(fault.step) >= 4 && before.seed != Some(c.seed)))
  }

  /** What a name holds once a failed call has dropped its staging file. */
  function Settled(d: Directory, c: Call, k: nat, name: string): Option<string> {
    if name == c.detailsPart || name == c.seedPart then None else Content(d, c, k, name)
  }

  lemma AtFaultSettled(d: Directory, c: Call, fault: Fault, name: string)
    requires c.Fresh(d) && fault.At?
    ensures name != c.detailsPart && name != c.seedPart ==>
              Lookup(AtFault(d, c, fault), name) == Settled(d, c, Index(fault.step), name)
    ensures name == c.detailsPart && !(2 <= Index(fault.step) < 4) ==> name !in AtFault(d, c, fault)
    ensures name == c.seedPart && !(4 <= Index(fault.step) < 6) ==> name !in AtFault(d, c, fault)
  {
    AfterContent(d, c, Index(fault.step), name);
  }

  /** What a name holds after the handler has dealt with the seed, and after it has dealt with the details. */
  function SeedRestored(d: Directory, c: Call, k: nat, name: string): Option<string> {
    if k >= 6 then Settled(d, c, k, name)
    else if name == c.names.seed then (if k == 0 then None else Lookup(d, name))
    else if name == c.seedHold then None
    else Settled(d, c, k, name)
  }

  function DetailsRestored(d: Directory, c: Call, k: nat, name: string): Option<string> {
    if name == c.names.details && name != c.names.seed && 2 <= k < 8 && name in d then Lookup(d, name)
    else if name == c.names.details && k < 6 then None
    else if name == c.detailsHold then None
    else SeedRestored(d, c, k, name)
  }

  /** With distinct names and a fault in the restoring window the handler only moves old files back. */
  ghost predicate InWindow(c: Call, k: nat) {
    c.names.seed != c.names.details && 2 <= k < 6
  }

  ghost function Middle(c: Call, k: nat): Option<string> {
    if k >= 4 then Some(c.details) else None
  }

  method DropStaging(root: FileCommonRoot, c: Call, h: Handles, ghost d: Directory, ghost fault: Fault)
    requires c.Fresh(d) && fault.At?
    requires root.entries == AtFault(d, c, fault) && h == HandlesAt(d, c, fault.step)
    modifies root
    ensures forall name :: Lookup(root.entries, name) == Settled(d, c, Index(fault.step), name)
    ensures old(root.history) <= root.history
    ensures InWindow(c, Index(fault.step)) ==> root.history in {old(root.history), old(root.history) + [root.entries]}
  {
    hide After, AtFault;
    forall name
      ensures name != c.detailsPart && name != c.seedPart ==>
                Lookup(root.entries, name) == Settled(d, c, Index(fault.step), name)
    {
      AtFaultSettled(d, c, fault, name);
    }
    AtFaultSettled(d, c, fault, c.detailsPart);
    AtFaultSettled(d, c, fault, c.seedPart);
    if h.detailsStaging.Some? {
      root.SafeUnlink(h.detailsStaging.value);
    }
    if h.seedStaging.Some? {
      root.SafeUnlink(h.seedStaging.value);
    }
  }

  method RestoreSeed(root: FileCommonRoot, c: Call, before: Handles, ghost d: Directory, ghost k: nat) returns (h: Handles)
    requires c.Fresh(d) && k <= 8
    requires forall name :: Lookup(root.entries, name) == Settled(d, c, k, name)
    requires before.seedFinalCreated <==> k >= 6
    requires before.seedHold == if 1 <= k <= 6 && c.names.seed in d then Some(c.seedHold) else None
    modifies root
    ensures h == if k < 6 then before.(seedHold := None) else before
    ensures forall name :: Lookup(root.entries, name) == SeedRestored(d, c, k, name)
    ensures old(root.history) <= root.history
    ensures InWindow(c, k) ==>
              root.history == if c.names.seed in d then old(root.history) + [root.entries] else old(root.history)
  {
    h := before;
    assert Lookup(root.entries, c.seedHold) == Settled(d, c, k, c.seedHold);
    assert Lookup(root.entries, c.names.seed) == Settled(d, c, k, c.names.seed);
    if !h.seedFinalCreated {
      if c.names.seed in root.entries {
        root.SafeUnlink(c.names.seed);
      }
      if h.seedHold.Some? && h.seedHold.value in root.entries {
        root.Replace(h.seedHold.value, c.names.seed);
        h := h.(seedHold := None);
      }
    }
  }

  method RestoreDetails(root: FileCommonRoot, c: Call, before: Handles, ghost d: Directory, ghost k: nat) returns (h: Handles)
    requires c.Fresh(d) && k <= 8
    requires forall name :: Lookup(root.entries, name) == SeedRestored(d, c, k, name)
    requires before.seedFinalCreated <==> k >= 6
    requires before.detailsHold ==
             if 2 <= k <= 7 && c.names.details in d && c.names.details != c.names.seed then Some(c.detailsHold) else None
    modifies root
    ensures h == before.(detailsHold := None)
    ensures forall name :: Lookup(root.entries, name) == DetailsRestored(d, c, k, name)
    ensures old(root.history) <= root.history
    ensures InWindow(c, k) ==>
              root.history == if k >= 4 && c.names.details in d then
                                old(root.history) + [old(root.entries) - {c.names.details}] + [root.entries]
                              else if k >= 4 || c.names.details in d then old(root.history) + [root.entries]
                              else old(root.history)
  {
    h := before;
    assert Lookup(root.entries, c.detailsHold) == SeedRestored(d, c, k, c.detailsHold);
    assert Lookup(root.entries, c.names.details) == SeedRestored(d, c, k, c.names.details);
    if h.detailsHold.Some? && h.detailsHold.value in root.entries {
      if c.names.details in root.entries {
        root.SafeUnlink(c.names.details);
      }
      root.Replace(h.detailsHold.value, c.names.details);
      h := h.(detailsHold := None);
    } else if c.names.details in root.entries && !h.seedFinalCreated {
      root.SafeUnlink(c.names.details);
    }
  }

  method DropHold(root: FileCommonRoot, hold: Option<string>)
    modifies root
    ensures root.entries == if hold.Some? then old(root.entries) - {hold.value} else old(root.entries)
    ensures old(root.history) <= root.history
    ensures hold.None? ==> root.history == old(root.history)
  {
    if hold.Some? {
      root.SafeUnlink(hold.value);
    }
  }

  lemma SeedHoldGone(d: Directory, c: Call, k: nat)
    requires c.Fresh(d) && k <= 8
    ensures k < 6 || k > 6 || c.names.seed !in d ==> DetailsRestored(d, c, k, c.seedHold) == None
  {
  }

  lemma LookupPair(d: Directory, names: Names, p: Pair)
    requires names.seed != names.details
    ensures forall name ::
              Lookup(WithPair(d, names, p), name) ==
              if name == names.seed then p.seed else if name == names.details then p.details else Lookup(d, name)
  {
  }

  lemma RolledBackContent(d: Directory, c: Call, fault: Fault, name: string)
    requires c.Fresh(d) && Strikes(fault, d, c.names)
    ensures Lookup(DirectoryAfter(d, c, fault), name) ==
            if name == c.seedHold then None else DetailsRestored(d, c, Index(fault.step), name)
  {
    hide WithPair;
    if c.names.seed != c.names.details {
      LookupPair(d, c.names, VisibleAfter(Visible(d, c.names), c.Wanted(), fault));
    }
  }

  lemma RolledBack(e: Directory, d: Directory, c: Call, fault: Fault)
    requires c.Fresh(d) && Strikes(fault, d, c.names)
    requires forall name ::
               Lookup(e, name) == if name == c.seedHold then None else DetailsRestored(d, c, Index(fault.step), name)
    ensures e == DirectoryAfter(d, c, fault)
  {
    hide DirectoryAfter, DetailsRestored, Lookup;
    forall name ensures Lookup(e, name) == Lookup(DirectoryAfter(d, c, fault), name) {
      RolledBackContent(d, c, fault, name);
    }
    SameFiles(e, DirectoryAfter(d, c, fault));
  }

  // The states of a rollback in the restoring window, one by one.

  lemma WindowSettled(e: Directory, d: Directory, c: Call, k: nat)
    requires c.Fresh(d) && InWindow(c, k)
    requires forall name :: Lookup(e, name) == Settled(d, c, k, name)
    ensures Recoverable(e, d, c) && NeverMixed(e, d, c)
  {
    assert Lookup(e, c.names.seed) == None;
    assert Lookup(e, c.seedHold) == Settled(d, c, k, c.seedHold);
    assert Lookup(e, c.detailsHold) == Settled(d, c, k, c.detailsHold);
  }

  lemma WindowSeedBack(e: Directory, d: Directory, c: Call, k: nat)
    requires c.Fresh(d) && InWindow(c, k)
    requires forall name :: Lookup(e, name) == SeedRestored(d, c, k, name)
    ensures Recoverable(e, d, c)
    ensures NeverMixed(e, d, c) <==>
              c.names.seed !in d
              || Lookup(d, c.names.details) == Middle(c, k)
              || (k >= 4 && d[c.names.seed] == c.seed)
  {
    assert Lookup(e, c.names.seed) == Lookup(d, c.names.seed);
    assert Lookup(e, c.names.details) == Middle(c, k);
    assert Lookup(e, c.detailsHold) == Lookup(d, c.names.details);
  }

  lemma WindowDetailsGone(e: Directory, d: Directory, c: Call, k: nat)
    requires c.Fresh(d) && InWindow(c, k) && c.names.details in d
    requires forall name :: Lookup(e, name) == SeedRestored(d, c, k, name)
    ensures Recoverable(e - {c.names.details}, d, c)
    ensures NeverMixed(e - {c.names.details}, d, c) <==> c.names.seed !in d
  {
    assert Lookup(e, c.names.seed) == Lookup(d, c.names.seed);
    assert Lookup(e, c.detailsHold) == Lookup(d, c.names.details);
  }

  lemma WindowDone(e: Directory, d: Directory, c: Call, k: nat)
    requires c.Fresh(d) && InWindow(c, k)
    requires forall name :: Lookup(e, name) == DetailsRestored(d, c, k, name)
    ensures Recoverable(e, d, c) && NeverMixed(e, d, c)
  {
    assert Lookup(e, c.names.seed) == Lookup(d, c.names.seed);
    assert Lookup(e, c.names.details) == Lookup(d, c.names.details);
  }

  /** The states added since `before` all keep the old texts, and show no mixed pair (or some do). */
  ghost predicate KeptSince(before: seq<Directory>, after: seq<Directory>, d: Directory, c: Call) {
    before <= after && forall i | |before| <= i < |after| :: Recoverable(after[i], d, c)
  }

  ghost predicate UnmixedSince(before: seq<Directory>, after: seq<Directory>, d: Directory, c: Call) {
    before <= after && forall i | |before| <= i < |after| :: NeverMixed(after[i], d, c)
  }

  lemma SinceNone(before: seq<Directory>, d: Directory, c: Call)
    ensures KeptSince(before, before, d, c) && UnmixedSince(before, before, d, c)
  {
  }

  lemma SinceAppend(before: seq<Directory>, after: seq<Directory>, e: Directory, d: Directory, c: Call)
    requires before <= after
    ensures KeptSince(before, after + [e], d, c) <==> KeptSince(before, after, d, c) && Recoverable(e, d, c)
    ensures UnmixedSince(before, after + [e], d, c) <==> UnmixedSince(before, after, d, c) && NeverMixed(e, d, c)
  {
    var all := after + [e];
    assert all[|after|] == e;
    assert forall i | |before| <= i < |after| :: all[i] == after[i];
  }

  /** The handler up to the seed: a mixed pair can show once the old seed is back. */
  method RollBackSeed(root: FileCommonRoot, c: Call, handles: Handles, ghost d: Directory, ghost fault: Fault)
      returns (h: Handles)
    requires c.Fresh(d) && Strikes(fault, d, c.names)
    requires root.entries == AtFault(d, c, fault) && handles == HandlesAt(d, c, fault.step)
    modifies root
    ensures h == if Index(fault.step) < 6 then handles.(seedHold := None) else handles
    ensures forall name :: Lookup(root.entries, name) == SeedRestored(d, c, Index(fault.step), name)
    ensures old(root.history) <= root.history
    ensures InWindow(c, Index(fault.step)) ==>
              && KeptSince(old(root.history), root.history, d, c)
              && (UnmixedSince(old(root.history), root.history, d, c) <==> c.names.seed !in d || NeverMixed(root.entries, d, c))
  {
    hide After, AtFault, Settled, SeedRestored, KeptSince, UnmixedSince, NeverMixed, Recoverable;
    ghost var before := root.history;
    ghost var k := Index(fault.step);
    SinceNone(before, d, c);
    DropStaging(root, c, handles, d, fault);
    ghost var settled, settledHistory := root.entries, root.history;
    h := RestoreSeed(root, c, handles, d, k);
    if InWindow(c, k) {
      WindowSettled(settled, d, c, k);
      SinceAppend(before, before, settled, d, c);
      WindowSeedBack(root.entries, d, c, k);
      SinceAppend(before, settledHistory, root.entries, d, c);
    }
  }

  /** The rest of the handler. */
  method RollBackDetails(root: FileCommonRoot, c: Call, handles: Handles, ghost d: Directory, ghost fault: Fault)
    requires c.Fresh(d) && Strikes(fault, d, c.names)
    requires forall name :: Lookup(root.entries, name) == SeedRestored(d, c, Index(fault.step), name)
    requires handles == if Index(fault.step) < 6 then HandlesAt(d, c, fault.step).(seedHold := None) else HandlesAt(d, c, fault.step)
    modifies root
    ensures root.entries == DirectoryAfter(d, c, fault)
    ensures old(root.history) <= root.history
    ensures InWindow(c, Index(fault.step)) ==>
              && KeptSince(old(root.history), root.history, d, c)
              && (UnmixedSince(old(root.history), root.history, d, c) <==>
                    c.names.details !in d || Index(fault.step) < 4 || c.names.seed !in d)
  {
    hide After, DirectoryAfter, SeedRestored, DetailsRestored, KeptSince, UnmixedSince, NeverMixed, Recoverable;
    ghost var k, before, seedBack := Index(fault.step), root.history, root.entries;
    SinceNone(before, d, c);
    var h := RestoreDetails(root, c, handles, d, k);
    ghost var restored := root.entries;
    if InWindow(c, k) {
      WindowDone(restored, d, c, k);
      SinceAppend(before, before, restored, d, c);
      if c.names.details in d {
        var gone := seedBack - {c.names.details};
        WindowDetailsGone(seedBack, d, c, k);
        SinceAppend(before, before, gone, d, c);
        SinceAppend(before, before + [gone], restored, d, c);
      }
    }
    DropHold(root, h.seedHold);
    DropHold(root, h.detailsHold);
    forall name
      ensures Lookup(root.entries, name) ==
              if name == c.seedHold then None else DetailsRestored(d, c, k, name)
    {
      assert Lookup(restored, name) == DetailsRestored(d, c, k, name);
      SeedHoldGone(d, c, k);
    }
    RolledBack(root.entries, d, c, fault);
  }

  lemma SinceJoin(before: seq<Directory>, middle: seq<Directory>, after: seq<Directory>, d: Directory, c: Call)
    requires before <= middle <= after
    ensures KeptSince(before, after, d, c) <==> KeptSince(before, middle, d, c) && KeptSince(middle, after, d, c)
    ensures UnmixedSince(before, after, d, c) <==> UnmixedSince(before, middle, d, c) && UnmixedSince(middle, after, d, c)
  {
    hide Recoverable, NeverMixed;
    assert forall i | 0 <= i < |middle| :: after[i] == middle[i];
  }

  /** The exception handler. */
  method RollBack(root: FileCommonRoot, c: Call, handles: Handles, ghost d: Directory, ghost fault: Fault)
    requires c.Fresh(d) && Strikes(fault, d, c.names)
    requires root.entries == AtFault(d, c, fault) && handles == HandlesAt(d, c, fault.step)
    modifies root
    ensures root.entries == DirectoryAfter(d, c, fault)
    ensures old(root.history) <= root.history
    ensures InWindow(c, Index(fault.step)) ==> KeptSince(old(root.history), root.history, d, c)
    ensures InWindow(c, Index(fault.step)) ==>
              (UnmixedSince(old(root.history), root.history, d, c) <==> !RollbackExposes(d, c, fault))
  {
    hide AtFault, DirectoryAfter, SeedRestored, KeptSince, UnmixedSince, NeverMixed;
    ghost var before, k := root.history, Index(fault.step);
    var h := RollBackSeed(root, c, handles, d, fault);
    ghost var middle, seedBack := root.history, root.entries;
    RollBackDetails(root, c, h, d, fault);
    SinceJoin(before, middle, root.history, d, c);
    if InWindow(c, k) {
      WindowSeedBack(seedBack, d, c, k);
    }
  }

  // ---------- publish_pair ----------

  lemma SafeNone(before: seq<Directory>, d: Directory, c: Call)
    ensures SafeSince(before, before, d, c)
  {
  }

  lemma SafePrefix(before: seq<Directory>, after: seq<Directory>, d: Directory, c: Call)
    requires SafeSince(before, after, d, c)
    ensures before <= after && |before| <= |after|
  {
  }

  /** A call that got through all its file steps has the directory the table promises. */
  lemma AtLog(d: Directory, c: Call, fault: Fault)
    requires c.Fresh(d) && !(Strikes(fault, d, c.names) && fault.step != LogReady)
    ensures !Strikes(fault, d, c.names) ==> After(d, c, 8) == DirectoryAfter(d, c, fault)
    ensures Strikes(fault, d, c.names) ==> After(d, c, 8) == AtFault(d, c, fault)
  {
    if !Strikes(fault, d, c.names) {
      forall name ensures Lookup(After(d, c, 8), name) == Lookup(DirectoryAfter(d, c, fault), name) {
        AfterContent(d, c, 8, name);
        CompletedContent(d, c, fault, name);
      }
      SameFiles(After(d, c, 8), DirectoryAfter(d, c, fault));
    }
  }

  lemma CompletedContent(d: Directory, c: Call, fault: Fault, name: string)
    requires c.Fresh(d) && !Strikes(fault, d, c.names)
    ensures Content(d, c, 8, name) == Lookup(DirectoryAfter(d, c, fault), name)
  {
  }

  datatype Request = Request(names: Names, seedText: string, detailsText: string, uuids: Uuids, dryRun: bool)

  datatype PublishError = Invalid(error: BridgeError) | PriceUnreadable | Raised(step: Step)

  datatype PublishResult = PublishResult(fingerprint: Digest, seedBytes: nat, detailsBytes: nat)

  datatype PublisherState = PublisherState(directory: Directory, fingerprints: set<Digest>)

  function ValidateBasename(name: string): Result<string, BridgeError> {
    var trimmed := Strip(name);
    if trimmed == "" || Contains(trimmed, "/") || Contains(trimmed, "\\") || Contains(trimmed, "..") || Contains(trimmed, ":")
    then Failure(InvalidFilename)
    else Success(trimmed)
  }

  /** The checks publish_pair makes before it looks at its fingerprints or at the files. */
  function Validate(q: Request): Result<(Names, ValidPair), BridgeError> {
    var seedName :- ValidateBasename(q.names.seed);
    var detailsName :- ValidateBasename(q.names.details);
    var pair :- ValidatePairPayload(q.seedText, q.detailsText);
    Success((Names(seedName, detailsName), pair))
  }

  function CallFor(names: Names, pair: ValidPair, q: Request): Call {
    CallOf(names, pair.seed, pair.details, q.uuids)
  }

  function ResultFor(pair: ValidPair): PublishResult {
    PublishResult(PairFingerprint(pair), |pair.seed|, |pair.details|)
  }

  /** publish_pair as a function of the directory and the recorded fingerprints. */
  function Publish(s: PublisherState, q: Request, fault: Fault): (PublisherState, Result<PublishResult, PublishError>) {
    match Validate(q)
    case Failure(error) => (s, Failure(Invalid(error)))
    case Success((names, pair)) =>
      if !PricesRead(pair.details) then (s, Failure(PriceUnreadable)) else
      var fingerprint := PairFingerprint(pair);
      var recorded := s.(fingerprints := s.fingerprints + {fingerprint});
      if fingerprint in s.fingerprints || q.dryRun then
        if Raise(fault, LogReady).Fail? then (s, Failure(Raised(LogReady)))
        else (recorded, Success(ResultFor(pair)))
      else
        var c := CallFor(names, pair, q);
        (PublisherState(DirectoryAfter(s.directory, c, fault),
                        if Records(fault, s.directory, names) then recorded.fingerprints else s.fingerprints),
         if Strikes(fault, s.directory, names) then Failure(Raised(fault.step)) else Success(ResultFor(pair)))
  }

  /** A valid pair whose prices read and which is not on record: what gets past the publisher's checks. */
  predicate IsNew(q: Request, fingerprints: set<Digest>) {
    Validate(q).Success? && PricesRead(Validate(q).value.1.details) && PairFingerprint(Validate(q).value.1) !in fingerprints
  }

  lemma ValidatedAgain(seedText: string, detailsText: string)
    requires ValidatePairPayload(seedText, detailsText).Success?
    ensures var pair := ValidatePairPayload(seedText, detailsText).value;
            ValidatePairPayload(pair.seed, pair.details) == Success(pair)
  {
    hide MatchHead, MatchSeed, StripLeft, StripRight;
    StripIdempotent(seedText);
    NormalizeIdempotent(detailsText);
  }

  class AtomicPublisher {
    var publishedFingerprints: set<Digest>
    var lastSeedBytes: Option<nat>
    var lastDetailsBytes: Option<nat>
    var lastSignalMeta: Option<SignalMeta.Meta>

    constructor ()
      ensures publishedFingerprints == {} && lastSeedBytes == None && lastDetailsBytes == None && lastSignalMeta == None
    {
      publishedFingerprints, lastSeedBytes, lastDetailsBytes, lastSignalMeta := {}, None, None, None;
    }

    ghost function State(root: FileCommonRoot): PublisherState
      reads this, root
    {
      PublisherState(root.entries, publishedFingerprints)
    }

    /** `attempted` marks where the try block ends in the directory's history and the handler starts. */
    method PublishPair(root: FileCommonRoot, q: Request, fault: Fault)
        returns (r: Result<PublishResult, PublishError>, ghost attempted: nat)
      requires Validate(q).Success? ==> CallFor(Validate(q).value.0, Validate(q).value.1, q).Fresh(root.entries)
      modifies this, root
      ensures (State(root), r) == Publish(old(State(root)), q, fault)
      ensures |old(root.history)| <= attempted <= |root.history| && old(root.history) <= root.history
      ensures r.Success? ==> attempted == |root.history|
      ensures Validate(q).Success? ==>
                var c := CallFor(Validate(q).value.0, Validate(q).value.1, q);
                var d := old(root.entries);
                && SafeSince(old(root.history), root.history[..attempted], d, c)
                && (r.Failure? && !q.dryRun && Restores(fault) && c.names.seed != c.names.details
                    && IsNew(q, old(publishedFingerprints)) ==>
                      && KeptSince(root.history[..attempted], root.history, d, c)
                      && (UnmixedSince(root.history[..attempted], root.history, d, c) <==> !RollbackExposes(d, c, fault)))
      ensures if IsNew(q, old(publishedFingerprints)) then
                var pair := Validate(q).value.1;
                lastSeedBytes == Some(|pair.seed|) && lastDetailsBytes == Some(|pair.details|)
                && lastSignalMeta == Some(SignalMeta.MetaOf(pair))
              else
                lastSeedBytes == old(lastSeedBytes) && lastDetailsBytes == old(lastDetailsBytes)
                && lastSignalMeta == old(lastSignalMeta)
    {
      hide ValidateBasename, ValidatePairPayload, After, AtFault, HandlesAt, DirectoryAfter, PricesRead, SignalMeta.MetaOf;
      hide SafeSince, KeptSince, UnmixedSince, RollbackExposes, PairFingerprint;
      attempted := |root.history|;
      ghost var d, before := root.entries, root.history;
      assert before[..|before|] == before;
      match Validate(q)
      case Failure(error) =>
        return Failure(Invalid(error)), attempted;
      case Success((names, pair)) =>
        var c := CallFor(names, pair, q);
        SafeNone(before, d, c);
        var fingerprint := PairFingerprint(pair);
        ValidatedAgain(q.seedText, q.detailsText);
        var signalMeta := SignalMeta.BuildSignalMeta(pair.seed, pair.details);
        if signalMeta.None? {
          return Failure(PriceUnreadable), attempted;
        }
        if fingerprint in publishedFingerprints {
          if Raise(fault, LogReady).Fail? {
            return Failure(Raised(LogReady)), attempted;
          }
          assert publishedFingerprints + {fingerprint} == publishedFingerprints;
          return Success(ResultFor(pair)), attempted;
        }
        lastSignalMeta, lastSeedBytes, lastDetailsBytes := signalMeta, Some(|pair.seed|), Some(|pair.details|);
        if q.dryRun {
          if Raise(fault, LogReady).Fail? {
            return Failure(Raised(LogReady)), attempted;
          }
          publishedFingerprints := publishedFingerprints + {fingerprint};
          return Success(ResultFor(pair)), attempted;
        }
        var outcome, handles := Attempt(root, c, fault);
        attempted := |root.history|;
        ghost var tried := root.history;
        assert tried[..attempted] == tried;
        SafePrefix(before, tried, d, c);
        if outcome.Pass? {
          publishedFingerprints := publishedFingerprints + {fingerprint};
          outcome := Raise(fault, LogReady);
          AtLog(d, c, fault);
        }
        if outcome.Pass? {
          return Success(ResultFor(pair)), attempted;
        }
        RollBack(root, c, handles, d, fault);
        assert root.history[..attempted] == tried;
        r := Failure(Raised(outcome.error));
    }
  }
}
