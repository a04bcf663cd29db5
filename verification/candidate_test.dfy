/**
 The one-shot permission to publish for real: the guards of candidate_test_arm_service.py and the
 row transitions of dashboard_store.py (both in integrations/telegram).
 */
module CandidateTest {
  import opened Wrappers
  import opened MessageText
  import opened Timestamps
  import opened Decimals
  import opened TextReadings

  const D0E_TERMINAL_DATA_PATH_ID := "D0E8209F77C8CF37AD8BF550E51FF075"
  const EXPECTED_SEED_FILENAME := "br_d0e_justgold_seed.txt"
  const EXPECTED_DETAILS_FILENAME := "br_d0e_justgold_details.txt"
  const EXPECTED_MAGIC_NUMBER := 91001
  const EXPECTED_CHART_SYMBOL := "XAUUSD"
  const EXPECTED_BROKER_LABEL := "VantageMarkets-Demo"
  const JUSTGOLD_CHANNEL_TITLE := "JustGold"
  const TTL_SECONDS: nat := 15 * 60
  const PUBLISH_LIMIT: int := 1

  datatype Mode = ObserverOnly | Armed | Consumed | Expired | Blocked

  datatype BlockReason =
    | RouteDisabled
    | TargetDisabled
    | TargetNotDemo
    | ExecutionPermissionNotLocked
    | MagicMismatch
    | SymbolMismatch
    | SeedFilenameMismatch
    | DetailsFilenameMismatch
    | BrokerMismatch
    | TerminalDataPathMismatch
    | RouteSourceMismatch
    | AnotherRouteAlreadyArmed
    | AlreadyArmed
    | NotRearmable
    | ObserverOnlyNoRealPublish
    | NotArmed
    | DryRunBlocksRealPublish
    | ListenerNotRunning
    | CandidateTestExpired
    | PublishAlreadyConsumed

  /** The target columns the guards read; a NULL column is the empty text, a NULL magic number is 0. */
  datatype Target = Target(
    isEnabled: bool,
    accountMode: string,
    expectedAccountType: string,
    executionPermission: string,
    magicNumber: int,
    chartSymbol: string,
    seedFilename: string,
    detailsFilename: string,
    brokerLabel: string,
    terminalDataPath: string)

  /** A row of `routes` joined with its channel title and its target. */
  datatype Route = Route(
    name: string,
    isEnabled: bool,
    channelTitle: string,
    target: Target,
    mode: Mode,
    armedAt: Option<string>,
    expiresAt: Option<string>,
    armedBy: Option<string>,
    publishCount: int,
    blockReason: Option<string>)

  // ---------- guards ----------

  function UpperChar(c: char): char {
    if 'a' <= c <= 'z' then c - ' ' else c
  }

  function Upper(s: string): string {
    seq(|s|, i requires 0 <= i < |s| => UpperChar(s[i]))
  }

  function StripQuotes(s: string): string
    decreases |s|
  {
    if s != "" && s[0] == '"' then StripQuotes(s[1..])
    else if s != "" && s[|s| - 1] == '"' then StripQuotes(s[..|s| - 1])
    else s
  }

  function TurnBackslashes(s: string): string {
    seq(|s|, i requires 0 <= i < |s| => if s[i] == '\\' then '/' else s[i])
  }

  function NormalizePathToken(path: string): string {
    Upper(StripQuotes(Strip(TurnBackslashes(path))))
  }

  function TargetAccountMode(target: Target): string {
    Upper(if target.accountMode != "" then target.accountMode else target.expectedAccountType)
  }

  /** None when the route may be armed, else the first reason it may not. */
  function ValidateArmEligibility(route: Route, targetEnabled: bool, activeArmed: nat): Option<BlockReason> {
    var target := route.target;
    if !route.isEnabled then Some(RouteDisabled)
    else if !targetEnabled then Some(TargetDisabled)
    else if TargetAccountMode(target) != "DEMO" then Some(TargetNotDemo)
    else if Upper(target.executionPermission) != "LOCKED" then Some(ExecutionPermissionNotLocked)
    else if target.magicNumber != EXPECTED_MAGIC_NUMBER then Some(MagicMismatch)
    else if Upper(target.chartSymbol) != EXPECTED_CHART_SYMBOL then Some(SymbolMismatch)
    else if target.seedFilename != EXPECTED_SEED_FILENAME then Some(SeedFilenameMismatch)
    else if target.detailsFilename != EXPECTED_DETAILS_FILENAME then Some(DetailsFilenameMismatch)
    else if Strip(target.brokerLabel) != "" && Strip(target.brokerLabel) != EXPECTED_BROKER_LABEL then Some(BrokerMismatch)
    else if !Contains(NormalizePathToken(target.terminalDataPath), D0E_TERMINAL_DATA_PATH_ID) then Some(TerminalDataPathMismatch)
    else if Strip(route.channelTitle) != JUSTGOLD_CHANNEL_TITLE && Lower(Strip(route.name)) != "justgold" then Some(RouteSourceMismatch)
    else if activeArmed > 0 then Some(AnotherRouteAlreadyArmed)
    else if route.mode == Armed then Some(AlreadyArmed)
    else if route.mode in {Consumed, Expired, Blocked} then Some(NotRearmable)
    else None
  }

  predicate IsArmExpired(route: Route, nowMicros: nat) {
    route.mode == Armed &&
    match route.expiresAt
    case None => true
    case Some(text) =>
      match ParseIso(text)
      case None => true
      case Some(expiry) => nowMicros >= expiry * MICROS
  }

  /** None when the route may publish for real, else the first reason it may not. */
  function EvaluateRealPublishPermission(route: Route, listenerRunning: bool, dryRun: bool, nowMicros: nat): Option<BlockReason> {
    if route.mode == ObserverOnly then Some(ObserverOnlyNoRealPublish)
    else if route.mode != Armed then Some(NotArmed)
    else if dryRun then Some(DryRunBlocksRealPublish)
    else if !listenerRunning then Some(ListenerNotRunning)
    else if IsArmExpired(route, nowMicros) then Some(CandidateTestExpired)
    else if route.publishCount >= PUBLISH_LIMIT then Some(PublishAlreadyConsumed)
    else None
  }

  predicate RouteSupportsListenerStart(mode: Mode) {
    mode in {ObserverOnly, Armed}
  }

  // ---------- the guards on the columns themselves ----------

  /** The text is the given upper-case word, in any mix of cases. */
  predicate SpellsUpper(s: string, word: string) {
    |s| == |word| && forall i | 0 <= i < |s| :: s[i] == word[i] || ('a' <= s[i] <= 'z' && s[i] as int - 32 == word[i] as int)
  }

  /** The given upper-case word stands somewhere in the text, in any mix of cases. */
  ghost predicate Mentions(s: string, word: string) {
    exists i :: MentionedAt(s, word, i)
  }

  predicate MentionedAt(s: string, word: string, i: int) {
    0 <= i <= |s| - |word| && SpellsUpper(s[i..i + |word|], word)
  }

  /** What one check says: whether it holds, and the reason to give if it does not. */
  datatype Guard<R> = Guard(holds: bool, reason: R)

  function FirstFailing<R>(guards: seq<Guard<R>>): (reason: Option<R>)
    ensures reason.None? <==> forall i | 0 <= i < |guards| :: guards[i].holds
  {
    if guards == [] then None
    else if !guards[0].holds then Some(guards[0].reason)
    else FirstFailing(guards[1..])
  }

  /** The candidate test's own target and source. */
  ghost predicate ExpectedColumns(route: Route) {
    var target := route.target;
    && SpellsUpper(if target.accountMode != "" then target.accountMode else target.expectedAccountType, "DEMO")
    && SpellsUpper(target.executionPermission, "LOCKED")
    && target.magicNumber == 91001
    && SpellsUpper(target.chartSymbol, "XAUUSD")
    && target.seedFilename == "br_d0e_justgold_seed.txt" && target.detailsFilename == "br_d0e_justgold_details.txt"
    && Strip(target.brokerLabel) in {"", "VantageMarkets-Demo"}
    && Mentions(target.terminalDataPath, "D0E8209F77C8CF37AD8BF550E51FF075")
    && (Strip(route.channelTitle) == "JustGold" || Spells(Strip(route.name), "justgold"))
  }

  /** The row may be armed in this table: switched on, as expected, in observer mode, and no other row armed. */
  ghost predicate Armable(rows: Rows, id: int) {
    id in rows && rows[id].isEnabled && ExpectedColumns(rows[id]) && rows[id].mode == ObserverOnly
    && forall other | other in rows && rows[other].mode == Armed :: other == id
  }

  /** The checks of an arm request in their order. */
  ghost function ArmGuards(rows: Rows, id: int): seq<Guard<BlockReason>>
    requires id in rows
  {
    var route, target := rows[id], rows[id].target;
    [Guard(route.isEnabled, RouteDisabled),
     Guard(SpellsUpper(if target.accountMode != "" then target.accountMode else target.expectedAccountType, "DEMO"), TargetNotDemo),
     Guard(SpellsUpper(target.executionPermission, "LOCKED"), ExecutionPermissionNotLocked),
     Guard(target.magicNumber == 91001, MagicMismatch),
     Guard(SpellsUpper(target.chartSymbol, "XAUUSD"), SymbolMismatch),
     Guard(target.seedFilename == "br_d0e_justgold_seed.txt", SeedFilenameMismatch),
     Guard(target.detailsFilename == "br_d0e_justgold_details.txt", DetailsFilenameMismatch),
     Guard(Strip(target.brokerLabel) in {"", "VantageMarkets-Demo"}, BrokerMismatch),
     Guard(Mentions(target.terminalDataPath, "D0E8209F77C8CF37AD8BF550E51FF075"), TerminalDataPathMismatch),
     Guard(Strip(route.channelTitle) == "JustGold" || Spells(Strip(route.name), "justgold"), RouteSourceMismatch),
     Guard(forall other | other in rows && rows[other].mode == Armed :: other == id, AnotherRouteAlreadyArmed),
     Guard(route.mode != Armed, AlreadyArmed),
     Guard(route.mode == ObserverOnly, NotRearmable)]
  }

  lemma UpperSpells(s: string, word: string)
    requires forall i | 0 <= i < |word| :: !('a' <= word[i] <= 'z')
    ensures Upper(s) == word <==> SpellsUpper(s, word)
  {
    if Upper(s) == word {
      forall i | 0 <= i < |s| ensures s[i] == word[i] || ('a' <= s[i] <= 'z' && s[i] as int - 32 == word[i] as int) {
        assert Upper(s)[i] == UpperChar(s[i]);
      }
    }
    if SpellsUpper(s, word) {
      assert forall i | 0 <= i < |s| :: Upper(s)[i] == word[i];
    }
  }

  predicate PartAt(s: string, part: string, i: int) {
    0 <= i <= |s| - |part| && s[i..i + |part|] == part
  }

  lemma PartLater(s: string, part: string, i: int)
    requires s != "" && i >= 0
    ensures PartAt(s, part, i + 1) <==> PartAt(s[1..], part, i)
  {
    if i + 1 <= |s| - |part| {
      assert s[1..][i..i + |part|] == s[i + 1..i + 1 + |part|];
    }
  }

  lemma {:induction false} ContainsAt(s: string, part: string)
    ensures Contains(s, part) <==> exists i :: PartAt(s, part, i)
    decreases |s|
  {
    assert PartAt(s, part, 0) <==> part <= s;
    if s != "" {
      hide PartAt;
      ContainsAt(s[1..], part);
      forall i | PartAt(s, part, i) && i != 0 ensures PartAt(s[1..], part, i - 1) {
        PlaceInText(s, part, i);
        PartLater(s, part, i - 1);
      }
      forall i | PartAt(s[1..], part, i) ensures PartAt(s, part, i + 1) {
        PlaceInText(s[1..], part, i);
        PartLater(s, part, i);
      }
    }
  }

  lemma PlaceInText(s: string, part: string, i: int)
    requires PartAt(s, part, i)
    ensures 0 <= i <= |s| - |part|
  {
  }

  predicate AlphaNumeric(c: char) { IsDigit(c) || 'A' <= c <= 'Z' || 'a' <= c <= 'z' }

  /** Cutting characters off that no word can hold changes nothing. */
  lemma ForeignEnds(before: string, core: string, after: string, word: string)
    requires word != "" && forall i | 0 <= i < |word| :: IsDigit(word[i]) || 'A' <= word[i] <= 'Z'
    requires (forall c | c in before :: !AlphaNumeric(c)) && (forall c | c in after :: !AlphaNumeric(c))
    ensures Mentions(before + core + after, word) <==> Mentions(core, word)
  {
    var s, n := before + core + after, |word|;
    forall i | MentionedAt(s, word, i) ensures MentionedAt(core, word, i - |before|) {
      assert s[i..i + n][0] == s[i] && s[i..i + n][n - 1] == s[i + n - 1];
      assert AlphaNumeric(s[i]) && AlphaNumeric(s[i + n - 1]);
      assert core[i - |before|..i - |before| + n] == s[i..i + n];
    }
    forall i | MentionedAt(core, word, i) ensures MentionedAt(s, word, i + |before|) {
      assert s[i + |before|..i + |before| + n] == core[i..i + n];
    }
  }

  lemma {:induction false} StripQuotesSplits(s: string) returns (before: string, after: string)
    ensures s == before + StripQuotes(s) + after
    ensures (forall c | c in before :: c == '"') && (forall c | c in after :: c == '"')
    decreases |s|
  {
    before, after := "", "";
    if s != "" && s[0] == '"' {
      before, after := StripQuotesSplits(s[1..]);
      before := ['"'] + before;
    } else if s != "" && s[|s| - 1] == '"' {
      before, after := StripQuotesSplits(s[..|s| - 1]);
      after := after + ['"'];
    }
  }

  lemma TurnedMentions(s: string, word: string)
    requires forall i | 0 <= i < |word| :: IsDigit(word[i]) || 'A' <= word[i] <= 'Z'
    ensures Mentions(TurnBackslashes(s), word) <==> Mentions(s, word)
  {
    hide SpellsUpper;
    var t, n := TurnBackslashes(s), |word|;
    forall i ensures MentionedAt(t, word, i) <==> MentionedAt(s, word, i) {
      if 0 <= i <= |s| - n {
        assert t[i..i + n] == TurnBackslashes(s[i..i + n]);
        TurnedSpells(s[i..i + n], word);
      }
    }
  }

  lemma TurnedSpells(s: string, word: string)
    requires forall i | 0 <= i < |word| :: IsDigit(word[i]) || 'A' <= word[i] <= 'Z'
    ensures SpellsUpper(TurnBackslashes(s), word) <==> SpellsUpper(s, word)
  {
    assert forall i | 0 <= i < |s| :: TurnBackslashes(s)[i] == if s[i] == '\\' then '/' else s[i];
  }

  lemma UpperMentions(s: string, word: string)
    requires forall i | 0 <= i < |word| :: !('a' <= word[i] <= 'z')
    ensures Contains(Upper(s), word) <==> Mentions(s, word)
  {
    hide Contains, SpellsUpper;
    ContainsAt(Upper(s), word);
    forall i ensures PartAt(Upper(s), word, i) <==> MentionedAt(s, word, i) {
      if 0 <= i <= |s| - |word| {
        UpperSpells(s[i..i + |word|], word);
        assert Upper(s)[i..i + |word|] == Upper(s[i..i + |word|]);
      }
    }
  }

  /** Slashes, outer white space, quotes and case do not matter to where the identifier stands. */
  lemma PathMentions(path: string, word: string)
    requires word != "" && forall i | 0 <= i < |word| :: IsDigit(word[i]) || 'A' <= word[i] <= 'Z'
    ensures Contains(NormalizePathToken(path), word) <==> Mentions(path, word)
  {
    hide Contains, Mentions, Strip, StripQuotes, Upper, TurnBackslashes;
    var turned := TurnBackslashes(path);
    var before, after := StripSplits(turned);
    var before', after' := StripQuotesSplits(Strip(turned));
    UpperMentions(StripQuotes(Strip(turned)), word);
    ForeignEnds(before', StripQuotes(Strip(turned)), after', word);
    BlankIsForeign(before);
    BlankIsForeign(after);
    ForeignEnds(before, Strip(turned), after, word);
    TurnedMentions(path, word);
  }

  lemma BlankIsForeign(s: string)
    requires Blank(s)
    ensures forall c | c in s :: !AlphaNumeric(c)
  {
  }

  lemma ExpectedWords()
    ensures forall i | 0 <= i < |"DEMO"| :: !('a' <= "DEMO"[i] <= 'z')
    ensures forall i | 0 <= i < |"LOCKED"| :: !('a' <= "LOCKED"[i] <= 'z')
    ensures forall i | 0 <= i < |"XAUUSD"| :: !('a' <= "XAUUSD"[i] <= 'z')
    ensures forall i | 0 <= i < |"justgold"| :: !('A' <= "justgold"[i] <= 'Z')
  {
  }

  lemma ExpectedPath()
    ensures forall i | 0 <= i < |"D0E8209F77C8CF37AD8BF550E51FF075"| ::
              IsDigit("D0E8209F77C8CF37AD8BF550E51FF075"[i]) || 'A' <= "D0E8209F77C8CF37AD8BF550E51FF075"[i] <= 'Z'
  {
  }

  lemma NobodyElse(rows: Rows, id: int)
    ensures |ArmedIds(rows) - {id}| > 0 <==> !(forall other | other in rows && rows[other].mode == Armed :: other == id)
  {
    if forall other | other in rows && rows[other].mode == Armed :: other == id {
      assert ArmedIds(rows) - {id} == {};
    }
    forall other | other in rows && rows[other].mode == Armed && other != id ensures |ArmedIds(rows) - {id}| > 0 {
      assert other in ArmedIds(rows) - {id};
    }
  }

  /** What the code asks of the texts is what the checks say of them. */
  lemma TextGuards(route: Route)
    ensures var target := route.target;
            && (TargetAccountMode(target) == "DEMO" <==>
                  SpellsUpper(if target.accountMode != "" then target.accountMode else target.expectedAccountType, "DEMO"))
            && (Upper(target.executionPermission) == "LOCKED" <==> SpellsUpper(target.executionPermission, "LOCKED"))
            && (Upper(target.chartSymbol) == EXPECTED_CHART_SYMBOL <==> SpellsUpper(target.chartSymbol, "XAUUSD"))
            && (Contains(NormalizePathToken(target.terminalDataPath), D0E_TERMINAL_DATA_PATH_ID) <==>
                  Mentions(target.terminalDataPath, "D0E8209F77C8CF37AD8BF550E51FF075"))
            && (Lower(Strip(route.name)) == "justgold" <==> Spells(Strip(route.name), "justgold"))
  {
    hide Upper, Strip, Lower, Contains, Mentions, SpellsUpper, Spells, NormalizePathToken;
    var target := route.target;
    ExpectedWords();
    ExpectedPath();
    UpperSpells(if target.accountMode != "" then target.accountMode else target.expectedAccountType, "DEMO");
    UpperSpells(target.executionPermission, "LOCKED");
    UpperSpells(target.chartSymbol, "XAUUSD");
    PathMentions(target.terminalDataPath, "D0E8209F77C8CF37AD8BF550E51FF075");
    LowerSpells(Strip(route.name), "justgold");
  }

  /** The reason against an arm request is that of the first check that fails. */
  lemma ArmBlockIsFirst(rows: Rows, id: int)
    requires id in rows
    ensures ArmBlock(rows, id) == FirstFailing(ArmGuards(rows, id))
  {
    hide Upper, Strip, Lower, Contains, Mentions, SpellsUpper, Spells, NormalizePathToken, ArmedIds, TargetAccountMode, FirstFailing;
    TextGuards(rows[id]);
    NobodyElse(rows, id);
    FirstIsAt(ArmGuards(rows, id), match ArmBlock(rows, id)
                                   case None => 13
                                   case Some(reason) => GuardNumber(reason));
  }

  /** Which check gives the reason. */
  function GuardNumber(reason: BlockReason): nat {
    match reason
    case RouteDisabled => 0
    case TargetNotDemo => 1
    case ExecutionPermissionNotLocked => 2
    case MagicMismatch => 3
    case SymbolMismatch => 4
    case SeedFilenameMismatch => 5
    case DetailsFilenameMismatch => 6
    case BrokerMismatch => 7
    case TerminalDataPathMismatch => 8
    case RouteSourceMismatch => 9
    case AnotherRouteAlreadyArmed => 10
    case AlreadyArmed => 11
    case _ => 12
  }

  lemma {:induction false} FirstIsAt<R>(guards: seq<Guard<R>>, k: nat)
    requires k <= |guards| && forall i | 0 <= i < k :: guards[i].holds
    requires k < |guards| ==> !guards[k].holds
    ensures FirstFailing(guards) == if k < |guards| then Some(guards[k].reason) else None
  {
    if k > 0 {
      FirstIsAt(guards[1..], k - 1);
    }
  }

  /** An arm request can pass exactly on an armable row. */
  lemma CanArmIff(rows: Rows, id: int)
    ensures CanArm(rows, id) <==> Armable(rows, id)
  {
    hide Strip, Mentions, SpellsUpper, Spells, ArmBlock;
    if id in rows {
      ArmBlockIsFirst(rows, id);
      var guards := ArmGuards(rows, id);
      assert (forall i | 0 <= i < |guards| :: guards[i].holds) <==>
        && guards[0].holds && guards[1].holds && guards[2].holds && guards[3].holds && guards[4].holds && guards[5].holds
        && guards[6].holds && guards[7].holds && guards[8].holds && guards[9].holds && guards[10].holds && guards[11].holds
        && guards[12].holds;
    }
  }

  /** The checks before a real publish in their order. */
  function PermissionGuards(route: Route, listenerRunning: bool, dryRun: bool, nowMicros: nat): seq<Guard<BlockReason>> {
    [Guard(route.mode != ObserverOnly, ObserverOnlyNoRealPublish),
     Guard(route.mode == Armed, NotArmed),
     Guard(!dryRun, DryRunBlocksRealPublish),
     Guard(listenerRunning, ListenerNotRunning),
     Guard(BeforeExpiry(route, nowMicros), CandidateTestExpired),
     Guard(route.publishCount < 1, PublishAlreadyConsumed)]
  }

  /** The row's expiry can be read and lies ahead; the clock counts microseconds. */
  predicate BeforeExpiry(route: Route, nowMicros: nat) {
    route.expiresAt.Some? && ParseIso(route.expiresAt.value).Some? && nowMicros < ParseIso(route.expiresAt.value).value * 1_000_000
  }

  /** The reason against a real publish is that of the first check that fails, and there is none exactly when none fails. */
  lemma PermissionIsFirst(route: Route, listenerRunning: bool, dryRun: bool, nowMicros: nat)
    ensures EvaluateRealPublishPermission(route, listenerRunning, dryRun, nowMicros)
            == FirstFailing(PermissionGuards(route, listenerRunning, dryRun, nowMicros))
    ensures EvaluateRealPublishPermission(route, listenerRunning, dryRun, nowMicros).None? <==>
              route.mode == Armed && !dryRun && listenerRunning && BeforeExpiry(route, nowMicros) && route.publishCount < 1
  {
    hide ParseIso, FirstFailing;
    FirstIsAt(PermissionGuards(route, listenerRunning, dryRun, nowMicros),
              match EvaluateRealPublishPermission(route, listenerRunning, dryRun, nowMicros)
              case None => 6
              case Some(reason) =>
                match reason
                case ObserverOnlyNoRealPublish => 0
                case NotArmed => 1
                case DryRunBlocksRealPublish => 2
                case ListenerNotRunning => 3
                case CandidateTestExpired => 4
                case _ => 5);
  }

  // ---------- row transitions ----------

  type Rows = map<int, Route>

  /** The SQL test of expire_candidate_test_arms. */
  predicate Due(route: Route, nowMicros: nat) {
    route.mode == Armed && route.expiresAt.Some? && TextAtMost(route.expiresAt.value, Iso(nowMicros / MICROS))
  }

  function ExpiredRow(route: Route): Route {
    route.(mode := Expired, blockReason := Some("CANDIDATE_TEST_TTL_EXPIRED"))
  }

  function ExpireArms(rows: Rows, nowMicros: nat): Rows {
    map id | id in rows :: if Due(rows[id], nowMicros) then ExpiredRow(rows[id]) else rows[id]
  }

  function ArmedRow(route: Route, nowMicros: nat): Route {
    route.(mode := Armed, armedAt := Some(Iso(nowMicros / MICROS)), expiresAt := Some(Iso(nowMicros / MICROS + TTL_SECONDS)),
           armedBy := Some("local_operator"), publishCount := 0, blockReason := None)
  }

  function DisarmedRow(route: Route): Route {
    route.(mode := ObserverOnly, armedAt := None, expiresAt := None, armedBy := None, publishCount := 0, blockReason := None)
  }

  function ConsumedRow(route: Route): Route {
    var count := route.publishCount + 1;
    route.(publishCount := count, mode := if count >= 1 then Consumed else route.mode, blockReason := None)
  }

  function BlockedRow(route: Route, reason: string): Route {
    route.(mode := Blocked, blockReason := Some(reason))
  }

  function ArmedIds(rows: Rows): set<int> {
    set id | id in rows && rows[id].mode == Armed
  }

  datatype StoreError = RouteNotFound | ArmingBlocked(reason: BlockReason)

  /** The routes table; each method is one transaction. */
  class DashboardDatabase {
    var routes: Rows

    constructor (rows: Rows)
      ensures routes == rows
    {
      routes := rows;
    }

    method ExpireCandidateTestArms(nowMicros: nat) returns (expired: set<int>)
      modifies `routes
      ensures routes == ExpireArms(old(routes), nowMicros)
      ensures expired == set id | id in old(routes) && Due(old(routes)[id], nowMicros)
    {
      expired := set id | id in routes && Due(routes[id], nowMicros);
      routes := map id | id in routes :: if id in expired then ExpiredRow(routes[id]) else routes[id];
    }

    method CountActiveCandidateTestArms(excludeRouteId: int) returns (count: nat)
      ensures count == |ArmedIds(routes) - {excludeRouteId}|
    {
      count := |set id | id in routes && routes[id].mode == Armed && id != excludeRouteId|;
      assert (set id | id in routes && routes[id].mode == Armed && id != excludeRouteId) == ArmedIds(routes) - {excludeRouteId};
    }

    /** Reading a route's detail first expires what is due. */
    method GetRouteDetail(routeId: int, nowMicros: nat) returns (detail: Option<Route>)
      modifies `routes
      ensures routes == ExpireArms(old(routes), nowMicros)
      ensures detail == if routeId in routes then Some(routes[routeId]) else None
    {
      var _ := ExpireCandidateTestArms(nowMicros);
      detail := if routeId in routes then Some(routes[routeId]) else None;
    }

    method ArmCandidateTestRoute(routeId: int, nowMicros: nat) returns (r: Outcome<StoreError>)
      modifies `routes
      ensures r.Fail? <==> routeId !in old(routes)
      ensures routes == if r.Pass? then old(routes)[routeId := ArmedRow(old(routes)[routeId], nowMicros)] else old(routes)
    {
      if routeId !in routes {
        return Fail(RouteNotFound);
      }
      routes := routes[routeId := ArmedRow(routes[routeId], nowMicros)];
      r := Pass;
    }

    method DisarmCandidateTestRoute(routeId: int) returns (r: Outcome<StoreError>)
      modifies `routes
      ensures r.Fail? <==> routeId !in old(routes)
      ensures routes == if r.Pass? then old(routes)[routeId := DisarmedRow(old(routes)[routeId])] else old(routes)
    {
      if routeId !in routes {
        return Fail(RouteNotFound);
      }
      routes := routes[routeId := DisarmedRow(routes[routeId])];
      r := Pass;
    }

    method ConsumeCandidateTestPublish(routeId: int) returns (r: Outcome<StoreError>)
      modifies `routes
      ensures r.Fail? <==> routeId !in old(routes)
      ensures routes == if r.Pass? then old(routes)[routeId := ConsumedRow(old(routes)[routeId])] else old(routes)
    {
      if routeId !in routes {
        return Fail(RouteNotFound);
      }
      routes := routes[routeId := ConsumedRow(routes[routeId])];
      r := Pass;
    }

    method BlockCandidateTestRoute(routeId: int, reason: string) returns (r: Outcome<StoreError>)
      modifies `routes
      ensures r.Fail? <==> routeId !in old(routes)
      ensures routes == if r.Pass? then old(routes)[routeId := BlockedRow(old(routes)[routeId], reason)] else old(routes)
    {
      if routeId !in routes {
        return Fail(RouteNotFound);
      }
      routes := routes[routeId := BlockedRow(routes[routeId], reason)];
      r := Pass;
    }

    /**
     The arm request. The handler passes the joined row for the target too, whose `is_enabled` is
     the route's own, so the target's flag is never asked.
     */
    method ArmRequest(routeId: int, nowMicros: nat) returns (r: Outcome<StoreError>)
      modifies `routes
      ensures routes == Arm(old(routes), routeId, nowMicros)
      ensures r.Pass? <==> Armable(ExpireArms(old(routes), nowMicros), routeId)
      ensures r.Fail? ==> if routeId !in routes then r.error == RouteNotFound
                          else r.error.ArmingBlocked? && FirstFailing(ArmGuards(routes, routeId)) == Some(r.error.reason)
    {
      hide ValidateArmEligibility, ArmedRow, ExpireArms, Armable, FirstFailing, ArmGuards;
      CanArmIff(ExpireArms(routes, nowMicros), routeId);
      var detail := GetRouteDetail(routeId, nowMicros);
      if detail.None? {
        return Fail(RouteNotFound);
      }
      ArmBlockIsFirst(routes, routeId);
      var active := CountActiveCandidateTestArms(routeId);
      var reason := ValidateArmEligibility(detail.value, detail.value.isEnabled, active);
      if reason.Some? {
        return Fail(ArmingBlocked(reason.value));
      }
      r := ArmCandidateTestRoute(routeId, nowMicros);
    }
  }

  function ArmBlock(rows: Rows, routeId: int): Option<BlockReason>
    requires routeId in rows
  {
    ValidateArmEligibility(rows[routeId], rows[routeId].isEnabled, |ArmedIds(rows) - {routeId}|)
  }

  predicate CanArm(rows: Rows, routeId: int) {
    routeId in rows && ArmBlock(rows, routeId).None?
  }

  /** The arm request as one atomic step. */
  function Arm(rows: Rows, routeId: int, nowMicros: nat): Rows {
    var current := ExpireArms(rows, nowMicros);
    if CanArm(current, routeId) then current[routeId := ArmedRow(current[routeId], nowMicros)] else current
  }

  // ---------- the target's own flag ----------

  function WithTargetFlag(route: Route, isEnabled: bool): Route {
    route.(target := route.target.(isEnabled := isEnabled))
  }

  /**
   No guard hangs on whether a target is enabled: setting the flag of any target changes neither what
   may be armed nor the reason against it, and the reason TargetDisabled is never given.
   */
  lemma TargetFlagNeverAsked(rows: Rows, id: int, isEnabled: bool, asked: int)
    requires id in rows && asked in rows
    ensures var rows' := rows[id := WithTargetFlag(rows[id], isEnabled)];
            && ArmBlock(rows', asked) == ArmBlock(rows, asked)
            && (CanArm(rows', asked) <==> CanArm(rows, asked))
    ensures ArmBlock(rows, asked) != Some(TargetDisabled)
  {
    hide ValidateArmEligibility;
    var rows' := rows[id := WithTargetFlag(rows[id], isEnabled)];
    assert ArmedIds(rows') == ArmedIds(rows);
    GuardsIgnoreTargetFlag(rows[id], isEnabled, rows[id].isEnabled, |ArmedIds(rows) - {id}|);
    EnabledIsOneFlag(rows[asked], |ArmedIds(rows) - {asked}|);
  }

  lemma GuardsIgnoreTargetFlag(route: Route, isEnabled: bool, targetEnabled: bool, activeArmed: nat)
    ensures ValidateArmEligibility(WithTargetFlag(route, isEnabled), targetEnabled, activeArmed)
            == ValidateArmEligibility(route, targetEnabled, activeArmed)
  {
    hide Upper, Lower, Strip, Contains, NormalizePathToken, TargetAccountMode;
    var target, target' := route.target, WithTargetFlag(route, isEnabled).target;
    assert TargetAccountMode(target') == TargetAccountMode(target) by {
      SameAccountMode(target, isEnabled);
    }
  }

  lemma SameAccountMode(target: Target, isEnabled: bool)
    ensures TargetAccountMode(target.(isEnabled := isEnabled)) == TargetAccountMode(target)
  {
    hide Upper;
  }

  lemma EnabledIsOneFlag(route: Route, activeArmed: nat)
    ensures ValidateArmEligibility(route, route.isEnabled, activeArmed) != Some(TargetDisabled)
  {
    hide Upper, Lower, Strip, Contains, NormalizePathToken, TargetAccountMode;
  }

  const EXPECTED_TARGET := Target(true, "DEMO", "", "LOCKED", EXPECTED_MAGIC_NUMBER, EXPECTED_CHART_SYMBOL, EXPECTED_SEED_FILENAME,
                                  EXPECTED_DETAILS_FILENAME, EXPECTED_BROKER_LABEL, D0E_TERMINAL_DATA_PATH_ID)

  /** The route the guards are made for, on a target that is switched off, is armed while nothing else is. */
  lemma DisabledTargetArms(rows: Rows, id: int, name: string, nowMicros: nat)
    requires id in rows && ArmedIds(ExpireArms(rows, nowMicros)) <= {id}
    requires rows[id] == Route(name, true, JUSTGOLD_CHANNEL_TITLE, EXPECTED_TARGET.(isEnabled := false), ObserverOnly,
                               None, None, None, 0, None)
    ensures Arm(rows, id, nowMicros)[id] == ArmedRow(rows[id], nowMicros) && !ArmedRow(rows[id], nowMicros).target.isEnabled
  {
    hide Strip, Lower, NormalizePathToken, Iso;
    ExpectedTexts();
    assert ArmedIds(ExpireArms(rows, nowMicros)) - {id} == {};
  }

  lemma ExpectedTexts()
    ensures Upper("DEMO") == "DEMO" && Upper("LOCKED") == "LOCKED" && Upper(EXPECTED_CHART_SYMBOL) == EXPECTED_CHART_SYMBOL
    ensures Strip(EXPECTED_BROKER_LABEL) == EXPECTED_BROKER_LABEL && Strip(JUSTGOLD_CHANNEL_TITLE) == JUSTGOLD_CHANNEL_TITLE
    ensures NormalizePathToken(D0E_TERMINAL_DATA_PATH_ID) == D0E_TERMINAL_DATA_PATH_ID
  {
    hide Strip, Upper, NormalizePathToken;
    StripOfTrimmed(EXPECTED_BROKER_LABEL);
    StripOfTrimmed(JUSTGOLD_CHANNEL_TITLE);
    UpperOfUpper("DEMO");
    UpperOfUpper("LOCKED");
    UpperOfUpper(EXPECTED_CHART_SYMBOL);
    NormalPath(D0E_TERMINAL_DATA_PATH_ID);
  }

  lemma UpperOfUpper(s: string)
    requires forall i | 0 <= i < |s| :: !('a' <= s[i] <= 'z')
    ensures Upper(s) == s
  {
  }

  lemma NormalPath(path: string)
    requires Trimmed(path) && forall i | 0 <= i < |path| :: path[i] != '\\' && path[i] != '"' && !('a' <= path[i] <= 'z')
    ensures NormalizePathToken(path) == path
  {
    hide Strip, Upper, Trimmed;
    assert TurnBackslashes(path) == path;
    StripOfTrimmed(path);
    UpperOfUpper(path);
  }

  // ---------- what the transitions write ----------

  /** Observer mode with nothing armed, counted or blocked. */
  predicate Clean(route: Route) {
    route.mode == ObserverOnly && route.armedAt.None? && route.expiresAt.None? && route.armedBy.None? && route.publishCount == 0
    && route.blockReason.None?
  }

  /** Disarming undoes whatever arming and its consequences have written to a clean row. */
  lemma DisarmingUndoes(route: Route, nowMicros: nat, reason: string)
    requires Clean(route)
    ensures var armed := ArmedRow(route, nowMicros);
            && DisarmedRow(armed) == route && DisarmedRow(ConsumedRow(armed)) == route && DisarmedRow(ExpiredRow(armed)) == route
            && DisarmedRow(BlockedRow(armed, reason)) == route && DisarmedRow(BlockedRow(ConsumedRow(armed), reason)) == route
  {
  }

  /** The columns of a row that is armed, published once, due, or blocked; all others stay as they were. */
  lemma TransitionColumns(route: Route, nowMicros: nat, reason: string)
    requires Clean(route)
    ensures var armed := ArmedRow(route, nowMicros);
            && armed == route.(mode := Armed, armedAt := Some(Iso(nowMicros / 1_000_000)),
                               expiresAt := Some(Iso(nowMicros / 1_000_000 + 900)), armedBy := Some("local_operator"))
            && ConsumedRow(armed) == armed.(mode := Consumed, publishCount := 1)
            && ExpiredRow(armed) == armed.(mode := Expired, blockReason := Some("CANDIDATE_TEST_TTL_EXPIRED"))
            && BlockedRow(armed, reason) == armed.(mode := Blocked, blockReason := Some(reason))
  {
    hide Iso;
  }
}
