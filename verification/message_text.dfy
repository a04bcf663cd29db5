/**
 Telegram text: stripping, line endings, the two header patterns, classification and
 validation (integrations/telegram/fasttrack_file_bridge.py).
 */
module MessageText {
  import opened Decimals
  import opened Wrappers

  datatype BridgeError =
    | EmptyText
    | NotAscii
    | SeedFormat
    | UnsupportedSymbol(symbol: string)
    | PayloadTooLarge
    | InvalidFilename

  datatype Header = Header(symbol: string, direction: string)

  datatype Classification = Empty | NonAscii | SeedMessage | DetailsMessage | Unrecognized

  const MAX_BYTES: nat := 8192
  const SUPPORTED_SYMBOLS: set<string> := {"gold"}

  // ---------- characters ----------

  /** The characters str.strip and the pattern class \s treat as white space. */
  predicate IsSpace(c: char) {
    || '\t' <= c <= '\r'
    || '\U{1c}' <= c <= ' '
    || c in {'\U{85}', '\U{a0}', '\U{1680}', '\U{2028}', '\U{2029}', '\U{202f}', '\U{205f}', '\U{3000}'}
    || '\U{2000}' <= c <= '\U{200a}'
  }

  predicate IsWordChar(c: char) {
    IsDigit(c) || 'a' <= c <= 'z' || 'A' <= c <= 'Z' || c == '_'
  }

  predicate IsAscii(s: string) {
    forall i | 0 <= i < |s| :: s[i] < '\U{80}'
  }

  function LowerChar(c: char): char {
    if 'A' <= c <= 'Z' then c + ' ' else c
  }

  function Lower(s: string): (r: string)
    ensures |r| == |s|
  {
    seq(|s|, i requires 0 <= i < |s| => LowerChar(s[i]))
  }

  predicate Blank(s: string) {
    forall i | 0 <= i < |s| :: IsSpace(s[i])
  }

  predicate Solid(s: string) {
    forall i | 0 <= i < |s| :: !IsSpace(s[i])
  }

  predicate Trimmed(s: string) {
    s == "" || (!IsSpace(s[0]) && !IsSpace(s[|s| - 1]))
  }

  predicate Contains(s: string, part: string)
    decreases |s|
  {
    part <= s || (s != "" && Contains(s[1..], part))
  }

  // ---------- strip ----------

  function StripLeft(s: string): string {
    if s != "" && IsSpace(s[0]) then StripLeft(s[1..]) else s
  }

  function StripRight(s: string): string {
    if s != "" && IsSpace(s[|s| - 1]) then StripRight(s[..|s| - 1]) else s
  }

  function Strip(s: string): string {
    StripRight(StripLeft(s))
  }

  lemma {:induction false} StripLeftOf(gap: string, s: string)
    requires Blank(gap)
    requires s == "" || !IsSpace(s[0])
    ensures StripLeft(gap + s) == s
  {
    if gap == "" {
      assert gap + s == s;
    } else {
      assert (gap + s)[1..] == gap[1..] + s;
      StripLeftOf(gap[1..], s);
    }
  }

  lemma {:induction false} StripRightOf(s: string, gap: string)
    requires Blank(gap)
    requires s == "" || !IsSpace(s[|s| - 1])
    ensures StripRight(s + gap) == s
  {
    if gap == "" {
      assert s + gap == s;
    } else {
      assert (s + gap)[..|s + gap| - 1] == s + gap[..|gap| - 1];
      StripRightOf(s, gap[..|gap| - 1]);
    }
  }

  /** Stripping removes exactly the outer white space: any such reading of a text gives its strip. */
  lemma StripUnique(before: string, s: string, after: string)
    requires Blank(before) && Blank(after) && Trimmed(s)
    ensures Strip(before + s + after) == s
  {
    if s == "" {
      var all := before + s + after;
      assert all == all + "";
      StripLeftOf(all, "");
    } else {
      assert before + s + after == before + (s + after);
      StripLeftOf(before, s + after);
      StripRightOf(s, after);
    }
  }

  lemma {:induction false} StripLeftSplits(s: string) returns (before: string)
    ensures Blank(before) && s == before + StripLeft(s)
    ensures StripLeft(s) == "" || !IsSpace(StripLeft(s)[0])
  {
    if s != "" && IsSpace(s[0]) {
      var rest := StripLeftSplits(s[1..]);
      before := [s[0]] + rest;
    } else {
      before := "";
    }
  }

  lemma {:induction false} StripRightSplits(s: string) returns (after: string)
    ensures Blank(after) && s == StripRight(s) + after
    ensures StripRight(s) == "" || !IsSpace(StripRight(s)[|StripRight(s)| - 1])
  {
    if s != "" && IsSpace(s[|s| - 1]) {
      var rest := StripRightSplits(s[..|s| - 1]);
      after := rest + [s[|s| - 1]];
    } else {
      after := "";
    }
  }

  lemma StripSplits(s: string) returns (before: string, after: string)
    ensures Blank(before) && Blank(after) && Trimmed(Strip(s))
    ensures s == before + Strip(s) + after
  {
    before := StripLeftSplits(s);
    after := StripRightSplits(StripLeft(s));
    assert StripLeft(s) == Strip(s) + after;
  }

  lemma StripOfTrimmed(s: string)
    requires Trimmed(s)
    ensures Strip(s) == s
  {
    StripUnique("", s, "");
    assert "" + s + "" == s;
  }

  lemma StripIdempotent(s: string)
    ensures Strip(Strip(s)) == Strip(s)
  {
    var before, after := StripSplits(s);
    StripUnique("", Strip(s), "");
    assert "" + Strip(s) + "" == Strip(s);
  }

  // ---------- line endings ----------

  /** "\r\n" and then "\r" become "\n". */
  function NormalizeLineEndings(s: string): string {
    if s == "" then ""
    else if s[0] != '\r' then [s[0]] + NormalizeLineEndings(s[1..])
    else if |s| > 1 && s[1] == '\n' then "\n" + NormalizeLineEndings(s[2..])
    else "\n" + NormalizeLineEndings(s[1..])
  }

  /** text.replace("\r\n", "\n") */
  function JoinPairs(s: string): string
    decreases |s|
  {
    if s == "" then ""
    else if |s| > 1 && s[0] == '\r' && s[1] == '\n' then "\n" + JoinPairs(s[2..])
    else [s[0]] + JoinPairs(s[1..])
  }

  /** text.replace("\r", "\n") */
  function TurnReturns(s: string): string {
    seq(|s|, i requires 0 <= i < |s| => if s[i] == '\r' then '\n' else s[i])
  }

  /** Normalising in one pass does what the two replacements do one after the other. */
  lemma {:induction false} NormalizeIsTwoReplaces(s: string)
    ensures NormalizeLineEndings(s) == TurnReturns(JoinPairs(s))
    decreases |s|
  {
    if s != "" {
      var pair := |s| > 1 && s[0] == '\r' && s[1] == '\n';
      var rest := if pair then s[2..] else s[1..];
      NormalizeIsTwoReplaces(rest);
      assert JoinPairs(s)[1..] == JoinPairs(rest);
      assert TurnReturns(JoinPairs(s)) == [TurnReturns(JoinPairs(s))[0]] + TurnReturns(JoinPairs(rest));
    }
  }

  lemma {:induction false} NormalizeNoReturns(s: string)
    ensures '\r' !in NormalizeLineEndings(s)
    ensures '\n' !in NormalizeLineEndings(s) ==> NormalizeLineEndings(s) == s
    ensures '\r' !in s ==> NormalizeLineEndings(s) == s
    decreases |s|
  {
    if s == "" {
    } else if s[0] != '\r' {
      NormalizeNoReturns(s[1..]);
      assert s == [s[0]] + s[1..];
    } else if |s| > 1 && s[1] == '\n' {
      NormalizeNoReturns(s[2..]);
      assert NormalizeLineEndings(s)[0] == '\n';
    } else {
      NormalizeNoReturns(s[1..]);
      assert NormalizeLineEndings(s)[0] == '\n';
    }
  }

  lemma NormalizeIdempotent(s: string)
    ensures NormalizeLineEndings(NormalizeLineEndings(s)) == NormalizeLineEndings(s)
  {
  }

  lemma {:induction false} NormalizeAppend(a: string, b: string)
    requires a == "" || b == "" || a[|a| - 1] != '\r' || b[0] != '\n'
    ensures NormalizeLineEndings(a + b) == NormalizeLineEndings(a) + NormalizeLineEndings(b)
    decreases |a|
  {
    if a == "" {
      assert a + b == b;
    } else if a[0] == '\r' && |a| > 1 && a[1] == '\n' {
      assert (a + b)[2..] == a[2..] + b;
      NormalizeAppend(a[2..], b);
    } else {
      assert (a + b)[1..] == a[1..] + b;
      NormalizeAppend(a[1..], b);
    }
  }

  lemma {:induction false} NormalizeKeepsKind(s: string)
    ensures Blank(s) ==> Blank(NormalizeLineEndings(s))
    ensures IsAscii(s) <==> IsAscii(NormalizeLineEndings(s))
    ensures s != "" ==> NormalizeLineEndings(s) != ""
    decreases |s|
  {
    if s == "" {
    } else if s[0] == '\r' && |s| > 1 && s[1] == '\n' {
      var t := s[2..];
      assert s == [s[0], s[1]] + t;
      NormalizeKeepsKind(t);
      assert NormalizeLineEndings(s) == "\n" + NormalizeLineEndings(t);
      assert IsAscii(s) <==> IsAscii(t);
      assert IsAscii(NormalizeLineEndings(s)) <==> IsAscii(NormalizeLineEndings(t)) by {
        AsciiCons('\n', NormalizeLineEndings(t));
      }
    } else {
      var t := s[1..];
      assert s == [s[0]] + t;
      NormalizeKeepsKind(t);
      AsciiCons(s[0], t);
      AsciiCons(NormalizeLineEndings(s)[0], NormalizeLineEndings(t));
    }
  }

  lemma AsciiCons(c: char, s: string)
    ensures IsAscii([c] + s) <==> c < '\U{80}' && IsAscii(s)
  {
    assert ([c] + s)[1..] == s;
    if IsAscii([c] + s) {
      assert ([c] + s)[0] == c;
      forall i | 0 <= i < |s| ensures s[i] < '\U{80}' {
        assert ([c] + s)[i + 1] == s[i];
      }
    }
  }

  lemma {:induction false} NormalizeKeepsTrimmed(s: string)
    requires s != "" && !IsSpace(s[|s| - 1])
    ensures NormalizeLineEndings(s) != "" && !IsSpace(NormalizeLineEndings(s)[|NormalizeLineEndings(s)| - 1])
    ensures !IsSpace(s[0]) ==> !IsSpace(NormalizeLineEndings(s)[0])
  {
    var body, end := s[..|s| - 1], s[|s| - 1..];
    assert s == body + end;
    NormalizeAppend(body, end);
    assert NormalizeLineEndings(end) == end;
  }

  /** Normalising line endings and stripping commute. */
  lemma StripNormalizeCommute(s: string)
    ensures Strip(NormalizeLineEndings(s)) == NormalizeLineEndings(Strip(s))
    ensures Trimmed(NormalizeLineEndings(Strip(s)))
    ensures NormalizeLineEndings(Strip(s)) == "" <==> Strip(s) == ""
  {
    hide Strip, NormalizeLineEndings;
    var before, after := StripSplits(s);
    var core := Strip(s);
    if core == "" {
      assert s == before + after;
      NormalizeKeepsKind(s);
      NormalizeNoReturns("");
      StripUnique(NormalizeLineEndings(s), "", "");
      assert NormalizeLineEndings(s) + "" + "" == NormalizeLineEndings(s);
    } else {
      NormalizeKeepsTrimmed(core);
      NormalizeParts(before, core, after);
      NormalizeKeepsKind(before);
      NormalizeKeepsKind(after);
      StripUnique(NormalizeLineEndings(before), NormalizeLineEndings(core), NormalizeLineEndings(after));
    }
  }

  lemma NormalizeParts(before: string, core: string, after: string)
    requires core != "" && Trimmed(core)
    ensures NormalizeLineEndings(before + core + after)
            == NormalizeLineEndings(before) + NormalizeLineEndings(core) + NormalizeLineEndings(after)
  {
    NormalizeAppend(before, core);
    NormalizeAppend(before + core, after);
  }

  // ---------- lines ----------

  function FirstLine(s: string): (line: string)
    ensures |line| <= |s| && line == s[..|line|]
    ensures '\n' !in line
    ensures |line| < |s| ==> s[|line|] == '\n'
  {
    if s == "" || s[0] == '\n' then "" else [s[0]] + FirstLine(s[1..])
  }

  /** The stripped lines that are not blank. */
  function NonBlankLines(s: string): seq<string>
    decreases |s|
  {
    var line := FirstLine(s);
    var here := if Strip(line) == "" then [] else [Strip(line)];
    if |line| == |s| then here else here + NonBlankLines(s[|line| + 1..])
  }

  lemma StripNonEmpty(s: string, i: nat)
    requires i < |s| && !IsSpace(s[i])
    ensures Strip(s) != ""
  {
    var before, after := StripSplits(s);
  }

  lemma {:induction false} LastLineCounts(s: string)
    requires s != "" && !IsSpace(s[|s| - 1])
    ensures |NonBlankLines(s)| >= 1
    decreases |s|
  {
    var line := FirstLine(s);
    if |line| == |s| {
      StripNonEmpty(line, |line| - 1);
    } else {
      LastLineCounts(s[|line| + 1..]);
    }
  }

  /** A stripped text with one non-blank line has no line break at all. */
  lemma OneLineNoBreak(s: string)
    requires Trimmed(s) && s != "" && |NonBlankLines(s)| == 1
    ensures '\n' !in s && NonBlankLines(s) == [s]
  {
    var line := FirstLine(s);
    StripOfTrimmed(s);
    if |line| == |s| {
      assert line == s[..|s|] == s;
    } else {
      StripNonEmpty(line, 0);
      LastLineCounts(s[|line| + 1..]);
    }
  }

  // ---------- patterns ----------

  /** Length of the longest prefix without (with only) white space. */
  function WordSpan(s: string): (n: nat)
    ensures n <= |s| && Solid(s[..n]) && (n < |s| ==> IsSpace(s[n]))
  {
    if s == "" || IsSpace(s[0]) then 0
    else
      var n := 1 + WordSpan(s[1..]);
      assert s[..n] == [s[0]] + s[1..][..n - 1];
      n
  }

  function GapSpan(s: string): (n: nat)
    ensures n <= |s| && Blank(s[..n]) && (n < |s| ==> !IsSpace(s[n]))
  {
    if s == "" || !IsSpace(s[0]) then 0
    else
      var n := 1 + GapSpan(s[1..]);
      assert s[..n] == [s[0]] + s[1..][..n - 1];
      n
  }

  predicate StartsWithIgnoreCase(s: string, word: string) {
    |word| <= |s| && Lower(s[..|word|]) == word
  }

  function DirectionSpan(s: string): nat {
    if StartsWithIgnoreCase(s, "buy") then 3
    else if StartsWithIgnoreCase(s, "sell") then 4
    else 0
  }

  /** Matches `symbol, white space, buy or sell, white space` at the start; returns what is left. */
  function MatchHead(s: string): Option<(Header, string)> {
    var w := WordSpan(s);
    var afterWord := s[w..];
    var g := GapSpan(afterWord);
    var afterGap := afterWord[g..];
    var d := DirectionSpan(afterGap);
    if w == 0 || g == 0 || d == 0 then None
    else
      var afterDirection := afterGap[d..];
      var h := GapSpan(afterDirection);
      if h == 0 then None
      else Some((Header(Lower(s[..w]), Lower(afterGap[..d])), afterDirection[h..]))
  }

  /** The seed pattern: the head, then `now` up to the end of the text or its final line break. */
  function MatchSeed(s: string): Option<Header> {
    var (head, rest) :- MatchHead(s);
    if Lower(rest) == "now" || Lower(rest) == "now\n" then Some(head) else None
  }

  /** The details pattern: the head, then `now` at a word boundary. */
  function MatchDetailsHeader(s: string): Option<Header> {
    var (head, rest) :- MatchHead(s);
    if StartsWithIgnoreCase(rest, "now") && (|rest| == 3 || !IsWordChar(rest[3])) then Some(head) else None
  }

  /** What the seed pattern means: one reading of the text as symbol, direction and `now`. */
  ghost predicate ReadsAsSeed(s: string, symbol: string, gap: string, direction: string, gap': string, now: string) {
    && s == symbol + (gap + (direction + (gap' + now)))
    && symbol != "" && Solid(symbol)
    && gap != "" && Blank(gap)
    && Lower(direction) in {"buy", "sell"}
    && gap' != "" && Blank(gap')
    && Lower(now) == "now"
  }

  lemma {:induction false} WordSpanOf(a: string, b: string)
    requires Solid(a) && (b == "" || IsSpace(b[0]))
    ensures WordSpan(a + b) == |a|
  {
    if a == "" {
      assert a + b == b;
    } else {
      assert (a + b)[1..] == a[1..] + b;
      WordSpanOf(a[1..], b);
    }
  }

  lemma {:induction false} GapSpanOf(a: string, b: string)
    requires Blank(a) && (b == "" || !IsSpace(b[0]))
    ensures GapSpan(a + b) == |a|
  {
    if a == "" {
      assert a + b == b;
    } else {
      assert (a + b)[1..] == a[1..] + b;
      GapSpanOf(a[1..], b);
    }
  }

  lemma LowerSolid(s: string)
    requires Lower(s) in {"buy", "sell", "now"}
    ensures s != "" && Solid(s) && IsAscii(s)
  {
    var l := Lower(s);
    assert Solid(l) && IsAscii(l);
    forall i | 0 <= i < |s| ensures !IsSpace(s[i]) && s[i] < '\U{80}' {
      assert l[i] == LowerChar(s[i]);
    }
  }

  lemma DirectionSpanOf(direction: string, rest: string)
    requires Lower(direction) in {"buy", "sell"}
    ensures DirectionSpan(direction + rest) == |direction|
  {
    var s := direction + rest;
    if Lower(direction) == "buy" {
      assert s[..3] == direction;
    } else {
      assert s[..4] == direction;
      assert Lower(s[..3])[0] == LowerChar(s[0]) == Lower(direction)[0] == 's';
    }
  }

  lemma HeadOfParts(symbol: string, gap: string, direction: string, gap': string, rest: string)
    requires symbol != "" && Solid(symbol) && gap != "" && Blank(gap) && gap' != "" && Blank(gap')
    requires Lower(direction) in {"buy", "sell"}
    requires rest == "" || !IsSpace(rest[0])
    ensures MatchHead(symbol + (gap + (direction + (gap' + rest)))) == Some((Header(Lower(symbol), Lower(direction)), rest))
  {
    LowerSolid(direction);
    var tail2 := gap' + rest;
    var tail1 := direction + tail2;
    var tail0 := gap + tail1;
    var s := symbol + tail0;
    WordSpanOf(symbol, tail0);
    assert s[..|symbol|] == symbol && s[|symbol|..] == tail0;
    GapSpanOf(gap, tail1);
    assert tail0[|gap|..] == tail1;
    DirectionSpanOf(direction, tail2);
    assert tail1[..|direction|] == direction && tail1[|direction|..] == tail2;
    GapSpanOf(gap', rest);
    assert tail2[|gap'|..] == rest;
  }

  lemma SeedReadingMatches(s: string, symbol: string, gap: string, direction: string, gap': string, now: string)
    requires ReadsAsSeed(s, symbol, gap, direction, gap', now)
    ensures MatchSeed(s) == Some(Header(Lower(symbol), Lower(direction)))
  {
    LowerSolid(now);
    HeadOfParts(symbol, gap, direction, gap', now);
  }

  lemma Cut(s: string, n: nat)
    requires n <= |s|
    ensures s == s[..n] + s[n..]
  {
  }

  lemma HeadReads(s: string) returns (symbol: string, gap: string, direction: string, gap': string, rest: string)
    requires MatchHead(s).Some?
    ensures s == symbol + (gap + (direction + (gap' + rest)))
    ensures symbol != "" && Solid(symbol) && gap != "" && Blank(gap) && gap' != "" && Blank(gap')
    ensures Lower(direction) in {"buy", "sell"}
    ensures MatchHead(s) == Some((Header(Lower(symbol), Lower(direction)), rest))
  {
    var w := WordSpan(s);
    var afterWord := s[w..];
    var g := GapSpan(afterWord);
    var afterGap := afterWord[g..];
    var d := DirectionSpan(afterGap);
    var afterDirection := afterGap[d..];
    var h := GapSpan(afterDirection);
    symbol, gap, direction, gap', rest := s[..w], afterWord[..g], afterGap[..d], afterDirection[..h], afterDirection[h..];
    Cut(s, w);
    Cut(afterWord, g);
    Cut(afterGap, d);
    Cut(afterDirection, h);
  }

  lemma SeedMatchReads(s: string)
      returns (symbol: string, gap: string, direction: string, gap': string, now: string)
    requires MatchSeed(s).Some? && Trimmed(s)
    ensures ReadsAsSeed(s, symbol, gap, direction, gap', now)
  {
    hide MatchHead;
    symbol, gap, direction, gap', now := HeadReads(s);
    if now != "" {
      NoTrailingBreak(s, now);
    }
  }

  lemma NoTrailingBreak(s: string, now: string)
    requires Trimmed(s) && now != "" && |now| <= |s| && s[|s| - |now|..] == now
    ensures Lower(now) != "now\n"
  {
    assert s[|s| - 1] == now[|now| - 1];
    assert Lower(now)[|now| - 1] == LowerChar(now[|now| - 1]);
    assert "now\n"[3] == '\n';
  }

  /** White-space splitting. */
  function Words(s: string): seq<string>
    decreases |s|
  {
    if s == "" then []
    else if IsSpace(s[0]) then Words(s[1..])
    else
      assert WordSpan(s) > 0;
      [s[..WordSpan(s)]] + Words(s[WordSpan(s)..])
  }

  lemma {:induction false} WordsSkipGap(gap: string, s: string)
    requires Blank(gap)
    ensures Words(gap + s) == Words(s)
  {
    if gap == "" {
      assert gap + s == s;
    } else {
      assert (gap + s)[1..] == gap[1..] + s;
      WordsSkipGap(gap[1..], s);
    }
  }

  lemma WordsTakeWord(word: string, s: string)
    requires word != "" && Solid(word) && (s == "" || IsSpace(s[0]))
    ensures Words(word + s) == [word] + Words(s)
  {
    WordSpanOf(word, s);
    assert (word + s)[..|word|] == word && (word + s)[|word|..] == s;
  }

  lemma WordsSplit(s: string) returns (word: string, gap: string, rest: string)
    requires s != "" && !IsSpace(s[0])
    ensures s == word + gap + rest && word != "" && Solid(word) && Blank(gap)
    ensures gap == "" ==> rest == ""
    ensures rest != "" ==> !IsSpace(rest[0])
    ensures Words(s) == [word] + Words(rest)
  {
    var w := WordSpan(s);
    word := s[..w];
    var after := s[w..];
    var g := GapSpan(after);
    gap, rest := after[..g], after[g..];
    assert s == word + after;
    assert after == gap + rest;
    WordsSkipGap(gap, rest);
  }

  predicate IsSeedWords(words: seq<string>) {
    |words| == 3 && Lower(words[1]) in {"buy", "sell"} && Lower(words[2]) == "now"
  }

  lemma SeedReadingWords(s: string, symbol: string, gap: string, direction: string, gap': string, now: string)
    requires ReadsAsSeed(s, symbol, gap, direction, gap', now)
    ensures Words(s) == [symbol, direction, now]
  {
    LowerSolid(direction);
    LowerSolid(now);
    var tail2 := now + "";
    var tail1 := direction + (gap' + tail2);
    assert s == symbol + (gap + tail1);
    WordsTakeWord(now, "");
    WordsSkipGap(gap', tail2);
    WordsTakeWord(direction, gap' + tail2);
    WordsSkipGap(gap, tail1);
    WordsTakeWord(symbol, gap + tail1);
    assert Words(tail1) == [direction] + [now];
  }

  lemma SeedWordsRead(s: string)
      returns (symbol: string, gap: string, direction: string, gap': string, now: string)
    requires Trimmed(s) && IsSeedWords(Words(s))
    ensures ReadsAsSeed(s, symbol, gap, direction, gap', now)
  {
    var rest, rest', gap'', rest'';
    symbol, gap, rest := WordsSplit(s);
    assert |Words(rest)| == 2;
    direction, gap', rest' := WordsSplit(rest);
    assert |Words(rest')| == 1;
    now, gap'', rest'' := WordsSplit(rest');
    assert Words(s) == [symbol, direction, now] && Words(rest'') == [];
    if rest'' != "" {
      var _, _, _ := WordsSplit(rest'');
      assert false;
    }
    NoTrailingGap(s, gap'');
    assert rest' == now;
    assert s == symbol + gap + rest == symbol + (gap + rest);
    assert rest == direction + gap' + rest' == direction + (gap' + rest');
  }

  lemma NoTrailingGap(s: string, gap: string)
    requires Trimmed(s) && Blank(gap) && |gap| <= |s| && s[|s| - |gap|..] == gap
    ensures gap == ""
  {
  }

  /** On stripped text the seed pattern is exactly a split into symbol, direction and `now`. */
  lemma SeedPatternIsThreeWords(s: string)
    requires Trimmed(s)
    ensures MatchSeed(s).Some? <==> IsSeedWords(Words(s))
    ensures MatchSeed(s).Some? ==> MatchSeed(s).value == Header(Lower(Words(s)[0]), Lower(Words(s)[1]))
  {
    if MatchSeed(s).Some? {
      var symbol, gap, direction, gap', now := SeedMatchReads(s);
      SeedReadingMatches(s, symbol, gap, direction, gap', now);
      SeedReadingWords(s, symbol, gap, direction, gap', now);
    } else if IsSeedWords(Words(s)) {
      var symbol, gap, direction, gap', now := SeedWordsRead(s);
      SeedReadingMatches(s, symbol, gap, direction, gap', now);
      assert false;
    }
  }

  // ---------- validation ----------

  function ValidateNonEmpty(text: string): Result<string, BridgeError> {
    if Strip(text) == "" then Failure(EmptyText) else Success(Strip(text))
  }

  function ValidateSeedFormat(text: string): Result<Header, BridgeError> {
    var stripped :- ValidateNonEmpty(text);
    var normalized := Strip(stripped);
    if !IsAscii(normalized) then Failure(NotAscii)
    else
      match MatchSeed(normalized)
      case None => Failure(SeedFormat)
      case Some(head) =>
        if head.symbol in SUPPORTED_SYMBOLS then Success(head) else Failure(UnsupportedSymbol(head.symbol))
  }

  function ValidateDetailsText(text: string): Result<string, BridgeError> {
    var normalized := NormalizeLineEndings(text);
    var _ :- ValidateNonEmpty(normalized);
    if IsAscii(normalized) then Success(normalized) else Failure(NotAscii)
  }

  datatype ValidPair = ValidPair(seed: string, details: string, header: Header)

  function ValidatePairPayload(seedText: string, detailsText: string): Result<ValidPair, BridgeError> {
    var header :- ValidateSeedFormat(seedText);
    var details :- ValidateDetailsText(detailsText);
    var stripped :- ValidateNonEmpty(seedText);
    var seed := Strip(stripped);
    if |seed| > MAX_BYTES || |details| > MAX_BYTES then Failure(PayloadTooLarge)
    else Success(ValidPair(seed, details, header))
  }

  function ParseDetailsHeader(text: string): Option<Header> {
    var normalized := Strip(NormalizeLineEndings(text));
    if normalized == "" then None
    else
      var head :- MatchDetailsHeader(Strip(FirstLine(normalized)));
      if head.symbol in SUPPORTED_SYMBOLS then Some(head) else None
  }

  // ---------- digests ----------

  /** SHA-256 read as an injective function: a digest is its payload. */
  datatype Digest = Sha256(payload: string)

  function RawMessageHash(text: string): Digest {
    Sha256(Strip(NormalizeLineEndings(text)))
  }

  const PAIR_SEPARATOR := "\n---\n"

  function PairFingerprint(pair: ValidPair): Digest {
    Sha256(pair.seed + PAIR_SEPARATOR + pair.details)
  }

  // ---------- classification ----------

  /** `now`, white space and a digit somewhere in the line. */
  predicate HasRangeHint(s: string)
    decreases |s|
  {
    s != "" &&
    ((StartsWithIgnoreCase(s, "now")
      && var gap := GapSpan(s[3..]); gap > 0 && 3 + gap < |s| && IsDigit(s[3 + gap]))
     || HasRangeHint(s[1..]))
  }

  predicate MentionsStopLoss(s: string)
    decreases |s|
  {
    s != "" && (StartsWithIgnoreCase(s, "sl:") || MentionsStopLoss(s[1..]))
  }

  function Classify(text: string): Classification {
    var normalized := Strip(NormalizeLineEndings(text));
    if normalized == "" then Empty
    else if !IsAscii(normalized) then NonAscii
    else
      var lines := NonBlankLines(normalized);
      if lines == [] then Empty
      else if |lines| == 1 && MatchSeed(lines[0]).Some? then SeedMessage
      else if MatchDetailsHeader(lines[0]).Some? && (HasRangeHint(lines[0]) || MentionsStopLoss(normalized))
      then DetailsMessage
      else Unrecognized
  }

  /** A text classified as a seed fails seed validation only for its symbol. */
  lemma ClassifiedSeedValidates(text: string)
    requires Classify(text) == SeedMessage
    ensures var words := Words(Strip(text));
            && IsSeedWords(words)
            && ValidateSeedFormat(text) ==
               (if Lower(words[0]) in SUPPORTED_SYMBOLS
                then Success(Header(Lower(words[0]), Lower(words[1])))
                else Failure(UnsupportedSymbol(Lower(words[0]))))
  {
    var stripped := Strip(text);
    var _, _ := StripSplits(text);
    StripNormalizeCommute(text);
    var normalized := NormalizeLineEndings(stripped);
    OneLineNoBreak(normalized);
    NormalizeNoReturns(stripped);
    assert normalized == stripped;
    StripIdempotent(text);
    SeedPatternIsThreeWords(stripped);
  }

  /** A text classified as details passes details validation exactly when all of it is ASCII. */
  lemma ClassifiedDetailsValidates(text: string)
    requires Classify(text) == DetailsMessage
    ensures ValidateDetailsText(text).Success? <==> IsAscii(text)
    ensures IsAscii(text) ==> ValidateDetailsText(text) == Success(NormalizeLineEndings(text))
  {
    NormalizeKeepsKind(text);
  }

  /** Outer white space outside ASCII is the only way to fail: the classifier strips it, the validator does not. */
  lemma ClassifiedDetailsOuterSpace(text: string) returns (before: string, after: string)
    requires Classify(text) == DetailsMessage
    ensures Blank(before) && Blank(after) && text == before + Strip(text) + after
    ensures ValidateDetailsText(text).Success? <==> IsAscii(before) && IsAscii(after)
  {
    before, after := StripSplits(text);
    ClassifiedCoreIsAscii(text);
    AsciiAppend(before, Strip(text));
    AsciiAppend(before + Strip(text), after);
    ClassifiedDetailsValidates(text);
  }

  lemma ClassifiedCoreIsAscii(text: string)
    requires Classify(text) == DetailsMessage
    ensures IsAscii(Strip(text))
  {
    StripNormalizeCommute(text);
    NormalizeKeepsKind(Strip(text));
  }

  lemma AsciiAppend(a: string, b: string)
    ensures IsAscii(a + b) <==> IsAscii(a) && IsAscii(b)
  {
    assert forall i | 0 <= i < |a| :: a[i] == (a + b)[i];
    assert forall i | 0 <= i < |b| :: b[i] == (a + b)[|a| + i];
  }

  lemma {:induction false} RangeHintLater(front: string, s: string)
    requires HasRangeHint(s)
    ensures HasRangeHint(front + s)
  {
    if front == "" {
      assert front + s == s;
    } else {
      assert (front + s)[1..] == front[1..] + s;
      RangeHintLater(front[1..], s);
    }
  }

  /** White space outside ASCII before any details text: still classified as details, never valid. */
  lemma OddSpaceBreaksValidation(space: char, text: string)
    requires Classify(text) == DetailsMessage && IsSpace(space) && space >= '\U{80}'
    ensures Classify([space] + text) == DetailsMessage
    ensures ValidateDetailsText([space] + text) == Failure(NotAscii)
  {
  }

  /** One stripped ASCII line with the details header and a range hint, and no seed, is details. */
  lemma ClassifiesByHeader(line: string)
    requires Trimmed(line) && line != "" && IsAscii(line) && '\n' !in line && '\r' !in line
    requires MatchDetailsHeader(line).Some? && MatchSeed(line).None? && HasRangeHint(line)
    ensures Classify(line) == DetailsMessage
  {
    NormalizeNoReturns(line);
    StripOfTrimmed(line);
    assert FirstLine(line) == line[..|line|] == line;
    assert NonBlankLines(line) == [line];
  }

  /** Text made of a symbol, "buy", and `now` with a price, one blank apart. */
  ghost predicate IsPlainDetailsLine(line: string, symbol: string, direction: string, rest: string) {
    && line == symbol + (" " + (direction + (" " + rest)))
    && symbol != "" && Solid(symbol) && IsAscii(symbol)
    && Lower(direction) == "buy"
    && |rest| == 5 && rest[..3] == "now" && rest[3] == ' ' && IsDigit(rest[4])
  }

  lemma PriceHint(rest: string)
    requires |rest| == 5 && rest[..3] == "now" && rest[3] == ' ' && IsDigit(rest[4])
    ensures HasRangeHint(rest) && StartsWithIgnoreCase(rest, "now")
    ensures |Lower(rest)| == 5
  {
    assert Lower(rest[..3]) == ['n', 'o', 'w'];
    GapSpanOf(" ", rest[4..]);
    assert rest[3..] == " " + rest[4..];
  }

  lemma PlainLineHeader(line: string, symbol: string, direction: string, rest: string)
    requires IsPlainDetailsLine(line, symbol, direction, rest)
    ensures MatchHead(line) == Some((Header(Lower(symbol), "buy"), rest))
  {
    HeadOfParts(symbol, " ", direction, " ", rest);
  }

  lemma PlainLineHint(line: string, symbol: string, direction: string, rest: string)
    requires IsPlainDetailsLine(line, symbol, direction, rest)
    ensures HasRangeHint(line)
  {
    PriceHint(rest);
    RangeHintLater(" ", rest);
    RangeHintLater(direction, " " + rest);
    RangeHintLater(" ", direction + (" " + rest));
    RangeHintLater(symbol, " " + (direction + (" " + rest)));
  }

  lemma PlainAppend(a: string, b: string)
    requires IsAscii(a) && IsAscii(b) && '\n' !in a && '\r' !in a && '\n' !in b && '\r' !in b
    ensures IsAscii(a + b) && '\n' !in a + b && '\r' !in a + b
  {
    AsciiAppend(a, b);
  }

  lemma PlainLineIsPlain(line: string, symbol: string, direction: string, rest: string)
    requires IsPlainDetailsLine(line, symbol, direction, rest)
    ensures Trimmed(line) && line != "" && IsAscii(line) && '\n' !in line && '\r' !in line
  {
    LowerSolid(direction);
    assert rest == "now" + [' ', rest[4]];
    PlainAppend(" ", rest);
    PlainAppend(direction, " " + rest);
    PlainAppend(" ", direction + (" " + rest));
    PlainAppend(symbol, " " + (direction + (" " + rest)));
    assert line[|line| - 1] == rest[4] && line[0] == symbol[0];
  }

  /** Such details texts exist for every symbol, so the failure above does occur. */
  lemma SomeDetailsTexts(line: string, symbol: string, direction: string, rest: string)
    requires IsPlainDetailsLine(line, symbol, direction, rest)
    ensures Classify(line) == DetailsMessage
  {
    hide MatchHead, HasRangeHint, Strip, NormalizeLineEndings, NonBlankLines, MentionsStopLoss;
    PlainLineHeader(line, symbol, direction, rest);
    PlainLineHint(line, symbol, direction, rest);
    PlainLineIsPlain(line, symbol, direction, rest);
    PriceHint(rest);
    ClassifiesByHeader(line);
  }
}
