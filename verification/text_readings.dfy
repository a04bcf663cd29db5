/**
 What the bridge takes a text for, said about the text alone: the readings that make a seed, a
 details header or a details message, without the functions that look for them.
 */
module TextReadings {
  import opened Wrappers
  import opened Decimals
  import opened MessageText
  import opened SignalPrices

  // ---------- letters ----------

  /** The text is the given lower-case word, in any mix of cases. */
  predicate Spells(s: string, word: string) {
    |s| == |word| && forall i | 0 <= i < |s| :: s[i] == word[i] || ('A' <= s[i] <= 'Z' && s[i] as int + 32 == word[i] as int)
  }

  lemma LowerSpells(s: string, word: string)
    requires forall i | 0 <= i < |word| :: !('A' <= word[i] <= 'Z')
    ensures Lower(s) == word <==> Spells(s, word)
  {
    if Lower(s) == word {
      forall i | 0 <= i < |s| ensures s[i] == word[i] || ('A' <= s[i] <= 'Z' && s[i] as int + 32 == word[i] as int) {
        assert Lower(s)[i] == LowerChar(s[i]);
      }
    }
    if Spells(s, word) {
      forall i | 0 <= i < |s| ensures Lower(s)[i] == word[i] {
      }
      assert Lower(s) == word;
    }
  }

  // ---------- seeds ----------

  /** The stripped text reads as gold, the given direction (in lower case) and `now`, all in ASCII. */
  ghost predicate GoldSeed(text: string, direction: string) {
    && (forall i | 0 <= i < |Strip(text)| :: Strip(text)[i] as int < 128)
    && exists symbol, gap, word, gap', now ::
         ReadsAsSeed(Strip(text), symbol, gap, word, gap', now) && Lower(symbol) == "gold" && Lower(word) == direction
  }

  lemma ReadingIsNotEmpty(s: string, symbol: string, gap: string, direction: string, gap': string, now: string)
    requires ReadsAsSeed(s, symbol, gap, direction, gap', now)
    ensures s != ""
  {
  }

  /** A seed text is accepted exactly when it is a gold seed, and then gives its direction. */
  lemma SeedAcceptedIff(text: string, header: Header)
    ensures ValidateSeedFormat(text) == Success(header) <==> header.symbol == "gold" && GoldSeed(text, header.direction)
  {
    hide Strip, MatchSeed;
    var s := Strip(text);
    StripIdempotent(text);
    StrippedIsTrimmed(text);
    if ValidateSeedFormat(text) == Success(header) {
      var symbol, gap, word, gap', now := SeedMatchReads(s);
      SeedReadingMatches(s, symbol, gap, word, gap', now);
    }
    if GoldSeed(text, header.direction) {
      var symbol, gap, word, gap', now :|
        ReadsAsSeed(s, symbol, gap, word, gap', now) && Lower(symbol) == "gold" && Lower(word) == header.direction;
      ReadingIsNotEmpty(s, symbol, gap, word, gap', now);
      SeedReadingMatches(s, symbol, gap, word, gap', now);
    }
  }

  /** A seed of any other symbol is refused for that symbol. */
  lemma OtherSymbolRefused(text: string, symbol: string, gap: string, word: string, gap': string, now: string)
    requires ReadsAsSeed(Strip(text), symbol, gap, word, gap', now) && Lower(symbol) != "gold"
    requires forall i | 0 <= i < |Strip(text)| :: Strip(text)[i] as int < 128
    ensures ValidateSeedFormat(text) == Failure(UnsupportedSymbol(Lower(symbol)))
  {
    hide Strip, MatchSeed;
    StripIdempotent(text);
    ReadingIsNotEmpty(Strip(text), symbol, gap, word, gap', now);
    SeedReadingMatches(Strip(text), symbol, gap, word, gap', now);
  }

  /** The other reasons, in their order: no text, no ASCII, no reading. */
  lemma NoSeedRefused(text: string)
    ensures Strip(text) == "" <==> ValidateSeedFormat(text) == Failure(EmptyText)
    ensures ValidateSeedFormat(text) == Failure(NotAscii) <==> exists i | 0 <= i < |Strip(text)| :: Strip(text)[i] as int >= 128
    ensures ValidateSeedFormat(text) == Failure(SeedFormat) <==>
              && Strip(text) != "" && (forall i | 0 <= i < |Strip(text)| :: Strip(text)[i] as int < 128)
              && forall symbol, gap, word, gap', now :: !ReadsAsSeed(Strip(text), symbol, gap, word, gap', now)
  {
    hide Strip, MatchSeed;
    StripIdempotent(text);
    StrippedIsTrimmed(text);
    if MatchSeed(Strip(text)).Some? {
      var symbol, gap, word, gap', now := SeedMatchReads(Strip(text));
    }
    forall symbol, gap, word, gap', now | ReadsAsSeed(Strip(text), symbol, gap, word, gap', now)
      ensures MatchSeed(Strip(text)).Some?
    {
      SeedReadingMatches(Strip(text), symbol, gap, word, gap', now);
    }
  }

  lemma StrippedIsTrimmed(text: string)
    ensures Trimmed(Strip(text))
  {
    hide Strip;
    var _, _ := StripSplits(text);
  }

  // ---------- details ----------

  /** One reading of a line as symbol, direction and `now` at the end of a word, with anything behind. */
  ghost predicate ReadsAsHeader(line: string, symbol: string, gap: string, direction: string, gap': string, now: string, rest: string) {
    && line == symbol + (gap + (direction + (gap' + (now + rest))))
    && symbol != "" && Solid(symbol)
    && gap != "" && Blank(gap)
    && Lower(direction) in {"buy", "sell"}
    && gap' != "" && Blank(gap')
    && Lower(now) == "now" && (rest != "" ==> !IsWordChar(rest[0]))
  }

  ghost predicate HasHeader(line: string, header: Header) {
    exists symbol, gap, direction, gap', now, rest ::
      ReadsAsHeader(line, symbol, gap, direction, gap', now, rest) && header == Header(Lower(symbol), Lower(direction))
  }

  lemma HeaderReadingMatches(line: string, symbol: string, gap: string, direction: string, gap': string, now: string, rest: string)
    requires ReadsAsHeader(line, symbol, gap, direction, gap', now, rest)
    ensures MatchDetailsHeader(line) == Some(Header(Lower(symbol), Lower(direction)))
  {
    hide MatchHead;
    LowerSolid(now);
    HeadOfParts(symbol, gap, direction, gap', now + rest);
    assert (now + rest)[..3] == now;
  }

  /** The details pattern matches exactly when the line has such a reading, and every reading gives the same header. */
  lemma DetailsHeaderIff(line: string, header: Header)
    ensures MatchDetailsHeader(line) == Some(header) <==> HasHeader(line, header)
  {
    hide MatchHead;
    if MatchDetailsHeader(line) == Some(header) {
      var symbol, gap, direction, gap', rest := HeadReads(line);
      assert rest == rest[..3] + rest[3..];
      assert ReadsAsHeader(line, symbol, gap, direction, gap', rest[..3], rest[3..]);
    }
    if HasHeader(line, header) {
      var symbol, gap, direction, gap', now, rest :|
        ReadsAsHeader(line, symbol, gap, direction, gap', now, rest) && header == Header(Lower(symbol), Lower(direction));
      HeaderReadingMatches(line, symbol, gap, direction, gap', now, rest);
    }
  }

  /** `now` at place i, white space, and a digit at place j. */
  predicate HintAt(s: string, i: int, j: int) {
    0 <= i && i + 3 < j < |s| && Lower(s[i..i + 3]) == "now" && Blank(s[i + 3..j]) && IsDigit(s[j])
  }

  lemma HintHere(s: string)
    ensures (exists j :: HintAt(s, 0, j)) <==>
              StartsWithIgnoreCase(s, "now")
              && var gap := GapSpan(s[3..]); gap > 0 && 3 + gap < |s| && IsDigit(s[3 + gap])
  {
    if |s| >= 3 {
      assert s[0..3] == s[..3];
      var gap := GapSpan(s[3..]);
      assert s[3..3 + gap] == s[3..][..gap];
      assert 3 + gap < |s| ==> s[3..][gap] == s[3 + gap];
      if gap > 0 && 3 + gap < |s| && IsDigit(s[3 + gap]) && StartsWithIgnoreCase(s, "now") {
        assert HintAt(s, 0, 3 + gap);
      }
    }
    forall j | HintAt(s, 0, j) ensures GapSpan(s[3..]) == j - 3 {
      GapSpanOf(s[3..j], s[j..]);
      assert s[3..] == s[3..j] + s[j..];
    }
  }

  lemma HintLater(s: string, i: int, j: int)
    requires s != "" && i >= 0
    ensures HintAt(s, i + 1, j + 1) <==> HintAt(s[1..], i, j)
  {
    if i + 3 < j < |s| - 1 {
      assert s[i + 1..i + 4] == s[1..][i..i + 3] && s[i + 4..j + 1] == s[1..][i + 3..j];
    }
  }

  lemma {:induction false} RangeHintIff(s: string)
    ensures HasRangeHint(s) <==> exists i, j :: HintAt(s, i, j)
    decreases |s|
  {
    if s == "" {
      NoHint(s);
    } else {
      hide HintAt;
      RangeHintIff(s[1..]);
      HintHere(s);
      forall i, j | HintAt(s[1..], i, j) ensures HintAt(s, i + 1, j + 1) {
        HintStarts(s[1..], i, j);
        HintLater(s, i, j);
      }
      forall i, j | HintAt(s, i, j) && i != 0 ensures HintAt(s[1..], i - 1, j - 1) {
        HintStarts(s, i, j);
        HintLater(s, i - 1, j - 1);
      }
    }
  }

  lemma HintStarts(s: string, i: int, j: int)
    requires HintAt(s, i, j)
    ensures i >= 0
  {
  }

  lemma NoHint(s: string)
    requires s == ""
    ensures forall i, j :: !HintAt(s, i, j)
  {
  }

  predicate StopLossAt(s: string, i: int) { 0 <= i <= |s| - 3 && Lower(s[i..i + 3]) == "sl:" }

  lemma {:induction false} StopLossIff(s: string)
    ensures MentionsStopLoss(s) <==> exists i :: StopLossAt(s, i)
    decreases |s|
  {
    if s != "" {
      StopLossIff(s[1..]);
      if StartsWithIgnoreCase(s, "sl:") {
        assert s[0..3] == s[..3];
        assert StopLossAt(s, 0);
      } else if MentionsStopLoss(s[1..]) {
        var i :| StopLossAt(s[1..], i);
        assert s[i + 1..i + 4] == s[1..][i..i + 3];
        assert StopLossAt(s, i + 1);
      }
      forall i | StopLossAt(s, i) ensures MentionsStopLoss(s) {
        if i == 0 {
          assert s[0..3] == s[..3];
        } else {
          assert s[1..][i - 1..i + 2] == s[i..i + 3];
          assert StopLossAt(s[1..], i - 1);
        }
      }
    }
  }

  // ---------- classification ----------

  /** The stripped text is one line that reads as a seed of any symbol. */
  ghost predicate SeedLine(text: string) {
    '\n' !in Strip(text) && '\r' !in Strip(text)
    && exists symbol, gap, direction, gap', now :: ReadsAsSeed(Strip(text), symbol, gap, direction, gap', now)
  }

  /** The first line of the stripped text, with line endings normalised. */
  function TopLine(text: string): string {
    Strip(FirstLine(NormalizeLineEndings(Strip(text))))
  }

  /** A header in the first line, with a price range behind some `now` of it or a stop loss anywhere. */
  ghost predicate DetailsLines(text: string) {
    && (exists header :: HasHeader(TopLine(text), header))
    && ((exists i, j :: HintAt(TopLine(text), i, j)) || exists i :: StopLossAt(NormalizeLineEndings(Strip(text)), i))
  }

  lemma TopOfLines(text: string)
    requires Strip(text) != ""
    ensures var lines := NonBlankLines(NormalizeLineEndings(Strip(text)));
            lines != [] && lines[0] == TopLine(text)
  {
    hide Strip, NormalizeLineEndings;
    StripNormalizeCommute(text);
    var normalized := NormalizeLineEndings(Strip(text));
    StripNonEmpty(FirstLine(normalized), 0);
  }

  lemma SeedLineIsSingle(text: string)
    requires Strip(text) != ""
    ensures var normalized := NormalizeLineEndings(Strip(text));
            && (|NonBlankLines(normalized)| == 1 <==> '\n' !in Strip(text) && '\r' !in Strip(text))
            && ('\n' !in Strip(text) && '\r' !in Strip(text) ==> NonBlankLines(normalized) == [Strip(text)])
  {
    hide Strip, NormalizeLineEndings, NonBlankLines;
    var s := Strip(text);
    StripNormalizeCommute(text);
    StrippedIsTrimmed(text);
    NormalizeNoReturns(s);
    if |NonBlankLines(NormalizeLineEndings(s))| == 1 {
      OneLineNoBreak(NormalizeLineEndings(s));
    }
    if '\n' !in s && '\r' !in s {
      SingleLine(s);
    }
  }

  /** The five answers of the classifier. */
  lemma ClassifyIff(text: string)
    ensures Classify(text) ==
            if Strip(text) == "" then Empty
            else if exists i | 0 <= i < |Strip(text)| :: Strip(text)[i] as int >= 128 then NonAscii
            else if SeedLine(text) then SeedMessage
            else if DetailsLines(text) then DetailsMessage
            else Unrecognized
  {
    hide Strip, NormalizeLineEndings, NonBlankLines, MatchSeed, MatchDetailsHeader, HasRangeHint, MentionsStopLoss, HasHeader;
    var s := Strip(text);
    StripNormalizeCommute(text);
    NormalizeKeepsKind(s);
    if s != "" {
      var normalized := NormalizeLineEndings(s);
      TopOfLines(text);
      SeedLineIsSingle(text);
      SeedLineMatches(text);
      RangeHintIff(TopLine(text));
      StopLossIff(normalized);
      SomeHeaderIff(TopLine(text));
    }
  }

  lemma SomeHeaderIff(line: string)
    ensures MatchDetailsHeader(line).Some? <==> exists header :: HasHeader(line, header)
  {
    hide MatchDetailsHeader, HasHeader;
    if MatchDetailsHeader(line).Some? {
      DetailsHeaderIff(line, MatchDetailsHeader(line).value);
    }
    forall header | HasHeader(line, header) ensures MatchDetailsHeader(line).Some? {
      DetailsHeaderIff(line, header);
    }
  }

  lemma SeedLineMatches(text: string)
    ensures SeedLine(text) <==> '\n' !in Strip(text) && '\r' !in Strip(text) && MatchSeed(Strip(text)).Some?
  {
    hide Strip, MatchSeed;
    var s := Strip(text);
    StrippedIsTrimmed(text);
    if MatchSeed(s).Some? {
      var symbol, gap, direction, gap', now := SeedMatchReads(s);
    }
    forall symbol, gap, direction, gap', now | ReadsAsSeed(s, symbol, gap, direction, gap', now) ensures MatchSeed(s).Some? {
      SeedReadingMatches(s, symbol, gap, direction, gap', now);
    }
  }

  /** The header that details are matched by: that of their first line, if it is for gold. */
  lemma ParsedHeaderIff(text: string, header: Header)
    ensures ParseDetailsHeader(text) == Some(header) <==>
              Strip(text) != "" && header.symbol == "gold" && HasHeader(TopLine(text), header)
  {
    hide Strip, NormalizeLineEndings, MatchDetailsHeader, HasHeader;
    StripNormalizeCommute(text);
    if MatchDetailsHeader(TopLine(text)).Some? {
      DetailsHeaderIff(TopLine(text), MatchDetailsHeader(TopLine(text)).value);
    }
    DetailsHeaderIff(TopLine(text), header);
  }
}
