/**
 What signal metadata says of the texts it is built from (build_signal_meta in
 integrations/telegram/fasttrack_file_bridge.py): the side and symbol of the seed, and the prices of
 details that are written out line by line.
 */
module SignalReadings {
  import opened Wrappers
  import opened Decimals
  import opened MessageText
  import opened SignalPrices
  import opened SignalMeta
  import opened TextReadings

  // ---------- the seed ----------

  /** Gold is shown as XAUUSD, and the side is the direction that the seed reads as. */
  lemma SideOfSeed(seedText: string, detailsText: string, symbol: string, gap: string, direction: string, gap': string, now: string)
    requires ValidatePairPayload(seedText, detailsText).Success?
    requires ReadsAsSeed(Strip(seedText), symbol, gap, direction, gap', now)
    ensures var meta := MetaOf(ValidatePairPayload(seedText, detailsText).value);
            && Spells(symbol, "gold") && meta.symbol == Some("XAUUSD")
            && (meta.side == Some("BUY") <==> Spells(direction, "buy")) && (meta.side == Some("SELL") <==> Spells(direction, "sell"))
  {
    hide MatchSeed, Strip, CanonicalSymbol, CanonicalSide, NonBlankLines, RangeIn, StopLossIn, TakeProfitsIn;
    StripIdempotent(seedText);
    SeedReadingMatches(Strip(seedText), symbol, gap, direction, gap', now);
    LowerSpells(symbol, "gold");
    LowerSpells(direction, "buy");
    LowerSpells(direction, "sell");
    CanonicalNames();
  }

  // ---------- details written out ----------

  /** A price line: a stop loss, a take profit, or a take profit left open. */
  datatype PriceEntry = StopLoss(price: nat) | TakeProfit(price: nat) | OpenProfit

  function LineOf(entry: PriceEntry): string {
    match entry
    case StopLoss(price) => "SL: " + Digits(price)
    case TakeProfit(price) => "TP: " + Digits(price)
    case OpenProfit => "TP: OPEN"
  }

  /** `gold buy now 3995 - 4000`, with the words in any mix of cases. */
  function HeadLine(symbol: string, direction: string, now: string, low: nat, high: nat): string {
    symbol + (" " + (direction + (" " + (now + (" " + (Digits(low) + (" - " + Digits(high))))))))
  }

  function Written(head: string, entries: seq<PriceEntry>): string {
    if entries == [] then head else Written(head, entries[..|entries| - 1]) + ("\n" + LineOf(entries[|entries| - 1]))
  }

  ghost predicate HeadWords(symbol: string, direction: string, now: string) {
    Spells(symbol, "gold") && (Spells(direction, "buy") || Spells(direction, "sell")) && Spells(now, "now")
  }

  /** A price that a double holds exactly. */
  predicate Exact(price: nat) { 0 < price < 9_007_199_254_740_992 }

  ghost predicate ExactEntries(entries: seq<PriceEntry>) {
    forall i | 0 <= i < |entries| :: entries[i].OpenProfit? || Exact(entries[i].price)
  }

  /** The last stop loss counts. */
  function LastStop(entries: seq<PriceEntry>): Option<int> {
    if entries == [] then None
    else if entries[|entries| - 1].StopLoss? then Some(entries[|entries| - 1].price)
    else LastStop(entries[..|entries| - 1])
  }

  function Profits(entries: seq<PriceEntry>): seq<string> {
    if entries == [] then []
    else
      Profits(entries[..|entries| - 1]) +
      match entries[|entries| - 1]
      case StopLoss(_) => []
      case TakeProfit(price) => [Decimal(price)]
      case OpenProfit => ["OPEN"]
  }

  function LinesOf(entries: seq<PriceEntry>): seq<string> {
    if entries == [] then [] else LinesOf(entries[..|entries| - 1]) + [LineOf(entries[|entries| - 1])]
  }

  lemma MantissaLimit()
    ensures Pow2(53) == 9_007_199_254_740_992
  {
    assert Pow2(13) == 8192;
    Pow2Sum(13, 13);
    Pow2Sum(26, 26);
    Pow2Sum(52, 1);
  }

  lemma {:induction false} Pow2Sum(a: nat, b: nat)
    ensures Pow2(a + b) == Pow2(a) * Pow2(b)
  {
    if b > 0 {
      Pow2Sum(a, b - 1);
    }
  }

  lemma ExactAmount(price: nat)
    requires Exact(price)
    ensures PriceOf(Digits(price)) == Amount(price)
  {
    hide Pow2, PriceOf, Digits;
    MantissaLimit();
    WholePriceIsExact(price);
  }

  // One line.

  lemma PrefixedDigits(prefix: string, digits: string)
    requires |prefix| == 4 && prefix[3] == ' ' && !IsSpace(prefix[0]) && digits != "" && Trimmed(digits)
    requires '\n' !in prefix && '\n' !in digits
    ensures var line := prefix + digits;
            && Trimmed(line) && line != "" && '\n' !in line && |line| > 3 && line[..3] == prefix[..3] && Strip(line[3..]) == digits
  {
    hide Strip;
    var line := prefix + digits;
    assert line[|line| - 1] == digits[|digits| - 1];
    assert line[3..] == " " + digits + "";
    StripUnique(" ", digits, "");
  }

  lemma DigitsPlain(n: nat)
    ensures Digits(n) != "" && Trimmed(Digits(n)) && '\n' !in Digits(n) && '\r' !in Digits(n) && IsAscii(Digits(n))
  {
  }

  /** Each written line is one line, and reads as the entry it was written for. */
  lemma EntryReads(entry: PriceEntry)
    requires entry.OpenProfit? || Exact(entry.price)
    ensures var line := LineOf(entry);
            && Trimmed(line) && line != "" && '\n' !in line && '\r' !in line && IsAscii(line) && LineReads(line)
            && match entry
               case StopLoss(price) => ReadLine(line) == StopLossLine(Digits(price)) && AmountOf(Digits(price)) == Some(price)
               case TakeProfit(price) => TakeProfitIn(line) == [Decimal(price)] && !ReadLine(line).StopLossLine?
               case OpenProfit => TakeProfitIn(line) == ["OPEN"] && !ReadLine(line).StopLossLine?
  {
    hide LineReads, ReadLine, TakeProfitIn, AmountOf, Digits;
    match entry
    case StopLoss(price) => StopReads(price);
    case TakeProfit(price) => ProfitReads(price);
    case OpenProfit => OpenReads();
  }

  lemma StopReads(price: nat)
    requires Exact(price)
    ensures var line := "SL: " + Digits(price);
            && Trimmed(line) && line != "" && '\n' !in line && '\r' !in line && IsAscii(line) && LineReads(line)
            && ReadLine(line) == StopLossLine(Digits(price)) && AmountOf(Digits(price)) == Some(price)
  {
    hide Strip, PriceOf, Digits;
    DigitsPlain(price);
    PrefixedDigits("SL: ", Digits(price));
    AsciiAppend("SL: ", Digits(price));
    assert "SL: "[..3] == "SL:";
    LowerPrefix("SL:", "sl:");
    ExactAmount(price);
  }

  lemma ProfitReads(price: nat)
    requires Exact(price)
    ensures var line := "TP: " + Digits(price);
            && Trimmed(line) && line != "" && '\n' !in line && '\r' !in line && IsAscii(line) && LineReads(line)
            && TakeProfitIn(line) == [Decimal(price)] && !ReadLine(line).StopLossLine?
  {
    hide Strip, PriceOf, Digits, IsOpen;
    DigitsPlain(price);
    PrefixedDigits("TP: ", Digits(price));
    AsciiAppend("TP: ", Digits(price));
    ProfitLine("TP: " + Digits(price), Digits(price));
    ExactAmount(price);
    DigitsNotOpen(Digits(price));
  }

  lemma OpenReads()
    ensures var line := "TP: OPEN";
            && Trimmed(line) && line != "" && '\n' !in line && '\r' !in line && IsAscii(line) && LineReads(line)
            && TakeProfitIn(line) == ["OPEN"] && !ReadLine(line).StopLossLine?
  {
    hide Strip, PriceOf, ReadLine;
    assert "TP: " + "OPEN" == "TP: OPEN";
    PrefixedDigits("TP: ", "OPEN");
    ProfitLine("TP: OPEN", "OPEN");
    LowerPrefix("OPEN", "open");
  }

  lemma ProfitLine(line: string, token: string)
    requires |line| > 3 && line[..3] == "TP: "[..3] && Strip(line[3..]) == token
    ensures ReadLine(line) == TakeProfitLine(token)
  {
    hide Strip;
    assert "TP: "[..3] == "TP:";
    LowerPrefix("TP:", "tp:");
    assert "tp:"[0] != "sl:"[0];
  }

  lemma LowerPrefix(s: string, word: string)
    requires Spells(s, word) && forall i | 0 <= i < |word| :: !('A' <= word[i] <= 'Z')
    ensures Lower(s) == word
  {
    LowerSpells(s, word);
  }

  lemma DigitsNotOpen(digits: string)
    requires digits != "" && AllDigits(digits)
    ensures !IsOpen(digits)
  {
    assert Lower(digits)[0] == LowerChar(digits[0]);
  }

  // All lines.

  lemma {:induction false} WrittenLines(head: string, entries: seq<PriceEntry>)
    requires ExactEntries(entries) && head != "" && Trimmed(head) && '\n' !in head
    ensures NonBlankLines(Written(head, entries)) == [head] + LinesOf(entries)
  {
    hide NonBlankLines, LineOf;
    if entries == [] {
      SingleLine(head);
    } else {
      var front, last := entries[..|entries| - 1], entries[|entries| - 1];
      WrittenLines(head, front);
      EntryReads(last);
      OneMoreLine(Written(head, front), LineOf(last));
    }
  }

  lemma {:induction false} LinesSay(entries: seq<PriceEntry>)
    requires ExactEntries(entries)
    ensures |LinesOf(entries)| == |entries| && LinesRead(LinesOf(entries))
    ensures StopLossIn(LinesOf(entries)) == LastStop(entries) && TakeProfitsIn(LinesOf(entries)) == Profits(entries)
  {
    hide LineOf, ReadLine, LineReads, TakeProfitIn;
    if entries != [] {
      var front, last := entries[..|entries| - 1], entries[|entries| - 1];
      LinesSay(front);
      EntryReads(last);
      assert LinesOf(entries)[..|LinesOf(entries)| - 1] == LinesOf(front);
      StopLineIsNoProfit(LineOf(last));
    }
  }

  lemma StopLineIsNoProfit(line: string)
    ensures ReadLine(line).StopLossLine? ==> TakeProfitIn(line) == []
  {
    hide ReadLine;
  }

  // The first line.

  lemma {:induction false} EntryRangeSkips(front: string, s: string)
    requires forall i | 0 <= i < |front| :: LowerChar(front[i]) != 'n'
    requires RangeAt(s).Some?
    ensures EntryRange(front + s) == RangeAt(s)
    decreases |front|
  {
    hide RangeAt;
    if front == "" {
      assert front + s == s;
      RangeNotEmpty(s);
    } else {
      assert (front + s)[1..] == front[1..] + s;
      EntryRangeSkips(front[1..], s);
      NoRangeHere(front + s);
    }
  }

  lemma RangeNotEmpty(s: string)
    requires RangeAt(s).Some?
    ensures s != ""
  {
  }

  lemma NoRangeHere(s: string)
    requires s != "" && LowerChar(s[0]) != 'n'
    ensures RangeAt(s).None?
  {
    hide NumeralSpan, GapSpan;
    if |s| >= 3 {
      assert Lower(s[..3])[0] == LowerChar(s[0]) && "now"[0] == 'n';
    }
  }

  lemma NumeralOf(digits: string, rest: string)
    requires digits != "" && AllDigits(digits) && (rest == "" || (!IsDigit(rest[0]) && rest[0] != '.'))
    ensures var s := digits + rest; NumeralSpan(s) == |digits| && s[..|digits|] == digits && s[|digits|..] == rest && !IsSpace(s[0])
  {
    DigitSpanOf(digits, rest);
  }

  lemma AfterBlank(s: string)
    requires s != "" && !IsSpace(s[0])
    ensures GapSpan(" " + s) == 1 && (" " + s)[1..] == s
  {
    GapSpanOf(" ", s);
  }

  lemma RangeOfHead(now: string, low: string, high: string)
    requires Spells(now, "now") && low != "" && AllDigits(low) && high != "" && AllDigits(high)
    ensures RangeAt(now + (" " + (low + (" - " + high)))) == Some((low, high))
  {
    hide NumeralSpan, GapSpan, AllDigits, Spells;
    LowerPrefix(now, "now");
    WordIsSolid(now, "now");
    assert |now| == |Lower(now)|;
    var s, fromLow, fromDash, fromHigh := now + (" " + (low + (" - " + high))), low + (" - " + high), "- " + high, high + "";
    assert s[..3] == now && s[3..] == " " + fromLow;
    NumeralOf(low, " - " + high);
    AfterBlank(fromLow);
    assert " - " + high == " " + fromDash;
    AfterBlank(fromDash);
    NumeralOf(high, "");
    AfterBlank(fromHigh);
    assert fromDash[1..] == " " + fromHigh && fromHigh == high;
  }

  lemma NoLetterN(s: string, word: string)
    requires Spells(s, word) && forall i | 0 <= i < |word| :: 'a' <= word[i] <= 'z' && word[i] != 'n'
    ensures forall i | 0 <= i < |s| :: LowerChar(s[i]) != 'n'
  {
  }

  /** The entry range of such a first line. */
  lemma HeadRange(symbol: string, direction: string, now: string, low: nat, high: nat)
    requires HeadWords(symbol, direction, now)
    ensures EntryRange(HeadLine(symbol, direction, now, low, high)) == Some((Digits(low), Digits(high)))
  {
    hide EntryRange, RangeAt, Digits;
    var front := symbol + (" " + (direction + " "));
    var s := now + (" " + (Digits(low) + (" - " + Digits(high))));
    NoLetterN(symbol, "gold");
    NoLetterN(direction, if Spells(direction, "buy") then "buy" else "sell");
    RangeOfHead(now, Digits(low), Digits(high));
    EntryRangeSkips(front, s);
    assert front + s == HeadLine(symbol, direction, now, low, high);
  }

  lemma WordIsSolid(s: string, word: string)
    requires Spells(s, word) && word != "" && forall i | 0 <= i < |word| :: 'a' <= word[i] <= 'z'
    ensures s != "" && Solid(s) && IsAscii(s) && '\n' !in s && '\r' !in s && forall i | 0 <= i < |s| :: s[i] !in {'\n', '\r'}
  {
  }

  /** It is one line of plain ASCII. */
  lemma HeadIsPlain(symbol: string, direction: string, now: string, low: nat, high: nat)
    requires HeadWords(symbol, direction, now)
    ensures var head := HeadLine(symbol, direction, now, low, high);
            head != "" && Trimmed(head) && IsAscii(head) && '\n' !in head && '\r' !in head
  {
    hide Digits, Spells;
    WordIsSolid(symbol, "gold");
    WordIsSolid(direction, if Spells(direction, "buy") then "buy" else "sell");
    WordIsSolid(now, "now");
    DigitsPlain(low);
    DigitsPlain(high);
    var head := HeadLine(symbol, direction, now, low, high);
    PlainAppend(" - ", Digits(high));
    PlainAppend(Digits(low), " - " + Digits(high));
    var range := Digits(low) + (" - " + Digits(high));
    PlainAppend(" ", range);
    PlainAppend(now, " " + range);
    PlainAppend(" ", now + (" " + range));
    PlainAppend(direction, " " + (now + (" " + range)));
    PlainAppend(" ", direction + (" " + (now + (" " + range))));
    PlainAppend(symbol, " " + (direction + (" " + (now + (" " + range)))));
    assert head[0] == symbol[0] && head[|head| - 1] == Digits(high)[|Digits(high)| - 1];
  }

  // ---------- the metadata ----------

  /**
   Details written out of whole numbers below 2 to the 53 give those numbers back: the entry range, the
   last stop loss, and the take profits in order; and no price of theirs makes a publish raise.
   */
  lemma WrittenDetailsRead(pair: ValidPair, symbol: string, direction: string, now: string, low: nat, high: nat, entries: seq<PriceEntry>)
    requires HeadWords(symbol, direction, now) && Exact(low) && Exact(high) && ExactEntries(entries)
    requires pair.details == Written(HeadLine(symbol, direction, now, low, high), entries)
    ensures var meta := MetaOf(pair);
            && meta.entryLow == Some(low) && meta.entryHigh == Some(high)
            && meta.stopLoss == LastStop(entries) && meta.takeProfits == Profits(entries)
    ensures PricesRead(pair.details)
  {
    hide HeadLine, EntryRange, PriceOf, NonBlankLines, Written, LinesOf, LinesRead, StopLossIn, TakeProfitsIn, Digits;
    hide CanonicalSymbol, CanonicalSide;
    var head := HeadLine(symbol, direction, now, low, high);
    HeadIsPlain(symbol, direction, now, low, high);
    WrittenLines(head, entries);
    assert ([head] + LinesOf(entries))[1..] == LinesOf(entries);
    LinesSay(entries);
    HeadRange(symbol, direction, now, low, high);
    ExactAmount(low);
    ExactAmount(high);
  }

  // ---------- the text ----------

  lemma {:induction false} WrittenIsPlain(head: string, entries: seq<PriceEntry>)
    requires ExactEntries(entries) && head != "" && Trimmed(head) && IsAscii(head) && '\r' !in head
    ensures var text := Written(head, entries);
            text != "" && Trimmed(text) && IsAscii(text) && '\r' !in text && (entries != [] ==> '\n' in text)
  {
    hide LineOf;
    if entries != [] {
      var front, last := entries[..|entries| - 1], entries[|entries| - 1];
      WrittenIsPlain(head, front);
      EntryReads(last);
      AsciiAppend("\n", LineOf(last));
      AsciiAppend(Written(head, front), "\n" + LineOf(last));
      var text := Written(head, entries);
      assert text[0] == Written(head, front)[0] && text[|text| - 1] == LineOf(last)[|LineOf(last)| - 1];
      assert text[|Written(head, front)|] == '\n';
    }
  }

  lemma HeadHeader(symbol: string, direction: string, now: string, low: nat, high: nat)
    requires HeadWords(symbol, direction, now)
    ensures HasHeader(HeadLine(symbol, direction, now, low, high), Header("gold", Lower(direction)))
  {
    hide Digits;
    WordIsSolid(symbol, "gold");
    LowerPrefix(symbol, "gold");
    LowerPrefix(now, "now");
    LowerPrefix(direction, if Spells(direction, "buy") then "buy" else "sell");
    var rest := " " + (Digits(low) + (" - " + Digits(high)));
    assert ReadsAsHeader(HeadLine(symbol, direction, now, low, high), symbol, " ", direction, " ", now, rest);
  }

  lemma HeadHint(symbol: string, direction: string, now: string, low: nat, high: nat)
    requires HeadWords(symbol, direction, now)
    ensures HasRangeHint(HeadLine(symbol, direction, now, low, high))
  {
    hide Digits;
    LowerPrefix(now, "now");
    var range := Digits(low) + (" - " + Digits(high));
    var s := now + (" " + range);
    assert s[..3] == now && s[3..] == " " + range && range[0] == Digits(low)[0];
    GapSpanOf(" ", range);
    RangeHintLater(" ", s);
    RangeHintLater(direction, " " + s);
    RangeHintLater(" ", direction + (" " + s));
    RangeHintLater(symbol, " " + (direction + (" " + s)));
  }

  lemma HeadIsNoSeed(symbol: string, direction: string, now: string, low: nat, high: nat)
    requires HeadWords(symbol, direction, now)
    ensures MatchSeed(HeadLine(symbol, direction, now, low, high)).None?
  {
    hide MatchHead, Digits;
    WordIsSolid(symbol, "gold");
    WordIsSolid(now, "now");
    LowerPrefix(direction, if Spells(direction, "buy") then "buy" else "sell");
    var rest := now + (" " + (Digits(low) + (" - " + Digits(high))));
    HeadOfParts(symbol, " ", direction, " ", rest);
    assert |Lower(rest)| > 4;
  }

  /** Such a text is a details message with the header of its first line, and comes through the validation as it is. */
  lemma WrittenIsDetails(symbol: string, direction: string, now: string, low: nat, high: nat, entries: seq<PriceEntry>)
    requires HeadWords(symbol, direction, now) && ExactEntries(entries)
    ensures var text := Written(HeadLine(symbol, direction, now, low, high), entries);
            && Classify(text) == DetailsMessage && NormalizeLineEndings(text) == text && Strip(text) == text && text != ""
            && (forall i | 0 <= i < |text| :: text[i] as int < 128)
            && HasHeader(TopLine(text), Header("gold", Lower(direction)))
  {
    hide HeadLine, Written, NonBlankLines, HasHeader, Strip, NormalizeLineEndings, Classify, MatchSeed, HasRangeHint, Spells, TopLine;
    var head := HeadLine(symbol, direction, now, low, high);
    var text := Written(head, entries);
    HeadIsPlain(symbol, direction, now, low, high);
    WrittenIsPlain(head, entries);
    NormalizeNoReturns(text);
    StripOfTrimmed(text);
    WrittenLines(head, entries);
    TopOfLines(text);
    assert TopLine(text) == head;
    HeadHeader(symbol, direction, now, low, high);
    HeadHint(symbol, direction, now, low, high);
    RangeHintIff(head);
    HeadIsNoSeed(symbol, direction, now, low, high);
    SeedLineMatches(text);
    if entries == [] {
      NothingWrittenBelow(head);
    }
    ClassifyIff(text);
  }

  lemma NothingWrittenBelow(head: string)
    ensures Written(head, []) == head
  {
  }
}
