/**
 Prices in a details text: which tokens build_signal_meta in
 integrations/telegram/fasttrack_file_bridge.py picks out, and what `int(float(token))` makes of
 each. A token that reads as an infinity or as no number at all (inf, nan, or too many digits for a
 double of IEEE 754) makes it raise.
 */
module SignalPrices {
  import opened Wrappers
  import opened Decimals
  import opened MessageText

  // ---------- doubles ----------

  function Pow2(n: nat): (p: nat)
    ensures p > 0
  {
    if n == 0 then 1 else 2 * Pow2(n - 1)
  }

  lemma {:induction false} Pow2Grows(a: nat, b: nat)
    requires a <= b
    ensures Pow2(a) <= Pow2(b)
  {
    if a < b {
      Pow2Grows(a, b - 1);
    }
  }

  const MANTISSA_BITS: nat := 53
  const MAX_EXPONENT: nat := 1024

  /** Values from here on round to infinity: half a unit above the largest double. */
  function FloatLimit(): nat {
    hide Pow2;
    Pow2Grows(MAX_EXPONENT - MANTISSA_BITS - 1, MAX_EXPONENT);
    Pow2(MAX_EXPONENT) - Pow2(MAX_EXPONENT - MANTISSA_BITS - 1)
  }

  function RoundHalfEven(n: nat, m: nat): nat
    requires m > 0
  {
    var q, r := n / m, n % m;
    if 2 * r < m || (2 * r == m && q % 2 == 0) then q else q + 1
  }

  function FloorLog2(n: nat, m: nat): nat
    requires 0 < m <= n
    decreases n - m
  {
    if n < 2 * m then 0 else 1 + FloorLog2(n, 2 * m)
  }

  /** int(float(n / m)) of a finite positive value that does not round to zero. */
  function Truncated(n: nat, m: nat): nat
    requires m > 0
  {
    hide Pow2;
    if n < m then
      if n * Pow2(MANTISSA_BITS + 1) >= m * (Pow2(MANTISSA_BITS + 1) - 1) then 1 else 0
    else
      var e := FloorLog2(n, m);
      if e < MANTISSA_BITS then
        var unit := Pow2(MANTISSA_BITS - 1 - e);
        RoundHalfEven(n * unit, m) / unit
      else
        var unit := Pow2(e - (MANTISSA_BITS - 1));
        PositiveProduct(m, unit);
        RoundHalfEven(n, m * unit) * unit
  }

  lemma PositiveProduct(a: nat, b: nat)
    requires a > 0 && b > 0
    ensures a * b > 0
  {
  }

  // ---------- float(text) ----------

  datatype Float = Rejected | NotANumber | Infinite(negative: bool) | Finite(negative: bool, n: nat, m: nat)

  /** Python allows an underscore between two digits of a number. */
  predicate UnderscoresFit(s: string) {
    forall i | 0 <= i < |s| && s[i] == '_' :: 0 < i < |s| - 1 && IsDigit(s[i - 1]) && IsDigit(s[i + 1])
  }

  function WithoutUnderscores(s: string): string {
    if s == "" then "" else (if s[0] == '_' then "" else [s[0]]) + WithoutUnderscores(s[1..])
  }

  function ReadExponent(s: string): Option<int> {
    if s != "" && s[0] == '+' then
      if |s| > 1 && AllDigits(s[1..]) then Some(DigitsValue(s[1..])) else None
    else ReadDecimal(s)
  }

  function DigitPrefix(s: string): (digits: string)
    ensures AllDigits(digits) && digits <= s
  {
    s[..DigitSpan(s)]
  }

  /** Digits with at most one point among them, and an exponent; as a quotient. */
  function ReadNumeral(s: string): (r: Option<(nat, nat)>)
    ensures r.Some? ==> r.value.1 > 0
  {
    var whole := DigitPrefix(s);
    var rest := s[|whole|..];
    var point := rest != "" && rest[0] == '.';
    var fraction := if point then DigitPrefix(rest[1..]) else "";
    var tail := if point then rest[1 + |fraction|..] else rest;
    if whole + fraction == "" then None
    else
      var exponent :- if tail == "" then Some(0)
                      else if tail[0] in {'e', 'E'} then ReadExponent(tail[1..])
                      else None;
      assert AllDigits(whole + fraction);
      var digits, scale := DigitsValue(whole + fraction), exponent - |fraction|;
      Pow10Positive(if scale >= 0 then scale else -scale);
      Some(if scale >= 0 then (digits * Pow10(scale), 1) else (digits, Pow10(-scale)))
  }

  lemma {:induction false} Pow10Positive(w: nat)
    ensures Pow10(w) >= Pow2(3 * w) > 0
  {
    if w > 0 {
      Pow10Positive(w - 1);
      Pow2Next(3 * w - 3);
      Pow2Next(3 * w - 2);
      Pow2Next(3 * w - 1);
    }
  }

  function ReadPlainFloat(s: string): (f: Float)
    ensures f.Finite? ==> f.m > 0
  {
    hide FloatLimit;
    var signed := s != "" && s[0] in {'+', '-'};
    var negative := signed && s[0] == '-';
    var body := if signed then s[1..] else s;
    if Lower(body) == "inf" || Lower(body) == "infinity" then Infinite(negative)
    else if Lower(body) == "nan" then NotANumber
    else
      match ReadNumeral(body)
      case None => Rejected
      case Some((n, m)) => if n >= FloatLimit() * m then Infinite(negative) else Finite(negative, n, m)
  }

  function ReadFloat(s: string): (f: Float)
    ensures f.Finite? ==> f.m > 0
  {
    if UnderscoresFit(s) then ReadPlainFloat(WithoutUnderscores(s)) else Rejected
  }

  // ---------- one price ----------

  datatype Price = NoPrice | Amount(value: nat) | Unreadable

  /** Rejected texts and values that are not above zero are no price; int() raises on infinity and on nan. */
  function PriceOf(token: string): Price {
    hide Pow2;
    match ReadFloat(Strip(token))
    case Rejected => NoPrice
    case NotANumber => Unreadable
    case Infinite(negative) => if negative then NoPrice else Unreadable
    case Finite(negative, n, m) =>
      if negative || n * Pow2(1075) <= m then NoPrice else Amount(Truncated(n, m))
  }

  // ---------- tokens of a details text ----------

  /** Digits, and a point with more digits. */
  function NumeralSpan(s: string): (n: nat)
    ensures n <= |s|
  {
    var n := DigitSpan(s);
    if 0 < n < |s| - 1 && s[n] == '.' && IsDigit(s[n + 1]) then n + 1 + DigitSpan(s[n + 1..]) else n
  }

  /** `now low - high` at the start of a text. */
  function RangeAt(s: string): Option<(string, string)> {
    if !StartsWithIgnoreCase(s, "now") then None
    else
      var afterNow := s[3..];
      var fromLow := afterNow[GapSpan(afterNow)..];
      var low := fromLow[..NumeralSpan(fromLow)];
      var afterLow := fromLow[|low|..];
      var fromDash := afterLow[GapSpan(afterLow)..];
      if GapSpan(afterNow) == 0 || low == "" || fromDash == "" || fromDash[0] != '-' then None
      else
        var afterDash := fromDash[1..];
        var fromHigh := afterDash[GapSpan(afterDash)..];
        var high := fromHigh[..NumeralSpan(fromHigh)];
        if high == "" then None else Some((low, high))
  }

  /** The first entry range in a line. */
  function EntryRange(line: string): Option<(string, string)>
    decreases |line|
  {
    if line == "" then None else if RangeAt(line).Some? then RangeAt(line) else EntryRange(line[1..])
  }

  datatype PriceLine = StopLossLine(token: string) | TakeProfitLine(token: string) | OtherLine

  /** What a stripped line after the first one says. */
  function ReadLine(line: string): PriceLine {
    if StartsWithIgnoreCase(line, "sl:") && |line| > 3 then StopLossLine(Strip(line[3..]))
    else if StartsWithIgnoreCase(line, "tp:") && |line| > 3 then TakeProfitLine(Strip(line[3..]))
    else OtherLine
  }

  predicate IsOpen(token: string) { Lower(token) == "open" }

  predicate RangeReads(line: string) {
    var range := EntryRange(line);
    range.Some? ==> PriceOf(range.value.0) != Unreadable && PriceOf(range.value.1) != Unreadable
  }

  predicate LineReads(line: string) {
    match ReadLine(line)
    case StopLossLine(token) => PriceOf(token) != Unreadable
    case TakeProfitLine(token) => IsOpen(token) || PriceOf(token) != Unreadable
    case OtherLine => true
  }

  predicate LinesRead(lines: seq<string>) {
    forall i | 0 <= i < |lines| :: LineReads(lines[i])
  }

  /** No price of a details text reads as an infinity or as no number at all. */
  predicate PricesRead(details: string) {
    var lines := NonBlankLines(details);
    lines != [] ==> RangeReads(lines[0]) && LinesRead(lines[1..])
  }

  // ---------- what numerals read as ----------

  lemma PlainDigits(digits: string)
    requires digits != "" && AllDigits(digits)
    ensures Strip(digits) == digits && UnderscoresFit(digits) && WithoutUnderscores(digits) == digits
    ensures Lower(digits) == digits && digits[0] !in {'+', '-', 'i', 'n'}
  {
    hide Strip;
    StripOfTrimmed(digits);
    NoUnderscores(digits);
    assert forall i | 0 <= i < |digits| :: LowerChar(digits[i]) == digits[i];
  }

  lemma {:induction false} NoUnderscores(s: string)
    requires '_' !in s
    ensures WithoutUnderscores(s) == s
  {
    if s != "" {
      NoUnderscores(s[1..]);
    }
  }

  lemma DigitsNumeral(n: nat)
    ensures ReadNumeral(Digits(n)) == Some((n, 1))
  {
    DigitSpanOf(Digits(n), "");
    assert Digits(n) + "" == Digits(n) && Digits(n)[..|Digits(n)|] == Digits(n);
    DigitsRoundTrip(n);
  }

  lemma DigitsFloat(n: nat)
    ensures ReadFloat(Digits(n)) == if n >= FloatLimit() then Infinite(false) else Finite(false, n, 1)
    ensures Strip(Digits(n)) == Digits(n)
  {
    hide FloatLimit, ReadNumeral, Strip;
    PlainDigits(Digits(n));
    DigitsNumeral(n);
    assert "inf"[0] == 'i' && "infinity"[0] == 'i' && "nan"[0] == 'n';
  }

  /** A whole number is unreadable exactly from the point where doubles round to infinity. */
  lemma WholeNumberReads(n: nat)
    ensures PriceOf(Digits(n)) == Unreadable <==> n >= Pow2(1024) - Pow2(970)
  {
    hide FloatLimit, ReadFloat, Strip, Digits, Truncated, Pow2;
    DigitsFloat(n);
    LimitIs();
  }

  lemma LimitIs()
    ensures FloatLimit() == Pow2(1024) - Pow2(970)
  {
    hide Pow2;
  }

  lemma {:induction false} LogBounds(n: nat, m: nat, bits: nat)
    requires 0 < m <= n < m * Pow2(bits)
    ensures FloorLog2(n, m) < bits
    decreases n - m
  {
    if bits > 0 && n >= 2 * m {
      assert (2 * m) * Pow2(bits - 1) == m * Pow2(bits);
      LogBounds(n, 2 * m, bits - 1);
    }
  }

  /** Whole numbers that a double holds exactly come through as they are. */
  lemma WholePriceIsExact(n: nat)
    requires 0 < n < Pow2(53)
    ensures PriceOf(Digits(n)) == Amount(n)
  {
    hide FloatLimit, ReadFloat, Strip, Digits, Pow2;
    DigitsFloat(n);
    BelowFloatLimit(n);
    LogBounds(n, 1, MANTISSA_BITS);
    var unit := Pow2(MANTISSA_BITS - 1 - FloorLog2(n, 1));
    assert (n * unit) % 1 == 0 && (n * unit) / 1 == n * unit;
    ExactQuotient(n, unit);
    BelowUnderflow(n);
  }

  lemma ProductOrder(x: int, y: int, b: nat)
    requires x <= y
    ensures x * b <= y * b
  {
  }

  lemma ExactQuotient(n: nat, unit: nat)
    requires unit > 0
    ensures (n * unit) / unit == n
  {
    var a := n * unit;
    var q := a / unit;
    assert q * unit <= a < q * unit + unit;
    if q < n {
      ProductOrder(q + 1, n, unit);
    } else if n < q {
      ProductOrder(n + 1, q, unit);
    }
  }

  lemma BelowUnderflow(n: nat)
    requires n > 0
    ensures n * Pow2(1075) > 1
  {
    hide Pow2;
    assert Pow2(1) <= Pow2(1075) by { Pow2Grows(1, 1075); }
    SmallPowers();
    assert n * Pow2(1075) >= Pow2(1075);
  }

  lemma SmallPowers()
    ensures Pow2(0) == 1 && Pow2(1) == 2
  {
  }

  lemma BelowFloatLimit(n: nat)
    requires n < Pow2(MANTISSA_BITS)
    ensures n < FloatLimit()
  {
    hide Pow2;
    Pow2Grows(MANTISSA_BITS, 970);
    Pow2Grows(971, MAX_EXPONENT);
    Pow2Next(970);
  }

  lemma Pow2Next(n: nat)
    ensures Pow2(n + 1) == 2 * Pow2(n)
  {
  }

  // ---------- other tokens ----------

  /** Zero is no price. */
  lemma ZeroIsNoPrice()
    ensures PriceOf(Digits(0)) == NoPrice
  {
    hide FloatLimit, ReadFloat, Strip, Digits, Pow2;
    DigitsFloat(0);
    BelowFloatLimit(0);
  }

  lemma SignedDigits(n: nat)
    ensures var s := "-" + Digits(n);
            && Strip(s) == s && UnderscoresFit(s) && WithoutUnderscores(s) == s && s[0] == '-' && s[1..] == Digits(n)
            && Lower(Digits(n)) !in {"inf", "infinity", "nan"}
  {
    hide Strip, Digits, Lower, WithoutUnderscores;
    var s := "-" + Digits(n);
    assert s[|s| - 1] == Digits(n)[|Digits(n)| - 1];
    StripOfTrimmed(s);
    assert forall i | 1 <= i < |s| :: s[i] == Digits(n)[i - 1];
    NoUnderscores(s);
    NumberIsNoWord(Digits(n));
  }

  /** A number with a minus sign is no price, however large. */
  lemma NegativeIsNoPrice(n: nat)
    ensures PriceOf("-" + Digits(n)) == NoPrice
  {
    hide FloatLimit, ReadNumeral, Strip, Digits, Truncated, Pow2, Lower, UnderscoresFit, WithoutUnderscores;
    SignedDigits(n);
    DigitsNumeral(n);
  }

  /** Letters other than the three words are no price. */
  lemma LettersAreNoPrice(token: string)
    requires token != "" && forall i | 0 <= i < |token| :: 'a' <= LowerChar(token[i]) <= 'z'
    requires Lower(token) !in {"inf", "infinity", "nan"}
    ensures PriceOf(token) == NoPrice
  {
    hide Strip, FloatLimit, WithoutUnderscores, UnderscoresFit, Truncated, Pow2;
    var lowered := Lower(token);
    assert forall i | 0 <= i < |lowered| :: lowered[i] == LowerChar(token[i]);
    LetterToken(token, lowered);
    assert !IsDigit(token[0]) && token[0] != '.';
  }

  // Fractions.

  lemma {:induction false} DigitsAppend(a: string, b: string)
    requires AllDigits(a) && AllDigits(b)
    ensures AllDigits(a + b) && DigitsValue(a + b) == DigitsValue(a) * Pow10(|b|) + DigitsValue(b)
    ensures DigitsValue(b) < Pow10(|b|)
  {
    if b == "" {
      assert a + b == a;
    } else {
      var front := b[..|b| - 1];
      DigitsAppend(a, front);
      assert (a + b)[..|a + b| - 1] == a + front;
      assert DigitsValue(a) * Pow10(|b|) == DigitsValue(a) * Pow10(|front|) * 10;
    }
  }

  lemma FractionNumeral(n: nat, fraction: string)
    requires AllDigits(fraction)
    ensures ReadNumeral(Digits(n) + ("." + fraction)) == Some((n * Pow10(|fraction|) + DigitsValue(fraction), Pow10(|fraction|)))
    ensures DigitsValue(fraction) < Pow10(|fraction|)
  {
    hide Digits, Pow10, DigitsValue, ReadExponent, DigitPrefix;
    var s := Digits(n) + ("." + fraction);
    assert fraction + "" == fraction;
    PrefixOfDigits(Digits(n), "." + fraction);
    PrefixOfDigits(fraction, "");
    assert s[|Digits(n)|..] == "." + fraction && ("." + fraction)[1..] == fraction && ("." + fraction)[1 + |fraction|..] == "";
    DigitsAppend(Digits(n), fraction);
    DigitsRoundTrip(n);
    TenToNothing();
  }

  lemma PrefixOfDigits(digits: string, rest: string)
    requires AllDigits(digits) && (rest == "" || !IsDigit(rest[0]))
    ensures DigitPrefix(digits + rest) == digits
  {
    DigitSpanOf(digits, rest);
  }

  lemma TenToNothing()
    ensures Pow10(0) == 1
  {
  }

  lemma FractionText(n: nat, fraction: string)
    requires AllDigits(fraction) && fraction != ""
    ensures var s := Digits(n) + ("." + fraction);
            && Strip(s) == s && UnderscoresFit(s) && WithoutUnderscores(s) == s && s[0] !in {'+', '-'}
            && Lower(s) !in {"inf", "infinity", "nan"}
  {
    hide Strip, Digits;
    var s := Digits(n) + ("." + fraction);
    assert s[0] == Digits(n)[0] && s[|s| - 1] == fraction[|fraction| - 1];
    forall i | 0 <= i < |s| ensures s[i] != '_' {
      assert s[i] == if i < |Digits(n)| then Digits(n)[i] else ("." + fraction)[i - |Digits(n)|];
    }
    StripOfTrimmed(s);
    NoUnderscores(s);
    NumberIsNoWord(s);
  }

  /** n + r / m rounds to a double that stays below n + 1, as long as doubles are fine enough there. */
  lemma RoundsBelow(n: nat, r: nat, m: nat, unit: nat)
    requires r < m < 2 * unit
    ensures RoundHalfEven((n * m + r) * unit, m) / unit == n
  {
    var x, top := (n * m + r) * unit, n * unit + unit - 1;
    ScaledBounds(n, r, m, unit);
    QuotientBetween(x, m, n * unit, top);
    if x / m == top {
      RestOfTop(x, m, top, unit);
    }
    QuotientOf(RoundHalfEven(x, m), unit, n);
  }

  lemma ScaledBounds(n: nat, r: nat, m: nat, unit: nat)
    requires r < m && unit > 0
    ensures var x, top := (n * m + r) * unit, n * unit + unit - 1;
            (n * unit) * m <= x <= (top + 1) * m - unit
  {
    var x, top := (n * m + r) * unit, n * unit + unit - 1;
    assert x == (n * unit) * m + r * unit;
    ProductOrder(r, m - 1, unit);
    assert (top + 1) * m == (n * unit) * m + unit * m;
  }

  lemma RestOfTop(x: nat, m: nat, top: nat, unit: nat)
    requires m > 0 && x <= (top + 1) * m - unit && m < 2 * unit && x / m == top
    ensures 2 * (x % m) < m
  {
    assert x == top * m + x % m;
    assert (top + 1) * m == top * m + m;
  }

  lemma QuotientBetween(x: nat, m: nat, low: nat, high: nat)
    requires m > 0 && low * m <= x < (high + 1) * m
    ensures low <= x / m <= high
  {
    var q := x / m;
    assert q * m <= x < q * m + m;
    if q < low {
      ProductOrder(q + 1, low, m);
    } else if q > high {
      ProductOrder(high + 1, q, m);
    }
  }

  lemma QuotientOf(x: nat, unit: nat, n: nat)
    requires unit > 0 && n * unit <= x < n * unit + unit
    ensures x / unit == n
  {
    assert (n + 1) * unit == n * unit + unit;
    QuotientBetween(x, unit, n, n);
  }

  /** The part of a price behind the point is dropped, for up to four places and whole parts below 2 to the 40. */
  lemma FractionIsDropped(n: nat, fraction: string)
    requires 0 < n < Pow2(40) && AllDigits(fraction) && 0 < |fraction| <= 4
    ensures PriceOf(Digits(n) + ("." + fraction)) == Amount(n)
  {
    hide FloatLimit, ReadNumeral, Strip, Digits, Pow2, Pow10, DigitsValue, Lower, UnderscoresFit, WithoutUnderscores, FloorLog2, Truncated;
    var m, r := Pow10(|fraction|), DigitsValue(fraction);
    FractionText(n, fraction);
    FractionNumeral(n, fraction);
    SmallTens(|fraction|);
    FractionBelowLimit(n, r, m);
    FractionTruncates(n, r, m);
    FractionAboveUnderflow(n, r, m);
  }

  lemma SmallTens(places: nat)
    requires places <= 4
    ensures 0 < Pow10(places) <= 10000
  {
    assert Pow10(4) == 10000 && Pow10(3) == 1000 && Pow10(2) == 100 && Pow10(1) == 10 && Pow10(0) == 1;
  }

  lemma FractionBelowLimit(n: nat, r: nat, m: nat)
    requires n < Pow2(40) && r < m
    ensures n * m + r < FloatLimit() * m
  {
    hide Pow2;
    Pow2Grows(40, 53);
    assert n + 1 <= Pow2(53);
    LimitIs();
    Pow2Grows(53, 970);
    Pow2Next(970);
    Pow2Grows(971, 1024);
    assert n + 1 <= FloatLimit();
    ProductOrder(n + 1, FloatLimit(), m);
  }

  lemma FractionAboveUnderflow(n: nat, r: nat, m: nat)
    requires n > 0 && m > 0
    ensures (n * m + r) * Pow2(1075) > m
  {
    hide Pow2;
    BelowUnderflow(1);
    assert n * m + r >= m;
    ProductOrder(m, n * m + r, Pow2(1075));
    assert m * Pow2(1075) > m by {
      ProductOrder(2, Pow2(1075), m);
    }
  }

  lemma FractionTruncates(n: nat, r: nat, m: nat)
    requires 0 < n < Pow2(40) && r < m <= 10000
    ensures Truncated(n * m + r, m) == n
  {
    hide Pow2, FloorLog2, RoundHalfEven;
    ProductOrder(1, n, m);
    ProductOrder(n + 1, Pow2(40), m);
    assert m <= n * m + r < m * Pow2(40);
    LogBounds(n * m + r, m, 40);
    var e := FloorLog2(n * m + r, m);
    Pow2Grows(13, 52 - e);
    assert Pow2(13) == 8192 by {
      Thirteen();
    }
    RoundsBelow(n, r, m, Pow2(52 - e));
  }

  lemma Thirteen()
    ensures Pow2(13) == 8192
  {
  }

  // ---------- texts that make it raise ----------

  lemma LetterToken(token: string, lowered: string)
    requires Lower(token) == lowered && lowered != "" && forall i | 0 <= i < |lowered| :: 'a' <= lowered[i] <= 'z'
    ensures Strip(token) == token && UnderscoresFit(token) && WithoutUnderscores(token) == token
    ensures token[0] !in {'+', '-'}
  {
    hide Strip;
    forall i | 0 <= i < |token| ensures LowerChar(token[i]) == lowered[i] {
    }
    StripOfTrimmed(token);
    NoUnderscores(token);
  }

  /** inf, infinity and nan are unreadable in any mix of cases. */
  lemma WordUnreadable(token: string)
    requires Lower(token) == "inf" || Lower(token) == "infinity" || Lower(token) == "nan"
    ensures PriceOf(token) == Unreadable
  {
    hide Strip, ReadNumeral, Lower, FloatLimit, WithoutUnderscores, UnderscoresFit, Truncated, Pow2;
    LetterToken(token, Lower(token));
  }

  lemma SmallExponentNumeral()
    ensures ReadNumeral("1e999") == Some((Pow10(999), 1))
  {
    hide Pow10, Pow2, ReadDecimal, DigitSpan, DigitsValue;
    var s := "1e999";
    DigitSpanOf("1", "e999");
    assert "1" + "e999" == s && s[..1] == "1" && s[1..] == "e999" && "e999"[1..] == "999";
    ThreeNines();
    assert 1 * Pow10(999) == Pow10(999);
  }

  /** A short token can be too large as well. */
  lemma ExponentUnreadable()
    ensures PriceOf("1e999") == Unreadable
  {
    hide Strip, ReadNumeral, Lower, FloatLimit, WithoutUnderscores, Truncated, Pow2, Pow10;
    var s := "1e999";
    StripOfTrimmed(s);
    NoUnderscores(s);
    SmallExponentNumeral();
    Pow10Positive(999);
    Pow2Grows(MAX_EXPONENT, 3 * 999);
    AboveFloatLimit(Pow10(999));
    NumberIsNoWord(s);
  }

  lemma NumberIsNoWord(s: string)
    requires s != "" && IsDigit(s[0])
    ensures Lower(s) != "inf" && Lower(s) != "infinity" && Lower(s) != "nan"
  {
    assert Lower(s)[0] == s[0];
  }

  lemma ThreeNines()
    ensures ReadDecimal("999") == Some(999) && DigitsValue("1" + "") == 1
  {
    assert Digits(999) == "999" by {
      assert Digits(99) == "99" by {
        assert Digits(9) == "9";
      }
    }
    DigitsRoundTrip(999);
    DigitsRoundTrip(1);
    assert Digits(1) == "1" == "1" + "";
  }

  lemma AboveFloatLimit(n: nat)
    requires n >= Pow2(MAX_EXPONENT)
    ensures n >= FloatLimit() * 1
  {
    hide Pow2;
  }

  lemma FirstLineAppend(s: string, rest: string)
    requires '\n' !in s
    ensures FirstLine(s + ("\n" + rest)) == s
    decreases |s|
  {
    if s == "" {
      assert s + ("\n" + rest) == "\n" + rest;
    } else {
      assert (s + ("\n" + rest))[1..] == s[1..] + ("\n" + rest);
      FirstLineAppend(s[1..], rest);
    }
  }

  function Kept(line: string): seq<string> { if Strip(line) == "" then [] else [Strip(line)] }

  lemma LinesStep(first: string, later: string)
    requires '\n' !in first
    ensures NonBlankLines(first + ("\n" + later)) == Kept(first) + NonBlankLines(later)
  {
    hide Strip;
    var all := first + ("\n" + later);
    FirstLineAppend(first, later);
    assert all[|first| + 1..] == later;
  }

  /** One more stripped line after any text is one more line of that text. */
  lemma {:induction false} OneMoreLine(text: string, line: string)
    requires line != "" && Trimmed(line) && '\n' !in line
    ensures NonBlankLines(text + ("\n" + line)) == NonBlankLines(text) + [line]
    decreases |text|
  {
    hide Strip, NonBlankLines;
    var first := FirstLine(text);
    SingleLine(line);
    if |first| == |text| {
      assert first == text;
      LinesStep(text, line);
      WholeLine(text);
    } else {
      var later := text[|first| + 1..];
      assert text == first + ("\n" + later);
      assert text + ("\n" + line) == first + ("\n" + (later + ("\n" + line)));
      LinesStep(first, later);
      LinesStep(first, later + ("\n" + line));
      OneMoreLine(later, line);
    }
  }

  lemma WholeLine(text: string)
    requires FirstLine(text) == text
    ensures NonBlankLines(text) == Kept(text)
  {
    hide Strip;
  }

  lemma SingleLine(line: string)
    requires line != "" && Trimmed(line) && '\n' !in line
    ensures NonBlankLines(line) == [line]
  {
    StripOfTrimmed(line);
    assert FirstLine(line) == line[..|FirstLine(line)|];
    assert |FirstLine(line)| == |line| && line[..|line|] == line;
  }

  /** A price line that does not read spoils any details text that it is added to. */
  lemma SpoiltByOneLine(details: string, line: string)
    requires NonBlankLines(details) != [] && line != "" && Trimmed(line) && '\n' !in line && !LineReads(line)
    ensures !PricesRead(details + ("\n" + line))
  {
    hide LineReads, RangeReads;
    OneMoreLine(details, line);
    var lines := NonBlankLines(details) + [line];
    assert lines[1..][|lines| - 2] == line;
  }
}
