/**
 Stored UTC timestamps, "YYYY-MM-DDTHH:MM:SSZ" (section 5.6 of RFC 3339): writing and reading them,
 and why comparing their texts, as SQLite does, compares the instants (section 5.1 of RFC 3339).
 */
module Timestamps {
  import opened Wrappers
  import opened Decimals

  // ---------- the calendar ----------

  predicate IsLeap(year: nat) { year % 4 == 0 && (year % 100 != 0 || year % 400 == 0) }

  function DaysInYear(year: nat): nat { if IsLeap(year) then 366 else 365 }

  function DaysInMonth(year: nat, month: nat): nat {
    if month == 2 then (if IsLeap(year) then 29 else 28)
    else if month in {4, 6, 9, 11} then 30
    else 31
  }

  function DaysBeforeYear(year: nat): nat
    requires year >= 1
  {
    if year == 1 then 0 else DaysBeforeYear(year - 1) + DaysInYear(year - 1)
  }

  function DaysBeforeMonth(year: nat, month: nat): nat
    requires 1 <= month <= 13
  {
    if month == 1 then 0 else DaysBeforeMonth(year, month - 1) + DaysInMonth(year, month - 1)
  }

  datatype DateTime = DateTime(year: nat, month: nat, day: nat, hour: nat, minute: nat, second: nat) {
    predicate Valid() {
      && 1 <= year && 1 <= month <= 12 && 1 <= day <= DaysInMonth(year, month)
      && hour < 24 && minute < 60 && second < 60
    }

    /** Calendar order: the first field that differs decides. */
    predicate Before(other: DateTime) {
      if year != other.year then year < other.year
      else if month != other.month then month < other.month
      else if day != other.day then day < other.day
      else if hour != other.hour then hour < other.hour
      else if minute != other.minute then minute < other.minute
      else second < other.second
    }

    /** Seconds since 0001-01-01T00:00:00Z. */
    function Seconds(): nat
      requires Valid()
    {
      (DaysBeforeYear(year) + DaysBeforeMonth(year, month) + day - 1) * 86400 + hour * 3600 + minute * 60 + second
    }
  }

  lemma {:induction false} YearsGrow(y: nat, y': nat)
    requires 1 <= y < y'
    ensures DaysBeforeYear(y) + DaysInYear(y) <= DaysBeforeYear(y')
  {
    if y + 1 < y' {
      YearsGrow(y, y' - 1);
    }
  }

  lemma {:induction false} MonthsGrow(year: nat, m: nat, m': nat)
    requires 1 <= m < m' <= 13
    ensures DaysBeforeMonth(year, m) + DaysInMonth(year, m) <= DaysBeforeMonth(year, m')
  {
    if m + 1 < m' {
      MonthsGrow(year, m, m' - 1);
    }
  }

  lemma MonthsFillYear(year: nat)
    ensures DaysBeforeMonth(year, 13) == DaysInYear(year)
  {
    var leap := if IsLeap(year) then 1 else 0;
    assert DaysBeforeMonth(year, 2) == 31;
    assert DaysBeforeMonth(year, 3) == 59 + leap;
    assert DaysBeforeMonth(year, 4) == 90 + leap;
    assert DaysBeforeMonth(year, 5) == 120 + leap;
    assert DaysBeforeMonth(year, 6) == 151 + leap;
    assert DaysBeforeMonth(year, 7) == 181 + leap;
    assert DaysBeforeMonth(year, 8) == 212 + leap;
    assert DaysBeforeMonth(year, 9) == 243 + leap;
    assert DaysBeforeMonth(year, 10) == 273 + leap;
    assert DaysBeforeMonth(year, 11) == 304 + leap;
    assert DaysBeforeMonth(year, 12) == 334 + leap;
    assert DaysBeforeMonth(year, 13) == 365 + leap;
  }

  lemma DayOfYear(year: nat, month: nat, day: nat)
    requires 1 <= month <= 12 && 1 <= day <= DaysInMonth(year, month)
    ensures DaysBeforeMonth(year, month) + day <= DaysInYear(year)
  {
    MonthsGrow(year, month, 13);
    MonthsFillYear(year);
  }

  /** Calendar order is the order of the instants. */
  lemma BeforeIsEarlier(a: DateTime, b: DateTime)
    requires a.Valid() && b.Valid() && a.Before(b)
    ensures a.Seconds() < b.Seconds()
  {
    DayOfYear(a.year, a.month, a.day);
    if a.year < b.year {
      YearsGrow(a.year, b.year);
    } else if a.month < b.month {
      MonthsGrow(a.year, a.month, b.month);
    }
  }

  lemma BeforeIffEarlier(a: DateTime, b: DateTime)
    requires a.Valid() && b.Valid()
    ensures a.Before(b) <==> a.Seconds() < b.Seconds()
    ensures a == b <==> a.Seconds() == b.Seconds()
  {
    if a.Before(b) {
      BeforeIsEarlier(a, b);
    } else if b.Before(a) {
      BeforeIsEarlier(b, a);
    }
  }

  /** The Gregorian calendar in closed form: a leap day every four years, but for the centuries that 400 does not divide. */
  lemma {:induction false} DaysInClosedForm(year: nat)
    requires year >= 1
    ensures var y := year - 1; DaysBeforeYear(year) == 365 * y + y / 4 - y / 100 + y / 400
  {
    if year > 1 {
      DaysInClosedForm(year - 1);
      LeapDay(year - 1);
    }
  }

  lemma LeapDay(year: nat)
    requires year >= 1
    ensures var y := year - 1;
            year / 4 - year / 100 + year / 400 == y / 4 - y / 100 + y / 400 + if IsLeap(year) then 1 else 0
  {
    QuotientStep(year, 4);
    QuotientStep(year, 100);
    QuotientStep(year, 400);
    assert year % 400 == 0 ==> year % 100 == 0;
    assert year % 100 == 0 ==> year % 4 == 0;
  }

  lemma QuotientStep(n: nat, d: nat)
    requires n >= 1 && d in {4, 100, 400}
    ensures n / d == (n - 1) / d + if n % d == 0 then 1 else 0
  {
  }

  // ---------- from instants back to the calendar ----------

  function YearFrom(days: nat, year: nat): (nat, nat)
    decreases days
  {
    if days < DaysInYear(year) then (year, days) else YearFrom(days - DaysInYear(year), year + 1)
  }

  function MonthFrom(days: nat, year: nat, month: nat): (nat, nat)
    requires 1 <= month <= 12
    decreases 12 - month
  {
    if month == 12 || days < DaysInMonth(year, month) then (month, days)
    else MonthFrom(days - DaysInMonth(year, month), year, month + 1)
  }

  lemma {:induction false} YearFromIsRight(days: nat, year: nat)
    requires year >= 1
    ensures var (y, rest) := YearFrom(days, year);
            y >= year && rest < DaysInYear(y) && DaysBeforeYear(y) + rest == DaysBeforeYear(year) + days
    decreases days
  {
    if days >= DaysInYear(year) {
      YearFromIsRight(days - DaysInYear(year), year + 1);
    }
  }

  lemma {:induction false} MonthFromIsRight(days: nat, year: nat, month: nat)
    requires 1 <= month <= 12 && DaysBeforeMonth(year, month) + days < DaysInYear(year)
    ensures var (m, rest) := MonthFrom(days, year, month);
            && month <= m <= 12 && 0 <= rest < DaysInMonth(year, m)
            && DaysBeforeMonth(year, m) + rest == DaysBeforeMonth(year, month) + days
    decreases 12 - month
  {
    if month == 12 {
      MonthsFillYear(year);
    } else if days >= DaysInMonth(year, month) {
      MonthFromIsRight(days - DaysInMonth(year, month), year, month + 1);
    }
  }

  function ClockOf(s: nat): (nat, nat, nat) {
    (s / 3600, s % 3600 / 60, s % 3600 % 60)
  }

  function DateFrom(days: nat, secondOfDay: nat): DateTime {
    var (year, dayOfYear) := YearFrom(days, 1);
    var (month, dayOfMonth) := MonthFrom(dayOfYear, year, 1);
    var (hour, minute, second) := ClockOf(secondOfDay);
    DateTime(year, month, dayOfMonth + 1, hour, minute, second)
  }

  function FromSeconds(n: nat): DateTime {
    DateFrom(n / 86400, n % 86400)
  }

  lemma SecondsRoundTrip(n: nat)
    ensures FromSeconds(n).Valid() && FromSeconds(n).Seconds() == n
  {
    hide DateFrom, DateTime.Seconds, DateTime.Valid;
    DateFromIsRight(n / 86400, n % 86400);
  }

  lemma DateFromIsRight(days: nat, secondOfDay: nat)
    requires secondOfDay < 86400
    ensures DateFrom(days, secondOfDay).Valid() && DateFrom(days, secondOfDay).Seconds() == days * 86400 + secondOfDay
  {
    hide YearFrom, MonthFrom, DaysBeforeYear, DaysBeforeMonth, DaysInYear, DaysInMonth, ClockOf;
    DayFromIsRight(days);
    ClockSplit(secondOfDay);
    var d := DateFrom(days, secondOfDay);
    assert DaysBeforeYear(d.year) + DaysBeforeMonth(d.year, d.month) + d.day - 1 == days;
  }

  lemma DayFromIsRight(days: nat)
    ensures var (year, dayOfYear) := YearFrom(days, 1);
            var (month, dayOfMonth) := MonthFrom(dayOfYear, year, 1);
            && 1 <= year && 1 <= month <= 12 && 0 <= dayOfMonth < DaysInMonth(year, month)
            && DaysBeforeYear(year) + DaysBeforeMonth(year, month) + dayOfMonth == days
  {
    hide YearFrom, MonthFrom, DaysBeforeYear, DaysBeforeMonth, DaysInYear, DaysInMonth;
    var (year, dayOfYear) := YearFrom(days, 1);
    YearFromIsRight(days, 1);
    NothingBefore(year);
    MonthFromIsRight(dayOfYear, year, 1);
  }

  lemma NothingBefore(year: nat)
    ensures DaysBeforeYear(1) == 0 && DaysBeforeMonth(year, 1) == 0
  {
  }

  lemma ClockSplit(s: nat)
    requires s < 86400
    ensures var (hour, minute, second) := ClockOf(s);
            hour < 24 && minute < 60 && second < 60 && hour * 3600 + minute * 60 + second == s
  {
  }

  lemma CalendarRoundTrip(d: DateTime)
    requires d.Valid()
    ensures FromSeconds(d.Seconds()) == d
  {
    SecondsRoundTrip(d.Seconds());
    BeforeIffEarlier(FromSeconds(d.Seconds()), d);
  }

  // ---------- fixed-width text ----------

  /** The last w decimal digits, with leading zeros. */
  function Pad(n: nat, w: nat): (s: string)
    ensures |s| == w && AllDigits(s)
  {
    if w == 0 then "" else Pad(n / 10, w - 1) + [DigitChar(n % 10)]
  }

  /** Bytewise string order, as SQLite compares TEXT. */
  predicate TextBefore(a: string, b: string) {
    if a == "" || b == "" then a == "" && b != ""
    else a[0] < b[0] || (a[0] == b[0] && TextBefore(a[1..], b[1..]))
  }

  predicate TextAtMost(a: string, b: string) {
    a == b || TextBefore(a, b)
  }

  lemma {:induction false} TextBeforeAppend(a: string, x: string, b: string, y: string)
    requires |a| == |b|
    ensures TextBefore(a + x, b + y) <==> TextBefore(a, b) || (a == b && TextBefore(x, y))
  {
    if a == "" {
      assert a + x == x && b + y == y;
    } else {
      assert (a + x)[1..] == a[1..] + x && (b + y)[1..] == b[1..] + y;
      TextBeforeAppend(a[1..], x, b[1..], y);
      assert a == [a[0]] + a[1..] && b == [b[0]] + b[1..];
    }
  }

  lemma {:induction false} PadOrder(m: nat, n: nat, w: nat)
    requires m < Pow10(w) && n < Pow10(w)
    ensures TextBefore(Pad(m, w), Pad(n, w)) <==> m < n
    ensures Pad(m, w) == Pad(n, w) <==> m == n
  {
    if w > 0 {
      PadOrder(m / 10, n / 10, w - 1);
      var a, b := [DigitChar(m % 10)], [DigitChar(n % 10)];
      TextBeforeAppend(Pad(m / 10, w - 1), a, Pad(n / 10, w - 1), b);
      assert a[1..] == "" && b[1..] == "";
      assert TextBefore(a, b) <==> m % 10 < n % 10;
      if Pad(m, w) == Pad(n, w) {
        assert Pad(m, w)[..w - 1] == Pad(m / 10, w - 1) && Pad(n, w)[..w - 1] == Pad(n / 10, w - 1);
        assert Pad(m, w)[w - 1] == DigitChar(m % 10) && Pad(n, w)[w - 1] == DigitChar(n % 10);
      }
    }
  }

  // ---------- stored timestamps ----------

  /** The instants that all writers render with four year digits. */
  predicate FourDigitYear(n: nat) {
    1000 <= FromSeconds(n).year <= 9999
  }

  function IsoOf(d: DateTime): string {
    Pad(d.year, 4) + ("-" + (Pad(d.month, 2) + ("-" + (Pad(d.day, 2) + ("T" +
      (Pad(d.hour, 2) + (":" + (Pad(d.minute, 2) + (":" + (Pad(d.second, 2) + "Z"))))))))))
  }

  /** An instant, in whole seconds, as stored. */
  function Iso(n: nat): string {
    IsoOf(FromSeconds(n))
  }

  /** The stored form: four digits, two, two, T, two, two, two, Z. */
  lemma IsoShape(n: nat)
    ensures |Iso(n)| == 20 && Iso(n)[4] == '-' && Iso(n)[7] == '-' && Iso(n)[10] == 'T' && Iso(n)[13] == ':' && Iso(n)[16] == ':'
            && Iso(n)[19] == 'Z'
    ensures AllDigits(Iso(n)[..4]) && AllDigits(Iso(n)[5..7]) && AllDigits(Iso(n)[8..10]) && AllDigits(Iso(n)[11..13])
            && AllDigits(Iso(n)[14..16]) && AllDigits(Iso(n)[17..19])
  {
    hide Pad, FromSeconds, AllDigits;
    var d, s := FromSeconds(n), Iso(n);
    var x5 := Pad(d.second, 2) + "Z";
    var x4 := Pad(d.minute, 2) + (":" + x5);
    var x3 := Pad(d.hour, 2) + (":" + x4);
    var x2 := Pad(d.day, 2) + ("T" + x3);
    var x1 := Pad(d.month, 2) + ("-" + x2);
    FieldAt(s, 0, Pad(d.year, 4), "-", x1);
    FieldAt(s, 5, Pad(d.month, 2), "-", x2);
    FieldAt(s, 8, Pad(d.day, 2), "T", x3);
    FieldAt(s, 11, Pad(d.hour, 2), ":", x4);
    FieldAt(s, 14, Pad(d.minute, 2), ":", x5);
    assert x5 == Pad(d.second, 2) + ("Z" + "");
    FieldAt(s, 17, Pad(d.second, 2), "Z", "");
  }

  lemma FieldAt(s: string, i: nat, field: string, separator: string, rest: string)
    requires i <= |s| && s[i..] == field + (separator + rest) && |separator| == 1
    ensures i + |field| + 1 <= |s| && s[i..i + |field|] == field && s[i + |field|] == separator[0] && s[i + |field| + 1..] == rest
  {
    var t := s[i..];
    assert t[..|field|] == field && t[|field|] == separator[0] && t[|field| + 1..] == rest;
  }

  /** The text between fixed fields decides only when the earlier fields are equal. */
  lemma FieldOrder(m: nat, n: nat, w: nat, separator: string, x: string, y: string)
    requires m < Pow10(w) && n < Pow10(w) && |separator| == 1
    ensures TextBefore(Pad(m, w) + (separator + x), Pad(n, w) + (separator + y)) <==>
              m < n || (m == n && TextBefore(x, y))
    ensures Pad(m, w) + (separator + x) == Pad(n, w) + (separator + y) <==> m == n && x == y
  {
    PadOrder(m, n, w);
    TextBeforeAppend(Pad(m, w), separator + x, Pad(n, w), separator + y);
    TextBeforeAppend(separator, x, separator, y);
    NotBeforeItself(separator);
    SplitEqual(Pad(m, w), separator + x, Pad(n, w), separator + y);
    SplitEqual(separator, x, separator, y);
  }

  lemma {:induction false} NotBeforeItself(s: string)
    ensures !TextBefore(s, s)
  {
    if s != "" {
      NotBeforeItself(s[1..]);
    }
  }

  lemma SplitEqual(a: string, x: string, b: string, y: string)
    requires |a| == |b|
    ensures a + x == b + y <==> a == b && x == y
  {
    if a + x == b + y {
      assert a == (a + x)[..|a|] == b && x == (a + x)[|a|..] == y;
    }
  }

  /** Fixed-width zero-padded timestamps order as texts exactly as the calendar orders them. */
  lemma IsoOrder(a: DateTime, b: DateTime)
    requires a.Valid() && b.Valid() && a.year <= 9999 && b.year <= 9999
    ensures TextBefore(IsoOf(a), IsoOf(b)) <==> a.Before(b)
    ensures IsoOf(a) == IsoOf(b) <==> a == b
  {
    assert Pow10(1) == 10 && Pow10(2) == 100 && Pow10(3) == 1000 && Pow10(4) == 10000;
    hide Pad, TextBefore, Pow10, DaysInMonth;
    var x1, y1 := Pad(a.second, 2) + "Z", Pad(b.second, 2) + "Z";
    var x2, y2 := Pad(a.minute, 2) + (":" + x1), Pad(b.minute, 2) + (":" + y1);
    var x3, y3 := Pad(a.hour, 2) + (":" + x2), Pad(b.hour, 2) + (":" + y2);
    var x4, y4 := Pad(a.day, 2) + ("T" + x3), Pad(b.day, 2) + ("T" + y3);
    var x5, y5 := Pad(a.month, 2) + ("-" + x4), Pad(b.month, 2) + ("-" + y4);
    LastField(a.second, b.second);
    FieldOrder(a.minute, b.minute, 2, ":", x1, y1);
    FieldOrder(a.hour, b.hour, 2, ":", x2, y2);
    FieldOrder(a.day, b.day, 2, "T", x3, y3);
    FieldOrder(a.month, b.month, 2, "-", x4, y4);
    FieldOrder(a.year, b.year, 4, "-", x5, y5);
  }

  lemma LastField(m: nat, n: nat)
    requires m < 100 && n < 100
    ensures TextBefore(Pad(m, 2) + "Z", Pad(n, 2) + "Z") <==> m < n
    ensures Pad(m, 2) + "Z" == Pad(n, 2) + "Z" <==> m == n
  {
    assert Pow10(1) == 10 && Pow10(2) == 100;
    FieldOrder(m, n, 2, "Z", "", "");
    assert "Z" + "" == "Z";
  }

  /** The text order of two stored timestamps is the order of their instants. */
  lemma IsoTextOrder(m: nat, n: nat)
    requires FourDigitYear(m) && FourDigitYear(n)
    ensures TextAtMost(Iso(m), Iso(n)) <==> m <= n
    ensures Iso(m) == Iso(n) <==> m == n
  {
    hide IsoOf, TextBefore;
    SecondsRoundTrip(m);
    SecondsRoundTrip(n);
    IsoOrder(FromSeconds(m), FromSeconds(n));
    BeforeIffEarlier(FromSeconds(m), FromSeconds(n));
  }

  // ---------- reading a stored timestamp ----------

  /** A field of w digits and the character after it. */
  function ReadField(s: string, w: nat, separator: char): Option<(nat, string)> {
    if |s| > w && AllDigits(s[..w]) && s[w] == separator then Some((DigitsValue(s[..w]), s[w + 1..])) else None
  }

  /** Reads the stored format; None for anything else, as for an invalid date. */
  function ParseIso(text: string): Option<nat> {
    var (year, s1) :- ReadField(text, 4, '-');
    var (month, s2) :- ReadField(s1, 2, '-');
    var (day, s3) :- ReadField(s2, 2, 'T');
    var (hour, s4) :- ReadField(s3, 2, ':');
    var (minute, s5) :- ReadField(s4, 2, ':');
    var (second, s6) :- ReadField(s5, 2, 'Z');
    var d := DateTime(year, month, day, hour, minute, second);
    if s6 == "" && d.Valid() then Some(d.Seconds()) else None
  }

  lemma {:induction false} PadValue(n: nat, w: nat)
    requires n < Pow10(w)
    ensures DigitsValue(Pad(n, w)) == n
  {
    if w > 0 {
      PadValue(n / 10, w - 1);
      assert Pad(n, w)[..w - 1] == Pad(n / 10, w - 1);
    }
  }

  lemma ReadPadded(n: nat, w: nat, separator: char, rest: string)
    requires n < Pow10(w)
    ensures ReadField(Pad(n, w) + ([separator] + rest), w, separator) == Some((n, rest))
  {
    PadValue(n, w);
    var s := Pad(n, w) + ([separator] + rest);
    assert s[..w] == Pad(n, w) && s[w + 1..] == rest;
  }

  lemma ReadIso(d: DateTime)
    requires d.Valid() && d.year <= 9999
    ensures ParseIso(IsoOf(d)) == Some(d.Seconds())
  {
    assert Pow10(1) == 10 && Pow10(2) == 100 && Pow10(3) == 1000 && Pow10(4) == 10000;
    hide Pad, ReadField, Pow10, DaysInMonth, DaysBeforeMonth, DaysBeforeYear;
    var x1 := Pad(d.second, 2) + "Z";
    var x2 := Pad(d.minute, 2) + (":" + x1);
    var x3 := Pad(d.hour, 2) + (":" + x2);
    var x4 := Pad(d.day, 2) + ("T" + x3);
    var x5 := Pad(d.month, 2) + ("-" + x4);
    assert "Z" + "" == "Z";
    ReadPadded(d.second, 2, 'Z', "");
    ReadPadded(d.minute, 2, ':', x1);
    ReadPadded(d.hour, 2, ':', x2);
    ReadPadded(d.day, 2, 'T', x3);
    ReadPadded(d.month, 2, '-', x4);
    ReadPadded(d.year, 4, '-', x5);
  }

  /** Writing an instant and reading it back loses nothing. */
  lemma IsoRoundTrip(n: nat)
    requires FourDigitYear(n)
    ensures ParseIso(Iso(n)) == Some(n)
  {
    hide IsoOf, ParseIso;
    SecondsRoundTrip(n);
    ReadIso(FromSeconds(n));
  }

  const MICROS: nat := 1_000_000

  /**
   The two expiry tests agree: comparing the stored text with the text of the clock cut to whole
   seconds, and comparing the instant it denotes with the clock in microseconds.
   */
  lemma ExpiryTestsAgree(expiry: nat, nowMicros: nat)
    requires FourDigitYear(expiry) && FourDigitYear(nowMicros / MICROS)
    ensures TextAtMost(Iso(expiry), Iso(nowMicros / MICROS)) <==>
              (ParseIso(Iso(expiry)).Some? && ParseIso(Iso(expiry)).value * MICROS <= nowMicros)
  {
    hide Iso, ParseIso, FourDigitYear, TextAtMost;
    IsoRoundTrip(expiry);
    IsoTextOrder(expiry, nowMicros / MICROS);
  }
}
