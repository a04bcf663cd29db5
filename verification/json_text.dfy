/**
 The JSON that json.dumps writes and json.loads reads for flat objects: null, booleans, integers,
 texts and arrays of these. Texts go through the ASCII escapes of RFC 8259 section 7, with
 surrogate pairs beyond the basic plane.
 */
module JsonText {
  import opened Wrappers
  import opened Decimals

  datatype Json = Null | Bool(flag: bool) | Number(number: int) | Text(text: string) | Array(items: seq<Json>)

  // ---------- escapes ----------

  function HexChar(d: nat): char
    requires d < 16
  {
    if d < 10 then '0' + (d as char) else 'a' + ((d - 10) as char)
  }

  function HexValue(c: char): Option<nat> {
    if '0' <= c <= '9' then Some(c as int - '0' as int)
    else if 'a' <= c <= 'f' then Some(c as int - 'a' as int + 10)
    else if 'A' <= c <= 'F' then Some(c as int - 'A' as int + 10)
    else None
  }

  function Hex4(n: nat): (s: string)
    requires n < 0x10000
    ensures |s| == 4
  {
    var high := n / 16 / 16;
    [HexChar(high / 16), HexChar(high % 16), HexChar(n / 16 % 16), HexChar(n % 16)]
  }

  function ReadHex4(s: string): (r: Option<nat>)
    ensures r.Some? ==> |s| >= 4 && r.value < 0x10000
  {
    if |s| < 4 then None
    else
      var a :- HexValue(s[0]);
      var b :- HexValue(s[1]);
      var c :- HexValue(s[2]);
      var d :- HexValue(s[3]);
      if a < 16 && b < 16 && c < 16 && d < 16 then Some(4096 * a + 256 * b + 16 * c + d) else None
  }

  lemma HexRoundTrip(d: nat)
    requires d < 16
    ensures HexValue(HexChar(d)) == Some(d)
  {
  }

  lemma Hex4RoundTrip(n: nat, rest: string)
    requires n < 0x10000
    ensures ReadHex4(Hex4(n) + rest) == Some(n)
  {
    hide HexChar, HexValue;
    var high := n / 16 / 16;
    var a, b, c, d := high / 16, high % 16, n / 16 % 16, n % 16;
    HexRoundTrip(a);
    HexRoundTrip(b);
    HexRoundTrip(c);
    HexRoundTrip(d);
    var s := Hex4(n) + rest;
    assert s[0] == HexChar(a) && s[1] == HexChar(b) && s[2] == HexChar(c) && s[3] == HexChar(d);
    assert n == 4096 * a + 256 * b + 16 * c + d;
  }

  function Unit(n: nat): string
    requires n < 0x10000
  {
    "\\u" + Hex4(n)
  }

  function EscapeChar(c: char): (s: string)
    ensures s != "" && s[0] != '"'
  {
    if c == '"' then "\\\""
    else if c == '\\' then "\\\\"
    else if c == '\n' then "\\n"
    else if c == '\r' then "\\r"
    else if c == '\t' then "\\t"
    else if c == '\U{8}' then "\\b"
    else if c == '\U{C}' then "\\f"
    else if ' ' <= c <= '~' then [c]
    else if c as int < 0x10000 then Unit(c as int)
    else Unit(0xD800 + (c as int - 0x10000) / 0x400) + Unit(0xDC00 + (c as int - 0x10000) % 0x400)
  }

  function ReadUnit(s: string): Option<(char, string)>
    requires |s| >= 2
  {
    var n :- ReadHex4(s[2..]);
    if 0xD800 <= n < 0xDC00 then
      if |s| >= 12 && s[6] == '\\' && s[7] == 'u' then
        var m :- ReadHex4(s[8..]);
        if 0xDC00 <= m < 0xE000 then Some(((0x10000 + 0x400 * (n - 0xD800) + (m - 0xDC00)) as char, s[12..])) else None
      else None
    else if 0xDC00 <= n < 0xE000 then None
    else Some((n as char, s[6..]))
  }

  /** One character of a text, escaped or not. */
  function ReadChar(s: string): (r: Option<(char, string)>)
    ensures r.Some? ==> |r.value.1| < |s|
  {
    if s == "" || s[0] < ' ' then None
    else if s[0] != '\\' then Some((s[0], s[1..]))
    else if |s| < 2 then None
    else
      match s[1]
      case '"' => Some(('"', s[2..]))
      case '\\' => Some(('\\', s[2..]))
      case '/' => Some(('/', s[2..]))
      case 'n' => Some(('\n', s[2..]))
      case 'r' => Some(('\r', s[2..]))
      case 't' => Some(('\t', s[2..]))
      case 'b' => Some(('\U{8}', s[2..]))
      case 'f' => Some(('\U{C}', s[2..]))
      case 'u' => ReadUnit(s)
      case _ => None
  }

  lemma ReadUnitOf(c: char, rest: string)
    requires !(' ' <= c <= '~')
    ensures c as int < 0x10000 ==> ReadUnit(Unit(c as int) + rest) == Some((c, rest))
    ensures c as int >= 0x10000 ==>
              var n, m := 0xD800 + (c as int - 0x10000) / 0x400, 0xDC00 + (c as int - 0x10000) % 0x400;
              ReadUnit(Unit(n) + Unit(m) + rest) == Some((c, rest))
  {
    hide Hex4, ReadHex4;
    if c as int < 0x10000 {
      var s := Unit(c as int) + rest;
      Hex4RoundTrip(c as int, rest);
      assert s[2..] == Hex4(c as int) + rest && s[6..] == rest;
    } else {
      var n, m := 0xD800 + (c as int - 0x10000) / 0x400, 0xDC00 + (c as int - 0x10000) % 0x400;
      var s := Unit(n) + Unit(m) + rest;
      Hex4RoundTrip(n, Unit(m) + rest);
      Hex4RoundTrip(m, rest);
      assert s[2..] == Hex4(n) + (Unit(m) + rest);
      assert s[8..] == Hex4(m) + rest && s[12..] == rest;
    }
  }

  lemma ReadCharOf(c: char, rest: string)
    ensures ReadChar(EscapeChar(c) + rest) == Some((c, rest))
  {
    hide ReadUnit, Hex4;
    var s := EscapeChar(c) + rest;
    if |EscapeChar(c)| <= 2 {
      assert s[|EscapeChar(c)|..] == rest;
    } else {
      ReadUnitOf(c, rest);
    }
  }

  // ---------- texts ----------

  function Escaped(s: string): string {
    if s == "" then "" else EscapeChar(s[0]) + Escaped(s[1..])
  }

  lemma HexIsAscii(n: nat)
    requires n < 0x10000
    ensures forall i | 0 <= i < 4 :: '0' <= Hex4(n)[i] <= '9' || 'a' <= Hex4(n)[i] <= 'f'
  {
  }

  lemma EscapeIsPlain(c: char)
    ensures forall i | 0 <= i < |EscapeChar(c)| :: ' ' <= EscapeChar(c)[i] <= '~'
    ensures ' ' <= c <= '~' && c != '"' && c != '\\' ==> EscapeChar(c) == [c]
  {
    hide Hex4;
    if c as int < 0x10000 {
      HexIsAscii(c as int);
    } else {
      HexIsAscii(0xD800 + (c as int - 0x10000) / 0x400);
      HexIsAscii(0xDC00 + (c as int - 0x10000) % 0x400);
    }
  }

  /** What is written is printable ASCII, whatever the text holds. */
  lemma {:induction false} EscapedIsPlain(s: string)
    ensures forall i | 0 <= i < |Escaped(s)| :: ' ' <= Escaped(s)[i] <= '~'
  {
    hide EscapeChar;
    if s != "" {
      EscapeIsPlain(s[0]);
      EscapedIsPlain(s[1..]);
    }
  }

  /** A text up to its closing quote. */
  function ReadText(s: string): (r: Option<(string, string)>)
    ensures r.Some? ==> |r.value.1| < |s|
    decreases |s|
  {
    if s == "" then None
    else if s[0] == '"' then Some(("", s[1..]))
    else
      var (c, later) :- ReadChar(s);
      var (text, rest) :- ReadText(later);
      Some(([c] + text, rest))
  }

  lemma {:induction false} TextRoundTrip(s: string, rest: string)
    ensures ReadText(Escaped(s) + ("\"" + rest)) == Some((s, rest))
  {
    hide EscapeChar, ReadChar;
    if s == "" {
      assert Escaped(s) + ("\"" + rest) == "\"" + rest;
    } else {
      var later := Escaped(s[1..]) + ("\"" + rest);
      assert Escaped(s) + ("\"" + rest) == EscapeChar(s[0]) + later;
      ReadCharOf(s[0], later);
      TextRoundTrip(s[1..], rest);
      assert s == [s[0]] + s[1..];
    }
  }

  // ---------- numbers ----------

  predicate StartsFraction(s: string) { s != "" && s[0] in {'.', 'e', 'E'} }

  /** An integer; a fraction or an exponent is outside this form. */
  function ReadNatural(s: string): (r: Option<(nat, string)>)
    ensures r.Some? ==> |r.value.1| < |s|
  {
    var n := DigitSpan(s);
    if n == 0 then None
    else
      var n := if s[0] == '0' then 1 else n;
      if StartsFraction(s[n..]) then None
      else
        assert AllDigits(s[..DigitSpan(s)]) && s[..n] == s[..DigitSpan(s)][..n];
        Some((DigitsValue(s[..n]), s[n..]))
  }

  function ReadInteger(s: string): (r: Option<(int, string)>)
    ensures r.Some? ==> |r.value.1| < |s|
  {
    if s != "" && s[0] == '-' then
      var (n, rest) :- ReadNatural(s[1..]);
      var value: int := n;
      Some((-value, rest))
    else
      var (n, rest) :- ReadNatural(s);
      Some((n, rest))
  }

  predicate EndsNumber(rest: string) { rest == "" || (!IsDigit(rest[0]) && !StartsFraction(rest)) }

  lemma NaturalRoundTrip(n: nat, rest: string)
    requires EndsNumber(rest)
    ensures ReadNatural(Digits(n) + rest) == Some((n, rest))
  {
    var s := Digits(n) + rest;
    DigitSpanOf(Digits(n), rest);
    DigitsRoundTrip(n);
    assert s[..|Digits(n)|] == Digits(n) && s[|Digits(n)|..] == rest;
    assert s[0] == Digits(n)[0];
  }

  lemma NumberRoundTrip(n: int, rest: string)
    requires EndsNumber(rest)
    ensures ReadInteger(Decimal(n) + rest) == Some((n, rest))
  {
    hide ReadNatural, Digits;
    if n < 0 {
      NaturalRoundTrip(-n, rest);
      assert (Decimal(n) + rest)[1..] == Digits(-n) + rest;
    } else {
      NaturalRoundTrip(n, rest);
    }
  }

  // ---------- values ----------

  function SkipBlank(s: string): (r: string)
    ensures |r| <= |s|
    ensures s != "" && s[0] !in {' ', '\t', '\n', '\r'} ==> r == s
  {
    if s != "" && s[0] in {' ', '\t', '\n', '\r'} then SkipBlank(s[1..]) else s
  }

  predicate Flat(v: Json) {
    v.Array? ==> forall item | item in v.items :: !item.Array?
  }

  function PrintScalar(v: Json): (s: string)
    requires !v.Array?
    ensures s != "" && s[0] !in {' ', '\t', '\n', '\r', ']', '['}
  {
    match v
    case Null => "null"
    case Bool(flag) => if flag then "true" else "false"
    case Number(n) => NumberStart(n); Decimal(n)
    case Text(text) => "\"" + (Escaped(text) + "\"")
  }

  lemma NumberStart(n: int)
    ensures Decimal(n)[0] == '-' || IsDigit(Decimal(n)[0])
  {
  }

  function ReadScalar(s: string): (r: Option<(Json, string)>)
    ensures r.Some? ==> |r.value.1| < |s|
  {
    if "null" <= s then Some((Null, s[4..]))
    else if "true" <= s then Some((Bool(true), s[4..]))
    else if "false" <= s then Some((Bool(false), s[5..]))
    else if s != "" && s[0] == '"' then
      var (text, rest) :- ReadText(s[1..]);
      Some((Text(text), rest))
    else
      var (n, rest) :- ReadInteger(s);
      Some((Number(n), rest))
  }

  lemma ScalarRoundTrip(v: Json, rest: string)
    requires !v.Array? && EndsNumber(rest)
    ensures ReadScalar(PrintScalar(v) + rest) == Some((v, rest))
  {
    hide ReadInteger, Decimal, ReadText, Escaped, ReadScalar;
    match v
    case Null => WordRoundTrip(v, rest);
    case Bool(flag) => WordRoundTrip(v, rest);
    case Number(n) => ReadsNumber(n, rest);
    case Text(text) => ReadsText(text, rest);
  }

  lemma WordRoundTrip(v: Json, rest: string)
    requires v.Null? || v.Bool?
    ensures ReadScalar(PrintScalar(v) + rest) == Some((v, rest))
  {
    hide ReadInteger, ReadText, Escaped, Decimal;
    var s := PrintScalar(v) + rest;
    assert s[|PrintScalar(v)|..] == rest;
  }

  lemma ReadsNumber(n: int, rest: string)
    requires EndsNumber(rest)
    ensures ReadScalar(Decimal(n) + rest) == Some((Number(n), rest))
  {
    hide ReadInteger, Decimal, ReadText;
    NumberStart(n);
    NumberRoundTrip(n, rest);
    assert (Decimal(n) + rest)[0] == Decimal(n)[0];
  }

  lemma ReadsText(text: string, rest: string)
    ensures ReadScalar("\"" + (Escaped(text) + "\"") + rest) == Some((Text(text), rest))
  {
    hide ReadInteger, ReadText, Escaped;
    var s := "\"" + (Escaped(text) + "\"") + rest;
    TextRoundTrip(text, rest);
    assert s[1..] == Escaped(text) + ("\"" + rest);
    assert s[0] == '"' && "null"[0] != s[0] && "true"[0] != s[0] && "false"[0] != s[0];
  }

  function PrintItems(items: seq<Json>): string
    requires forall item | item in items :: !item.Array?
  {
    if items == [] then "]"
    else PrintScalar(items[0]) + (if |items| == 1 then "]" else "," + PrintItems(items[1..]))
  }

  /** The items of an array that has some, up to its closing bracket. */
  function ReadItems(s: string): (r: Option<(seq<Json>, string)>)
    ensures r.Some? ==> |r.value.1| < |s|
    decreases |s|
  {
    var (item, later) :- ReadScalar(s);
    var next := SkipBlank(later);
    if next == "" then None
    else if next[0] == ']' then Some(([item], next[1..]))
    else if next[0] != ',' then None
    else
      var (items, rest) :- ReadItems(SkipBlank(next[1..]));
      Some(([item] + items, rest))
  }

  lemma {:induction false} ItemsRoundTrip(items: seq<Json>, rest: string)
    requires items != [] && forall item | item in items :: !item.Array?
    ensures ReadItems(PrintItems(items) + rest) == Some((items, rest))
  {
    hide ReadScalar, PrintScalar;
    var s := PrintItems(items) + rest;
    if |items| == 1 {
      assert s == PrintScalar(items[0]) + ("]" + rest);
      ScalarRoundTrip(items[0], "]" + rest);
      assert ("]" + rest)[1..] == rest && items == [items[0]];
    } else {
      var more := PrintItems(items[1..]) + rest;
      assert s == PrintScalar(items[0]) + ("," + more);
      ScalarRoundTrip(items[0], "," + more);
      ItemsRoundTrip(items[1..], rest);
      assert ("," + more)[1..] == more;
      assert items[1] in items && more[0] == PrintScalar(items[1])[0];
      assert items == [items[0]] + items[1..];
    }
  }

  function PrintValue(v: Json): (s: string)
    requires Flat(v)
    ensures s != "" && s[0] !in {' ', '\t', '\n', '\r'}
  {
    if v.Array? then "[" + PrintItems(v.items) else PrintScalar(v)
  }

  function ReadValue(s: string): (r: Option<(Json, string)>)
    ensures r.Some? ==> |r.value.1| < |s|
  {
    if s == "" || s[0] != '[' then ReadScalar(s)
    else
      var next := SkipBlank(s[1..]);
      if next != "" && next[0] == ']' then Some((Array([]), next[1..]))
      else
        var (items, rest) :- ReadItems(next);
        Some((Array(items), rest))
  }

  lemma ArrayRoundTrip(items: seq<Json>, rest: string)
    requires Flat(Array(items))
    ensures ReadValue(PrintValue(Array(items)) + rest) == Some((Array(items), rest))
  {
    hide ReadScalar, PrintScalar, ReadItems;
    var printed := PrintItems(items);
    var s := PrintValue(Array(items)) + rest;
    assert PrintValue(Array(items)) == "[" + printed;
    assert s == "[" + (printed + rest) && s[0] == '[' && s[1..] == printed + rest;
    if items == [] {
      assert (printed + rest)[1..] == rest;
    } else {
      ItemsRoundTrip(items, rest);
      assert items[0] in items && (printed + rest)[0] == PrintScalar(items[0])[0];
    }
  }

  lemma ValueRoundTrip(v: Json, rest: string)
    requires Flat(v) && EndsNumber(rest)
    ensures ReadValue(PrintValue(v) + rest) == Some((v, rest))
  {
    hide ReadScalar, PrintScalar, ReadItems, PrintItems;
    if v.Array? {
      ArrayRoundTrip(v.items, rest);
    } else {
      ScalarRoundTrip(v, rest);
      assert (PrintValue(v) + rest)[0] == PrintScalar(v)[0];
    }
  }

  // ---------- objects ----------

  type Members = seq<(string, Json)>

  ghost predicate FlatMembers(members: Members) {
    forall m | m in members :: Flat(m.1)
  }

  function Member(name: string, value: Json, tail: string): (s: string)
    requires Flat(value)
    ensures s != "" && s[0] == '"'
  {
    "\"" + (Escaped(name) + ("\"" + (":" + (PrintValue(value) + tail))))
  }

  /** An object's members with the separators "," and ":". */
  function PrintMembers(members: Members): string
    requires FlatMembers(members)
  {
    if members == [] then "}"
    else
      assert members[0] in members;
      Member(members[0].0, members[0].1, if |members| == 1 then "}" else "," + PrintMembers(members[1..]))
  }

  function PrintObject(members: Members): string
    requires FlatMembers(members)
  {
    "{" + PrintMembers(members)
  }

  /** The members of an object that has some, up to its closing brace. */
  function ReadMembers(s: string): (r: Option<(Members, string)>)
    ensures r.Some? ==> |r.value.1| < |s|
    decreases |s|
  {
    if s == "" || s[0] != '"' then None
    else
      var (name, later) :- ReadText(s[1..]);
      var colon := SkipBlank(later);
      if colon == "" || colon[0] != ':' then None
      else
        var (value, afterValue) :- ReadValue(SkipBlank(colon[1..]));
        var next := SkipBlank(afterValue);
        if next == "" then None
        else if next[0] == '}' then Some(([(name, value)], next[1..]))
        else if next[0] != ',' then None
        else
          var (members, rest) :- ReadMembers(SkipBlank(next[1..]));
          Some(([(name, value)] + members, rest))
  }

  lemma OneMember(name: string, value: Json, tail: string)
    requires Flat(value) && EndsNumber(tail) && tail != "" && tail[0] !in {' ', '\t', '\n', '\r'}
    ensures ReadMembers(Member(name, value, tail)) ==
            if tail[0] == '}' then Some(([(name, value)], tail[1..]))
            else if tail[0] != ',' then None
            else
              var more := ReadMembers(SkipBlank(tail[1..]));
              if more.None? then None else Some(([(name, value)] + more.value.0, more.value.1))
  {
    hide PrintValue, ReadValue, ReadText;
    var afterColon := PrintValue(value) + tail;
    var s := "\"" + (Escaped(name) + ("\"" + (":" + afterColon)));
    TextRoundTrip(name, ":" + afterColon);
    assert s[1..] == Escaped(name) + ("\"" + (":" + afterColon));
    assert (":" + afterColon)[1..] == afterColon && afterColon[0] == PrintValue(value)[0];
    ValueRoundTrip(value, tail);
  }

  lemma MemberAppend(name: string, value: Json, tail: string, rest: string)
    requires Flat(value)
    ensures Member(name, value, tail) + rest == Member(name, value, tail + rest)
  {
    hide PrintValue, Escaped;
    var shown := PrintValue(value);
    assert (shown + tail) + rest == shown + (tail + rest);
    assert (":" + (shown + tail)) + rest == ":" + (shown + (tail + rest));
    Shift("\"", Escaped(name), "\"", ":" + (shown + tail), rest);
  }

  lemma Shift(a: string, b: string, c: string, d: string, rest: string)
    ensures (a + (b + (c + d))) + rest == a + (b + (c + (d + rest)))
  {
    assert (c + d) + rest == c + (d + rest);
    assert (b + (c + d)) + rest == b + (c + (d + rest));
  }

  lemma {:induction false} MembersRoundTrip(members: Members, rest: string)
    requires members != [] && FlatMembers(members)
    ensures ReadMembers(PrintMembers(members) + rest) == Some((members, rest))
  {
    hide PrintValue, ReadMembers, Escaped, Member;
    var (name, value) := members[0];
    assert members[0] in members;
    if |members| == 1 {
      OneMember(name, value, "}" + rest);
      MemberAppend(name, value, "}", rest);
      assert ("}" + rest)[1..] == rest && members == [(name, value)];
    } else {
      var printed := PrintMembers(members[1..]);
      OneMember(name, value, "," + (printed + rest));
      MembersRoundTrip(members[1..], rest);
      MemberAppend(name, value, "," + printed, rest);
      assert ("," + printed) + rest == "," + (printed + rest);
      assert ("," + (printed + rest))[1..] == printed + rest && (printed + rest)[0] == '"';
      assert members == [(name, value)] + members[1..];
    }
  }

  /** json.loads of an object, as the list of its members in order. */
  function ReadObject(s: string): Option<Members> {
    var start := SkipBlank(s);
    if start == "" || start[0] != '{' then None
    else
      var next := SkipBlank(start[1..]);
      var (members, rest) :- if next != "" && next[0] == '}' then Some(([], next[1..])) else ReadMembers(next);
      if SkipBlank(rest) == "" then Some(members) else None
  }

  /** What is written is read back, whatever the texts hold. */
  lemma ObjectRoundTrip(members: Members)
    requires FlatMembers(members)
    ensures ReadObject(PrintObject(members)) == Some(members)
  {
    hide ReadMembers, PrintValue, Escaped;
    var s := PrintObject(members);
    assert s[1..] == PrintMembers(members) == PrintMembers(members) + "";
    if members != [] {
      MembersRoundTrip(members, "");
      assert s[1] == '"';
    }
  }
}
