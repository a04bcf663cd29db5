/**
 Signal metadata: built by build_signal_meta and written into an event's summary by
 format_safe_summary_with_signal_meta in integrations/telegram/fasttrack_file_bridge.py, read back by dashboard_signal_history.py and, in the
 same words, by dashboard_api.py.
 */
module SignalMeta {
  import opened Wrappers
  import opened Decimals
  import opened JsonText
  import opened MessageText
  import opened SignalPrices

  const MARKER := "|signal_meta="

  datatype Key = SymbolKey | SideKey | EntryLowKey | EntryHighKey | StopLossKey | TakeProfitsKey

  function NameOf(k: Key): string {
    match k
    case SymbolKey => "symbol"
    case SideKey => "side"
    case EntryLowKey => "entry_low"
    case EntryHighKey => "entry_high"
    case StopLossKey => "stop_loss"
    case TakeProfitsKey => "take_profits"
  }

  /** The dictionary that build_signal_meta fills; a missing entry and None are one. */
  datatype Meta = Meta(
    symbol: Option<string>,
    side: Option<string>,
    entryLow: Option<int>,
    entryHigh: Option<int>,
    stopLoss: Option<int>,
    takeProfits: seq<string>)

  // ---------- building ----------

  const NO_META := Meta(None, None, None, None, None, [])

  function CanonicalSymbol(alias: string): Option<string> {
    if Lower(Strip(alias)) == "gold" then Some("XAUUSD") else None
  }

  function CanonicalSide(direction: string): Option<string> {
    if Lower(Strip(direction)) == "buy" then Some("BUY")
    else if Lower(Strip(direction)) == "sell" then Some("SELL")
    else None
  }

  function AmountOf(token: string): Option<int> {
    match PriceOf(token)
    case Amount(value) => Some(value)
    case _ => None
  }

  /** The last stop-loss line counts, also when its token is no price. */
  function StopLossIn(lines: seq<string>): Option<int> {
    if lines == [] then None
    else
      match ReadLine(lines[|lines| - 1])
      case StopLossLine(token) => AmountOf(token)
      case _ => StopLossIn(lines[..|lines| - 1])
  }

  function TakeProfitIn(line: string): seq<string> {
    match ReadLine(line)
    case TakeProfitLine(token) =>
      if IsOpen(token) then ["OPEN"] else if AmountOf(token).Some? then [Decimal(AmountOf(token).value)] else []
    case _ => []
  }

  function TakeProfitsIn(lines: seq<string>): seq<string> {
    if lines == [] then [] else TakeProfitsIn(lines[..|lines| - 1]) + TakeProfitIn(lines[|lines| - 1])
  }

  function RangeIn(line: string): (Option<int>, Option<int>) {
    match EntryRange(line)
    case None => (None, None)
    case Some((low, high)) => (AmountOf(low), AmountOf(high))
  }

  /** The metadata of a valid pair whose prices read. */
  function MetaOf(pair: ValidPair): Meta {
    var lines := NonBlankLines(pair.details);
    var symbol, side := CanonicalSymbol(pair.header.symbol), CanonicalSide(pair.header.direction);
    if lines == [] then NO_META.(symbol := symbol, side := side)
    else
      var (low, high) := RangeIn(lines[0]);
      Meta(symbol, side, low, high, StopLossIn(lines[1..]), TakeProfitsIn(lines[1..]))
  }

  /** None where the source raises: int() of an infinity or of nan. */
  method NormalizePriceNumber(token: string) returns (r: Option<Option<int>>)
    ensures r == if PriceOf(token) == Unreadable then None else Some(AmountOf(token))
  {
    match PriceOf(token)
    case Unreadable => return None;
    case NoPrice => return Some(None);
    case Amount(value) => return Some(Some(value));
  }

  method ReadEntryRange(line: string) returns (r: Option<(Option<int>, Option<int>)>)
    ensures r.None? <==> !RangeReads(line)
    ensures r.Some? ==> r.value == RangeIn(line)
  {
    hide PriceOf, EntryRange;
    var range := EntryRange(line);
    if range.None? {
      return Some((None, None));
    }
    var low := NormalizePriceNumber(range.value.0);
    if low.None? {
      return None;
    }
    var high := NormalizePriceNumber(range.value.1);
    r := if high.None? then None else Some((low.value, high.value));
  }

  /** The stop-loss and take-profit lines, up to the first price that raises. */
  method ReadPriceLines(lines: seq<string>) returns (r: Option<(Option<int>, seq<string>)>)
    ensures r.None? <==> !LinesRead(lines)
    ensures r.Some? ==> r.value == (StopLossIn(lines), TakeProfitsIn(lines))
  {
    hide PriceOf, ReadLine, IsOpen;
    var stopLoss: Option<int> := None;
    var takeProfits: seq<string> := [];
    for i := 0 to |lines|
      invariant LinesRead(lines[..i])
      invariant stopLoss == StopLossIn(lines[..i]) && takeProfits == TakeProfitsIn(lines[..i])
    {
      var line := lines[i];
      assert lines[..i + 1][..i] == lines[..i] && lines[..i + 1][i] == line;
      match ReadLine(line)
      case StopLossLine(token) =>
        var amount := NormalizePriceNumber(token);
        if amount.None? {
          return None;
        }
        stopLoss := amount.value;
      case TakeProfitLine(token) =>
        if IsOpen(token) {
          takeProfits := takeProfits + ["OPEN"];
        } else {
          var amount := NormalizePriceNumber(token);
          if amount.None? {
            return None;
          }
          if amount.value.Some? {
            takeProfits := takeProfits + [Decimal(amount.value.value)];
          }
        }
      case OtherLine =>
    }
    assert lines[..|lines|] == lines;
    r := Some((stopLoss, takeProfits));
  }

  /** None where the source raises: exactly when some price of a valid pair does not read. */
  method BuildSignalMeta(seedText: string, detailsText: string) returns (r: Option<Meta>)
    ensures var validated := ValidatePairPayload(seedText, detailsText);
            if validated.Failure? then r == Some(NO_META)
            else
              && (r.None? <==> !PricesRead(validated.value.details))
              && (r.Some? ==> r.value == MetaOf(validated.value))
  {
    hide ValidatePairPayload, RangeReads, LinesRead, RangeIn, StopLossIn, TakeProfitsIn, NonBlankLines, CanonicalSymbol, CanonicalSide;
    var validated := ValidatePairPayload(seedText, detailsText);
    if validated.Failure? {
      return Some(NO_META);
    }
    var pair := validated.value;
    var meta := NO_META.(symbol := CanonicalSymbol(pair.header.symbol), side := CanonicalSide(pair.header.direction));
    var lines := NonBlankLines(pair.details);
    if lines == [] {
      return Some(meta);
    }
    var range := ReadEntryRange(lines[0]);
    if range.None? {
      return None;
    }
    var rest := ReadPriceLines(lines[1..]);
    if rest.None? {
      return None;
    }
    r := Some(meta.(entryLow := range.value.0, entryHigh := range.value.1,
                    stopLoss := rest.value.0, takeProfits := rest.value.1));
  }

  lemma SeedHeader(s: string)
    requires MatchSeed(s).Some?
    ensures MatchSeed(s).value.direction in {"buy", "sell"}
  {
    hide MatchHead;
    var symbol, gap, direction, gap', rest := HeadReads(s);
  }

  lemma CanonicalNames()
    ensures CanonicalSymbol("gold") == Some("XAUUSD") && CanonicalSide("buy") == Some("BUY") && CanonicalSide("sell") == Some("SELL")
  {
    hide Strip;
    StripOfTrimmed("gold");
    StripOfTrimmed("buy");
    StripOfTrimmed("sell");
    assert Lower("gold") == "gold" && Lower("buy") == "buy" && Lower("sell") == "sell";
  }

  /** The metadata of a valid pair always has a symbol and a side. */
  lemma ValidPairIsComplete(seedText: string, detailsText: string)
    requires ValidatePairPayload(seedText, detailsText).Success?
    ensures var meta := MetaOf(ValidatePairPayload(seedText, detailsText).value);
            meta.symbol == Some("XAUUSD") && meta.side in {Some("BUY"), Some("SELL")}
  {
    hide MatchSeed, Strip, CanonicalSymbol, CanonicalSide, NonBlankLines, RangeIn, StopLossIn, TakeProfitsIn;
    SeedHeader(Strip(Strip(seedText)));
    CanonicalNames();
  }

  datatype Field = TextField(text: string) | NumberField(number: int) | TextsField(texts: seq<string>)

  type Fields = map<Key, Field>

  /** The allowed keys in the order in which a set happens to be walked, which differs between processes. */
  ghost predicate WalksKeys(order: seq<Key>) {
    (forall k: Key :: k in order) && forall i, j | 0 <= i < j < |order| :: order[i] != order[j]
  }

  // ---------- writing ----------

  function TextMember(k: Key, value: Option<string>): Members {
    if value.Some? then [(NameOf(k), Text(value.value))] else []
  }

  function NumberMember(k: Key, value: Option<int>): Members {
    [(NameOf(k), if value.Some? then Number(value.value) else Null)]
  }

  function TextItems(texts: seq<string>): seq<Json> {
    seq(|texts|, i requires 0 <= i < |texts| => Text(texts[i]))
  }

  /** What one key contributes: an absent text is dropped, an absent number is written as null. */
  function MemberFor(meta: Meta, k: Key): Members {
    match k
    case SymbolKey => TextMember(k, meta.symbol)
    case SideKey => TextMember(k, meta.side)
    case EntryLowKey => NumberMember(k, meta.entryLow)
    case EntryHighKey => NumberMember(k, meta.entryHigh)
    case StopLossKey => NumberMember(k, meta.stopLoss)
    case TakeProfitsKey => [(NameOf(k), Array(TextItems(meta.takeProfits)))]
  }

  function Finalized(meta: Meta, order: seq<Key>): (members: Members)
    ensures FlatMembers(members)
  {
    if order == [] then [] else Finalized(meta, order[..|order| - 1]) + MemberFor(meta, order[|order| - 1])
  }

  method FinalizeSignalMeta(meta: Meta, order: seq<Key>) returns (cleaned: Members)
    ensures cleaned == Finalized(meta, order)
  {
    cleaned := [];
    for i := 0 to |order|
      invariant cleaned == Finalized(meta, order[..i])
    {
      assert order[..i + 1][..i] == order[..i];
      cleaned := cleaned + MemberFor(meta, order[i]);
    }
    assert order[..|order|] == order;
  }

  function Format(base: string, meta: Meta, order: seq<Key>): string {
    if meta.symbol in {None, Some("")} || meta.side in {None, Some("")} then base
    else base + (MARKER + PrintObject(Finalized(meta, order)))
  }

  // ---------- reading ----------

  /** What follows the first marker. */
  function AfterMarker(s: string): Option<string> {
    if MARKER <= s then Some(s[|MARKER|..]) else if s == "" then None else AfterMarker(s[1..])
  }

  /** A dictionary keeps the last value given to a name. */
  function ValueOf(members: Members, name: string): Option<Json> {
    if members == [] then None
    else
      var last := members[|members| - 1];
      if last.0 == name then Some(last.1) else ValueOf(members[..|members| - 1], name)
  }

  /** str of a scalar; the text of an array is not part of this model. */
  function Shown(v: Json): Option<string> {
    match v
    case Null => Some("None")
    case Bool(flag) => Some(if flag then "True" else "False")
    case Number(n) => Some(Decimal(n))
    case Text(text) => Some(text)
    case Array(_) => None
  }

  /** int of a value, when it has one. */
  function IntOf(v: Json): Option<int> {
    match v
    case Number(n) => Some(n)
    case Bool(flag) => Some(if flag then 1 else 0)
    case Text(text) => ReadDecimal(Strip(text))
    case _ => None
  }

  function ShownItems(items: seq<Json>): seq<string> {
    seq(|items|, i requires 0 <= i < |items| => if Shown(items[i]).Some? then Shown(items[i]).value else "")
  }

  function FieldOf(k: Key, v: Json): Option<Field> {
    match k
    case TakeProfitsKey => if v.Array? then Some(TextsField(ShownItems(v.items))) else None
    case SymbolKey => if v == Null || Shown(v).None? then None else Some(TextField(Shown(v).value))
    case SideKey => if v == Null || Shown(v).None? then None else Some(TextField(Shown(v).value))
    case _ => if IntOf(v).None? then None else Some(NumberField(IntOf(v).value))
  }

  function FieldIn(members: Members, k: Key): Option<Field> {
    var v :- ValueOf(members, NameOf(k));
    FieldOf(k, v)
  }

  function FieldsOf(members: Members): Fields {
    map k: Key | FieldIn(members, k).Some? :: FieldIn(members, k).value
  }

  function Extract(summary: string): Option<Fields> {
    var payload :- AfterMarker(summary);
    var members :- ReadObject(Strip(payload));
    if FieldsOf(members) == map[] then None else Some(FieldsOf(members))
  }

  /** Either extractor, each with the order in which its own set of keys is walked. */
  method ExtractSignalMeta(summary: string, order: seq<Key>) returns (r: Option<Fields>)
    requires WalksKeys(order)
    ensures r == Extract(summary)
  {
    hide FieldIn, ReadObject, Strip, AfterMarker;
    var payload := AfterMarker(summary);
    if payload.None? {
      return None;
    }
    var parsed := ReadObject(Strip(payload.value));
    if parsed.None? {
      return None;
    }
    var cleaned: Fields := map[];
    for i := 0 to |order|
      invariant cleaned == map k | k in order[..i] && FieldIn(parsed.value, k).Some? :: FieldIn(parsed.value, k).value
    {
      var field := FieldIn(parsed.value, order[i]);
      if field.Some? {
        cleaned := cleaned[order[i] := field.value];
      }
    }
    assert order[..|order|] == order;
    assert cleaned == FieldsOf(parsed.value);
    return if cleaned == map[] then None else Some(cleaned);
  }

  // ---------- the round trip ----------

  lemma {:induction false} AfterInsertedMarker(base: string, payload: string)
    requires !Contains(base, MARKER)
    ensures AfterMarker(base + (MARKER + payload)) == Some(payload)
  {
    var s := base + (MARKER + payload);
    if base == "" {
      assert s == MARKER + payload;
      assert s[|MARKER|..] == payload;
    } else {
      assert s[1..] == base[1..] + (MARKER + payload);
      AfterInsertedMarker(base[1..], payload);
      MarkerBeginsInBase(base, payload);
    }
  }

  /** The marker cannot overlap itself: its bar stands only at its head. */
  lemma MarkerBeginsInBase(base: string, payload: string)
    requires base != ""
    ensures MARKER <= base + (MARKER + payload) <==> MARKER <= base
  {
    var s := base + (MARKER + payload);
    if |base| < |MARKER| {
      assert s[|base|] == '|' && MARKER[|base|] != '|';
    } else {
      assert s[..|MARKER|] == base[..|MARKER|];
    }
  }

  function Written(meta: Meta, k: Key): Option<Json> {
    if MemberFor(meta, k) == [] then None else Some(MemberFor(meta, k)[0].1)
  }

  lemma MemberForIsOne(meta: Meta, k: Key)
    ensures MemberFor(meta, k) == if Written(meta, k).None? then [] else [(NameOf(k), Written(meta, k).value)]
  {
    hide NameOf;
  }

  lemma ValueOfAppend(members: Members, name: string, v: Json, wanted: string)
    ensures ValueOf(members + [(name, v)], wanted) == if name == wanted then Some(v) else ValueOf(members, wanted)
  {
    assert (members + [(name, v)])[..|members + [(name, v)]| - 1] == members;
  }

  lemma {:induction false} FinalizedHolds(meta: Meta, order: seq<Key>, k: Key)
    ensures ValueOf(Finalized(meta, order), NameOf(k)) == if k in order then Written(meta, k) else None
  {
    hide NameOf, MemberFor, Written, ValueOf;
    if order == [] {
      NothingWritten(NameOf(k));
    } else {
      var front, last := order[..|order| - 1], order[|order| - 1];
      FinalizedHolds(meta, front, k);
      assert order == front + [last];
      MemberForIsOne(meta, last);
      NamesDiffer(k, last);
      if Written(meta, last).Some? {
        ValueOfAppend(Finalized(meta, front), NameOf(last), Written(meta, last).value, NameOf(k));
      } else {
        assert Finalized(meta, front) + [] == Finalized(meta, front);
      }
    }
  }

  lemma NothingWritten(name: string)
    ensures ValueOf([], name) == None
  {
  }

  lemma NamesDiffer(k: Key, other: Key)
    ensures NameOf(k) == NameOf(other) <==> k == other
  {
  }

  /** The fields of the metadata that are not null. */
  function Given(meta: Meta, k: Key): Option<Field> {
    match k
    case SymbolKey => if meta.symbol.Some? then Some(TextField(meta.symbol.value)) else None
    case SideKey => if meta.side.Some? then Some(TextField(meta.side.value)) else None
    case EntryLowKey => if meta.entryLow.Some? then Some(NumberField(meta.entryLow.value)) else None
    case EntryHighKey => if meta.entryHigh.Some? then Some(NumberField(meta.entryHigh.value)) else None
    case StopLossKey => if meta.stopLoss.Some? then Some(NumberField(meta.stopLoss.value)) else None
    case TakeProfitsKey => Some(TextsField(meta.takeProfits))
  }

  function NonNull(meta: Meta): Fields {
    map k: Key | Given(meta, k).Some? :: Given(meta, k).value
  }

  lemma WrittenIsGiven(meta: Meta, k: Key)
    ensures (if Written(meta, k).None? then None else FieldOf(k, Written(meta, k).value)) == Given(meta, k)
  {
    assert ShownItems(TextItems(meta.takeProfits)) == meta.takeProfits;
  }

  lemma ObjectIsTrimmed(members: Members)
    requires FlatMembers(members)
    ensures Trimmed(PrintObject(members))
  {
    MembersEndInBrace(members);
  }

  lemma {:induction false} MembersEndInBrace(members: Members)
    requires FlatMembers(members)
    ensures PrintMembers(members) != "" && PrintMembers(members)[|PrintMembers(members)| - 1] == '}'
  {
    hide PrintValue, Escaped;
    if |members| > 1 {
      MembersEndInBrace(members[1..]);
    }
  }

  /**
   For every base summary without the marker and every metadata with a symbol and a side, reading the
   formatted summary gives exactly the fields that are not null, whatever the texts hold and in
   whatever order the writer and the reader walk their keys.
   */
  lemma SummaryRoundTrip(base: string, meta: Meta, order: seq<Key>)
    requires !Contains(base, MARKER) && WalksKeys(order)
    requires meta.symbol.Some? && meta.symbol.value != "" && meta.side.Some? && meta.side.value != ""
    ensures Extract(Format(base, meta, order)) == Some(NonNull(meta))
  {
    hide AfterMarker, Contains, ReadObject, PrintObject, Strip, FieldOf, Written, Finalized;
    var members := Finalized(meta, order);
    AfterInsertedMarker(base, PrintObject(members));
    ObjectIsTrimmed(members);
    StripOfTrimmed(PrintObject(members));
    ObjectRoundTrip(members);
    forall k: Key ensures FieldIn(members, k) == Given(meta, k) {
      FinalizedHolds(meta, order, k);
      WrittenIsGiven(meta, k);
    }
    assert FieldsOf(members) == NonNull(meta);
    assert SymbolKey in NonNull(meta);
  }

  lemma {:induction false} NoMarkerNoMeta(s: string)
    ensures AfterMarker(s).Some? <==> Contains(s, MARKER)
  {
    if s != "" {
      NoMarkerNoMeta(s[1..]);
    }
  }

  /** Metadata shows in a summary exactly when it has a symbol and a side. */
  lemma MetaShowsIffComplete(base: string, meta: Meta, order: seq<Key>)
    requires !Contains(base, MARKER) && WalksKeys(order)
    ensures Extract(Format(base, meta, order)).Some? <==>
              meta.symbol.Some? && meta.symbol.value != "" && meta.side.Some? && meta.side.value != ""
  {
    if meta.symbol in {None, Some("")} || meta.side in {None, Some("")} {
      NoMarkerNoMeta(base);
    } else {
      SummaryRoundTrip(base, meta, order);
    }
  }

  /**
   The summary of a published pair shows its symbol, its side and every price that was read, whatever
   the details say.
   */
  lemma PublishedMetaShows(base: string, seedText: string, detailsText: string, order: seq<Key>)
    requires !Contains(base, MARKER) && WalksKeys(order) && ValidatePairPayload(seedText, detailsText).Success?
    ensures var meta := MetaOf(ValidatePairPayload(seedText, detailsText).value);
            Extract(Format(base, meta, order)) == Some(NonNull(meta)) && SymbolKey in NonNull(meta) && SideKey in NonNull(meta)
  {
    hide MetaOf, ValidatePairPayload, Extract, Format, Contains, WalksKeys;
    ValidPairIsComplete(seedText, detailsText);
    SummaryRoundTrip(base, MetaOf(ValidatePairPayload(seedText, detailsText).value), order);
  }

  /**
   What is made of values that the writer does not write: a number as text or a truth value counts as
   a number, a number or truth value as text is shown, and null, other texts and wrong kinds are dropped.
   */
  lemma LooseValues(k: Key, n: int, flag: bool, text: string)
    requires k in {EntryLowKey, EntryHighKey, StopLossKey}
    ensures FieldOf(k, Text(Decimal(n))) == Some(NumberField(n)) && FieldOf(k, Bool(flag)) == Some(NumberField(if flag then 1 else 0))
    ensures FieldOf(k, Null) == None && FieldOf(k, Array([])) == None && (text != "" && AllLetters(text) ==> FieldOf(k, Text(text)) == None)
    ensures forall name | name in {SymbolKey, SideKey} ::
              && FieldOf(name, Number(n)) == Some(TextField(Decimal(n))) && FieldOf(name, Text(text)) == Some(TextField(text))
              && FieldOf(name, Bool(flag)) == Some(TextField(if flag then "True" else "False")) && FieldOf(name, Null) == None
    ensures FieldOf(TakeProfitsKey, Array([Number(n), Bool(flag), Null, Text(text)]))
            == Some(TextsField([Decimal(n), if flag then "True" else "False", "None", text]))
    ensures FieldOf(TakeProfitsKey, Text(text)) == None
  {
    hide Strip, Decimal, ReadDecimal;
    DecimalRoundTrip(n);
    DecimalIsTrimmed(n);
    StripOfTrimmed(Decimal(n));
    assert ShownItems([Number(n), Bool(flag), Null, Text(text)]) == [Decimal(n), if flag then "True" else "False", "None", text];
    if text != "" && AllLetters(text) {
      LettersAreNoNumber(text);
    }
  }

  predicate AllLetters(text: string) { forall i | 0 <= i < |text| :: 'a' <= text[i] <= 'z' }

  lemma DecimalIsTrimmed(n: int)
    ensures Trimmed(Decimal(n))
  {
    hide Digits;
    var s := Decimal(n);
    if n < 0 {
      assert s[|s| - 1] == s[1..][|s| - 2];
    }
  }

  lemma LettersAreNoNumber(text: string)
    requires text != "" && AllLetters(text)
    ensures ReadDecimal(Strip(text)) == None
  {
    hide Strip;
    StripOfTrimmed(text);
    assert !IsDigit(text[0]);
  }

  // ---------- the very text ----------

  lemma {:induction false} PlainEscapes(s: string)
    requires forall i | 0 <= i < |s| :: s[i] in {'_', ' '} || 'a' <= s[i] <= 'z' || 'A' <= s[i] <= 'Z' || IsDigit(s[i])
    ensures Escaped(s) == s
  {
    if s != "" {
      PlainEscapes(s[1..]);
    }
  }

  lemma NamesAreText()
    ensures Escaped("symbol") == "symbol" && Escaped("side") == "side" && Escaped("entry_low") == "entry_low"
    ensures Escaped("entry_high") == "entry_high" && Escaped("stop_loss") == "stop_loss" && Escaped("take_profits") == "take_profits"
    ensures Escaped("XAUUSD") == "XAUUSD" && Escaped("BUY") == "BUY"
  {
    hide Escaped;
    PlainEscapes("symbol");
    PlainEscapes("side");
    PlainEscapes("entry_low");
    PlainEscapes("entry_high");
    PlainEscapes("stop_loss");
    PlainEscapes("take_profits");
    PlainEscapes("XAUUSD");
    PlainEscapes("BUY");
  }

  /** One member as it stands in the text, and what follows it. */
  function Entry(name: string, value: string, tail: string): string {
    "\"" + (name + ("\":" + (value + tail)))
  }

  lemma MemberText(name: string, value: Json, tail: string)
    requires Flat(value) && Escaped(name) == name
    ensures Member(name, value, tail) == Entry(name, PrintValue(value), tail)
  {
    hide Escaped, PrintValue;
    assert "\"" + (":" + (PrintValue(value) + tail)) == "\":" + (PrintValue(value) + tail);
  }

  lemma FinalizedMore(meta: Meta, order: seq<Key>, k: Key)
    ensures Finalized(meta, order + [k]) == Finalized(meta, order) + MemberFor(meta, k)
  {
    hide MemberFor;
    assert (order + [k])[..|order + [k]| - 1] == order;
  }

  lemma PrintedMore(name: string, value: Json, members: Members)
    requires Flat(value) && FlatMembers(members) && members != [] && Escaped(name) == name
    ensures FlatMembers([(name, value)] + members)
    ensures PrintMembers([(name, value)] + members) == Entry(name, PrintValue(value), "," + PrintMembers(members))
  {
    hide Escaped, PrintValue, Member, Entry;
    var all := [(name, value)] + members;
    assert all[1..] == members;
    MemberText(name, value, "," + PrintMembers(members));
  }

  lemma PrintedLast(name: string, value: Json)
    requires Flat(value) && Escaped(name) == name
    ensures FlatMembers([(name, value)]) && PrintMembers([(name, value)]) == Entry(name, PrintValue(value), "}")
  {
    hide Escaped, PrintValue, Member, Entry;
    MemberText(name, value, "}");
  }

  const DECLARED_ORDER := [SymbolKey, SideKey, EntryLowKey, EntryHighKey, StopLossKey, TakeProfitsKey]

  lemma DeclaredMembers(low: int, high: int)
    ensures Finalized(Meta(Some("XAUUSD"), Some("BUY"), Some(low), Some(high), None, ["OPEN"]), DECLARED_ORDER) ==
            [("symbol", Text("XAUUSD"))] + ([("side", Text("BUY"))] + ([("entry_low", Number(low))] + ([("entry_high", Number(high))]
            + ([("stop_loss", Null)] + [("take_profits", Array([Text("OPEN")]))]))))
  {
    hide Finalized;
    var meta := Meta(Some("XAUUSD"), Some("BUY"), Some(low), Some(high), None, ["OPEN"]);
    FinalizedMore(meta, [], SymbolKey);
    FinalizedMore(meta, [SymbolKey], SideKey);
    FinalizedMore(meta, [SymbolKey, SideKey], EntryLowKey);
    FinalizedMore(meta, [SymbolKey, SideKey, EntryLowKey], EntryHighKey);
    FinalizedMore(meta, [SymbolKey, SideKey, EntryLowKey, EntryHighKey], StopLossKey);
    FinalizedMore(meta, [SymbolKey, SideKey, EntryLowKey, EntryHighKey, StopLossKey], TakeProfitsKey);
    NothingFinalized(meta);
    assert [] + [SymbolKey] == [SymbolKey] && [SymbolKey] + [SideKey] == [SymbolKey, SideKey];
    assert [SymbolKey, SideKey] + [EntryLowKey] == [SymbolKey, SideKey, EntryLowKey];
    assert [SymbolKey, SideKey, EntryLowKey] + [EntryHighKey] == [SymbolKey, SideKey, EntryLowKey, EntryHighKey];
    assert [SymbolKey, SideKey, EntryLowKey, EntryHighKey] + [StopLossKey] == [SymbolKey, SideKey, EntryLowKey, EntryHighKey, StopLossKey];
    assert [SymbolKey, SideKey, EntryLowKey, EntryHighKey, StopLossKey] + [TakeProfitsKey] == DECLARED_ORDER;
    assert TextItems(["OPEN"]) == [Text("OPEN")];
  }

  lemma NothingFinalized(meta: Meta)
    ensures Finalized(meta, []) == []
  {
  }

  /** The text behind a summary, character by character, when the keys are walked as they are declared. */
  lemma SummaryText(base: string, low: int, high: int)
    ensures Format(base, Meta(Some("XAUUSD"), Some("BUY"), Some(low), Some(high), None, ["OPEN"]), DECLARED_ORDER) ==
            base + ("|signal_meta=" + ("{" + Entry("symbol", "\"XAUUSD\"", "," + Entry("side", "\"BUY\"",
              "," + Entry("entry_low", Decimal(low), "," + Entry("entry_high", Decimal(high),
                "," + Entry("stop_loss", "null", "," + Entry("take_profits", "[\"OPEN\"]", "}"))))))))
  {
    hide Finalized, Escaped, Entry, PrintMembers, PrintValue, Decimal, DECLARED_ORDER;
    DeclaredMembers(low, high);
    NamesAreText();
    ValuesAreText(low);
    ValuesAreText(high);
    PrintedLast("take_profits", Array([Text("OPEN")]));
    var m5 := [("take_profits", Array([Text("OPEN")]))];
    PrintedMore("stop_loss", Null, m5);
    var m4 := [("stop_loss", Null)] + m5;
    PrintedMore("entry_high", Number(high), m4);
    var m3 := [("entry_high", Number(high))] + m4;
    PrintedMore("entry_low", Number(low), m3);
    var m2 := [("entry_low", Number(low))] + m3;
    PrintedMore("side", Text("BUY"), m2);
    PrintedMore("symbol", Text("XAUUSD"), [("side", Text("BUY"))] + m2);
  }

  lemma ValuesAreText(n: int)
    ensures PrintValue(Number(n)) == Decimal(n) && PrintValue(Null) == "null"
    ensures PrintValue(Text("XAUUSD")) == "\"XAUUSD\"" && PrintValue(Text("BUY")) == "\"BUY\""
    ensures Flat(Array([Text("OPEN")])) && PrintValue(Array([Text("OPEN")])) == "[\"OPEN\"]"
  {
    hide Escaped, Decimal;
    NamesAreText();
    PlainEscapes("OPEN");
    assert PrintItems([Text("OPEN")]) == PrintScalar(Text("OPEN")) + "]";
  }
}
