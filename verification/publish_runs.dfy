/**
 What the outcome table of publish_pair means: when a call is all or nothing, what fingerprints
 identify, and what any sequence of calls on one publisher leaves behind.
 */
module PublishRuns {
  import opened Wrappers
  import opened Sequences
  import opened MessageText
  import opened SignalPrices
  import opened AtomicPublish

  // ---------- one call ----------

  lemma SamePair(d: Directory, names: Names, p: Pair, q: Pair)
    requires names.seed != names.details
    ensures Visible(WithPair(d, names, p), names) == p
    ensures WithPair(d, names, Visible(d, names)) == d
    ensures WithPair(WithPair(d, names, p), names, q) == WithPair(d, names, q)
  {
    LookupPair(d, names, p);
    LookupPair(d, names, Visible(d, names));
    LookupPair(d, names, q);
    LookupPair(WithPair(d, names, p), names, q);
    hide WithPair;
    SameFiles(WithPair(d, names, Visible(d, names)), d);
    SameFiles(WithPair(WithPair(d, names, p), names, q), WithPair(d, names, q));
  }

  /** When the table shows neither the old pair nor the new one. */
  predicate Tears(before: Pair, wanted: Pair, fault: Fault) {
    fault.At? &&
    match fault.step
    case HoldSeed => before != Pair(None, None)
    case HoldDetails => before.details.Some?
    case UnlinkSeedHold =>
      before.seed.Some? && before.details.Some? && before.seed != wanted.seed && before.details != wanted.details
    case UnlinkDetailsHold =>
      before.details.Some? && before.seed != wanted.seed && before.details != wanted.details
    case _ => false
  }

  /**
   With distinct names a call leaves either the directory it found or that directory with the new
   pair, hold and staging names included, exactly when its fault is not one of the tearing ones.
   */
  lemma AllOrNothing(d: Directory, c: Call, fault: Fault)
    requires c.names.seed != c.names.details
    ensures DirectoryAfter(d, c, fault) in {d, WithPair(d, c.names, c.Wanted())}
            <==> !Tears(Visible(d, c.names), c.Wanted(), fault)
    ensures Restores(fault) ==> DirectoryAfter(d, c, fault) == d
  {
    var before := Visible(d, c.names);
    var shown := VisibleAfter(before, c.Wanted(), fault);
    SamePair(d, c.names, shown, shown);
    SamePair(d, c.names, c.Wanted(), before);
  }

  /** Corollary of the table: the new seed stands beside the old details exactly when a hold is left to unlink and that faults. */
  lemma NewSeedOldDetails(before: Pair, wanted: Pair, fault: Fault)
    requires wanted.seed.Some? && wanted.details.Some?
    requires before.seed != wanted.seed && before.details != wanted.details && before.details.Some?
    ensures VisibleAfter(before, wanted, fault) == Pair(wanted.seed, before.details)
            <==> fault.At? && (fault.step == UnlinkDetailsHold || (fault.step == UnlinkSeedHold && before.seed.Some?))
  {
  }

  /** Corollary of the table: with one name for both files the seed text alone is ever published, and early faults delete the old file. */
  lemma EqualNames(d: Directory, c: Call, fault: Fault)
    requires c.names.seed == c.names.details
    ensures var after := DirectoryAfter(d, c, fault);
            && Lookup(after, c.names.seed) == (if fault.At? && Index(fault.step) < 6 then None else Some(c.seed))
            && forall name | name != c.names.seed :: Lookup(after, name) == Lookup(d, name)
  {
  }

  // ---------- prices that do not read ----------

  /** A call on a valid request with no other fault raises exactly when some price of its details does not read. */
  lemma RaisesForPrices(s: PublisherState, q: Request, fault: Fault)
    requires Validate(q).Success?
    ensures Publish(s, q, fault) == (s, Failure(PriceUnreadable)) <==> !PricesRead(Validate(q).value.1.details)
    ensures Publish(s, q, NoFault).1.Failure? <==> !PricesRead(Validate(q).value.1.details)
  {
    hide Validate, PricesRead, PairFingerprint, DirectoryAfter;
  }

  /** A stop-loss or take-profit line whose token reads as an infinity or as nan. */
  ghost predicate SpoilingLine(line: string, token: string) {
    (line == "SL: " + token || line == "TP: " + token) && token != "" && Trimmed(token) && IsAscii(token) && '\n' !in token && '\r' !in token
    && PriceOf(token) == Unreadable
  }

  lemma SpoilingLineIsPlain(line: string, token: string)
    requires SpoilingLine(line, token)
    ensures Trimmed(line) && line != "" && IsAscii(line) && '\n' !in line && '\r' !in line
  {
    hide PriceOf, Strip;
    assert line[|line| - 1] == token[|token| - 1];
    AsciiAppend("SL: ", token);
    AsciiAppend("TP: ", token);
  }

  lemma SpoilingLineReads(line: string, token: string)
    requires SpoilingLine(line, token)
    ensures !LineReads(line)
  {
    hide Strip, PriceOf, IsAscii, IsOpen;
    assert line[3..] == " " + token && (line[..3] == "SL:" || line[..3] == "TP:");
    assert Lower("SL:") == "sl:" && Lower("TP:") == "tp:";
    StripUnique(" ", token, "");
    assert " " + token + "" == line[3..];
    if IsOpen(token) {
      OpenIsNoPrice(token);
    }
  }

  lemma OpenIsNoPrice(token: string)
    requires IsOpen(token)
    ensures PriceOf(token) == NoPrice
  {
    hide PriceOf;
    assert forall i | 0 <= i < |token| :: Lower(token)[i] == LowerChar(token[i]);
    LettersAreNoPrice(token);
  }

  /** Plain details with such a line are classified as details and pass every validation. */
  lemma SpoiltDetailsPass(text: string, first: string, symbol: string, direction: string, rest: string, line: string, token: string)
    requires IsPlainDetailsLine(first, symbol, direction, rest) && SpoilingLine(line, token)
    requires text == first + ("\n" + line)
    ensures Classify(text) == DetailsMessage && ValidateDetailsText(text) == Success(text) && !PricesRead(text)
  {
    hide Strip, NormalizeLineEndings, NonBlankLines, LineReads, HasRangeHint, MatchHead, MentionsStopLoss, PriceOf;
    PlainLineIsPlain(first, symbol, direction, rest);
    SpoilingLineIsPlain(line, token);
    SpoilingLineReads(line, token);
    SingleLine(first);
    OneMoreLine(first, line);
    SpoiltByOneLine(first, line);
    AsciiAppend("\n", line);
    AsciiAppend(first, "\n" + line);
    assert '\r' !in text;
    NormalizeNoReturns(text);
    assert text[0] == first[0] && text[|text| - 1] == line[|line| - 1];
    StripOfTrimmed(text);
    PlainLineHeader(first, symbol, direction, rest);
    PlainLineHint(first, symbol, direction, rest);
    PriceHint(rest);
    HeaderOfPlainLine(first, symbol, direction, rest);
  }

  lemma HeaderOfPlainLine(first: string, symbol: string, direction: string, rest: string)
    requires IsPlainDetailsLine(first, symbol, direction, rest)
    ensures MatchDetailsHeader(first).Some?
  {
    hide MatchHead, HasRangeHint;
    PlainLineHeader(first, symbol, direction, rest);
    PriceHint(rest);
  }

  /** Such details, as "gold buy now 1" above "SL: inf", are never published, by any call with any seed. */
  lemma SpoiltDetailsNeverPublish(s: PublisherState, q: Request, fault: Fault, first: string, symbol: string,
                                  direction: string, rest: string, line: string, token: string)
    requires IsPlainDetailsLine(first, symbol, direction, rest) && SpoilingLine(line, token)
    requires q.detailsText == first + ("\n" + line) && Validate(q).Success?
    ensures Publish(s, q, fault) == (s, Failure(PriceUnreadable))
  {
    hide Strip, NormalizeLineEndings, MatchHead, PricesRead, Publish, ValidateBasename, MatchSeed;
    SpoiltDetailsPass(q.detailsText, first, symbol, direction, rest, line, token);
    RaisesForPrices(s, q, fault);
  }

  /** Every way of writing an infinity or nan makes such a line, and so does a short number like 1e999. */
  lemma SomeSpoilingLines(token: string)
    requires Lower(token) == "inf" || Lower(token) == "infinity" || Lower(token) == "nan" || token == "1e999"
    ensures SpoilingLine("SL: " + token, token) && SpoilingLine("TP: " + token, token)
  {
    hide PriceOf, Lower;
    if token == "1e999" {
      ExponentUnreadable();
    } else {
      WordUnreadable(token);
      LettersArePlain(token);
    }
  }

  lemma LettersArePlain(token: string)
    requires Lower(token) == "inf" || Lower(token) == "infinity" || Lower(token) == "nan"
    ensures token != "" && Trimmed(token) && IsAscii(token) && '\n' !in token && '\r' !in token
  {
    var lowered := Lower(token);
    assert forall i | 0 <= i < |lowered| :: 'a' <= lowered[i] <= 'z';
    forall i | 0 <= i < |token| ensures !IsSpace(token[i]) && token[i] < '\U{80}' {
      assert lowered[i] == LowerChar(token[i]);
    }
  }

  // ---------- fingerprints ----------

  lemma LowerKeeps(s: string, t: string, c: char)
    requires Lower(s) == t && c !in t && !('A' <= c <= 'Z')
    ensures c !in s
  {
    forall i | 0 <= i < |s| ensures s[i] != c {
      assert Lower(s)[i] == t[i];
    }
  }

  /** A validated seed holds no hyphen, so the separator's first hyphen is the payload's first. */
  lemma SeedHasNoHyphen(seedText: string, detailsText: string)
    requires ValidatePairPayload(seedText, detailsText).Success?
    ensures '-' !in ValidatePairPayload(seedText, detailsText).value.seed
  {
    hide MatchHead, StripLeft, StripRight;
    HeaderOfSeed(seedText, detailsText);
    var _, _ := StripSplits(seedText);
    StripIdempotent(seedText);
    SeedTextHasNoHyphen(ValidatePairPayload(seedText, detailsText).value.seed);
  }

  lemma SeedTextHasNoHyphen(seed: string)
    requires Trimmed(seed) && MatchSeed(seed).Some? && MatchSeed(seed).value.symbol in SUPPORTED_SYMBOLS
    ensures '-' !in seed
  {
    hide MatchHead, MatchSeed;
    var symbol, gap, direction, gap', now := SeedMatchReads(seed);
    SeedReadingMatches(seed, symbol, gap, direction, gap', now);
    assert '-' !in "gold" && '-' !in "buy" && '-' !in "sell" && '-' !in "now";
    LowerKeeps(symbol, "gold", '-');
    LowerKeeps(direction, Lower(direction), '-');
    LowerKeeps(now, "now", '-');
    assert '-' !in gap && '-' !in gap';
  }

  function HyphenSpan(s: string): (n: nat)
    ensures n <= |s|
  {
    if s == "" || s[0] == '-' then 0 else 1 + HyphenSpan(s[1..])
  }

  lemma {:induction false} HyphenSpanOf(a: string, rest: string)
    requires '-' !in a && rest != "" && rest[0] == '-'
    ensures HyphenSpan(a + rest) == |a|
  {
    if a == "" {
      assert a + rest == rest;
    } else {
      assert (a + rest)[1..] == a[1..] + rest;
      HyphenSpanOf(a[1..], rest);
    }
  }

  lemma PayloadSpan(seed: string, details: string)
    requires '-' !in seed
    ensures HyphenSpan(seed + PAIR_SEPARATOR + details) == |seed| + 1
  {
    var rest := "---\n" + details;
    HyphenSpanOf(seed + "\n", rest);
    assert seed + PAIR_SEPARATOR + details == seed + "\n" + rest;
  }

  /** The payload of a pair determines both texts, so equal digests mean equal pairs. */
  lemma PayloadInjective(a: string, x: string, b: string, y: string)
    requires '-' !in a && '-' !in b
    requires a + PAIR_SEPARATOR + x == b + PAIR_SEPARATOR + y
    ensures a == b && x == y
  {
    var p := a + PAIR_SEPARATOR + x;
    PayloadSpan(a, x);
    PayloadSpan(b, y);
    assert a == p[..|a|] == p[..|b|] == b;
    assert x == p[|a| + 5..] == p[|b| + 5..] == y;
  }

  lemma FingerprintsIdentifyPairs(seed: string, details: string, seed': string, details': string)
    requires ValidatePairPayload(seed, details).Success? && ValidatePairPayload(seed', details').Success?
    ensures var p, p' := ValidatePairPayload(seed, details).value, ValidatePairPayload(seed', details').value;
            PairFingerprint(p) == PairFingerprint(p') <==> p == p'
  {
    hide MatchHead;
    var p, p' := ValidatePairPayload(seed, details).value, ValidatePairPayload(seed', details').value;
    SeedHasNoHyphen(seed, details);
    SeedHasNoHyphen(seed', details');
    if PairFingerprint(p) == PairFingerprint(p') {
      PayloadInjective(p.seed, p.details, p'.seed, p'.details);
      HeaderOfSeed(seed, details);
      HeaderOfSeed(seed', details');
    }
  }

  lemma HeaderOfSeed(seedText: string, detailsText: string)
    requires ValidatePairPayload(seedText, detailsText).Success?
    ensures var p := ValidatePairPayload(seedText, detailsText).value;
            MatchSeed(p.seed) == Some(p.header)
  {
    hide MatchHead, StripLeft, StripRight, NormalizeLineEndings;
  }

  // ---------- runs ----------

  datatype Attempted = Attempted(request: Request, fault: Fault)

  /** Any sequence of calls on one publisher. */
  function Run(s: PublisherState, calls: seq<Attempted>): PublisherState {
    if calls == [] then s
    else
      var last := calls[|calls| - 1];
      Publish(Run(s, calls[..|calls| - 1]), last.request, last.fault).0
  }

  function Shown(pair: ValidPair): Pair {
    Pair(Some(pair.seed), Some(pair.details))
  }

  /** The pairs that a call published while they were new, oldest first; it looks at no file and no digest. */
  function Landed(calls: seq<Attempted>): seq<ValidPair> {
    if calls == [] then []
    else
      var earlier, last := Landed(calls[..|calls| - 1]), calls[|calls| - 1];
      match Validate(last.request)
      case Failure(_) => earlier
      case Success((_, pair)) => if last.fault == NoFault && PricesRead(pair.details) && pair !in earlier then earlier + [pair] else earlier
  }

  /** Real calls under one pair of names whose faults, if any, fall in the restoring window. */
  ghost predicate Steady(calls: seq<Attempted>, names: Names) {
    forall call | call in calls ::
      && !call.request.dryRun
      && (call.fault == NoFault || Restores(call.fault))
      && (Validate(call.request).Success? ==> Validate(call.request).value.0 == names)
  }

  ghost predicate Checked(pair: ValidPair) {
    '-' !in pair.seed && MatchSeed(pair.seed) == Some(pair.header)
  }

  lemma ValidatedIsChecked(q: Request)
    requires Validate(q).Success?
    ensures Checked(Validate(q).value.1)
  {
    hide ValidateBasename, ValidatePairPayload, MatchSeed;
    SeedHasNoHyphen(q.seedText, q.detailsText);
    HeaderOfSeed(q.seedText, q.detailsText);
  }

  lemma CheckedInjective(p: ValidPair, q: ValidPair)
    requires Checked(p) && Checked(q) && PairFingerprint(p) == PairFingerprint(q)
    ensures p == q
  {
    hide MatchSeed;
    PayloadInjective(p.seed, p.details, q.seed, q.details);
  }

  function Digests(pairs: seq<ValidPair>): set<Digest> {
    set pair | pair in pairs :: PairFingerprint(pair)
  }

  function Showing(d: Directory, names: Names, pairs: seq<ValidPair>): Directory {
    if pairs == [] then d else WithPair(d, names, Shown(pairs[|pairs| - 1]))
  }

  lemma FreshDigest(pairs: seq<ValidPair>, pair: ValidPair)
    requires Checked(pair) && forall p | p in pairs :: Checked(p)
    ensures PairFingerprint(pair) in Digests(pairs) <==> pair in pairs
  {
    hide Checked, PairFingerprint;
    if PairFingerprint(pair) in Digests(pairs) {
      var p :| p in pairs && PairFingerprint(p) == PairFingerprint(pair);
      CheckedInjective(p, pair);
    }
  }

  /** One more steady call, on top of a run that showed the given pairs. */
  lemma SteadyStep(d: Directory, names: Names, pairs: seq<ValidPair>, call: Attempted)
    requires names.seed != names.details && Steady([call], names)
    requires forall p | p in pairs :: Checked(p)
    ensures var s := PublisherState(Showing(d, names, pairs), Digests(pairs));
            var s' := Publish(s, call.request, call.fault).0;
            if Validate(call.request).Success? && call.fault == NoFault && Validate(call.request).value.1 !in pairs
               && PricesRead(Validate(call.request).value.1.details)
            then var pairs' := pairs + [Validate(call.request).value.1];
                 s' == PublisherState(Showing(d, names, pairs'), Digests(pairs'))
            else s' == s
  {
    hide PairFingerprint, Checked, Validate, WithPair, PricesRead;
    assert call in [call];
    var s := PublisherState(Showing(d, names, pairs), Digests(pairs));
    if Validate(call.request).Success? {
      var pair := Validate(call.request).value.1;
      ValidatedIsChecked(call.request);
      FreshDigest(pairs, pair);
      var c := CallFor(names, pair, call.request);
      AllOrNothing(s.directory, c, call.fault);
      var shown := if pairs == [] then Visible(d, names) else Shown(pairs[|pairs| - 1]);
      SamePair(d, names, shown, Shown(pair));
      var pairs' := pairs + [pair];
      assert Digests(pairs') == Digests(pairs) + {PairFingerprint(pair)};
      assert Digests(pairs) + {PairFingerprint(pair)} == if pair in pairs then Digests(pairs) else Digests(pairs');
    }
  }

  /**
   Over any steady run from no recorded fingerprint, the directory shows the last pair that was new
   when published and is otherwise untouched, and the fingerprints are exactly those of the
   published pairs. Nothing else is left behind, so a failed call can be made again.
   */
  lemma {:induction false} RunShowsLastLanded(s: PublisherState, names: Names, calls: seq<Attempted>)
    requires names.seed != names.details && s.fingerprints == {} && Steady(calls, names)
    ensures var pairs := Landed(calls);
            && Run(s, calls) == PublisherState(Showing(s.directory, names, pairs), Digests(pairs))
            && Distinct(pairs)
            && forall p | p in pairs :: Checked(p)
  {
    hide Checked, Validate, Publish, Showing, PricesRead;
    if calls == [] {
      ShowingNothing(s.directory, names);
    } else {
      var front, last := calls[..|calls| - 1], calls[|calls| - 1];
      assert last in calls;
      RunShowsLastLanded(s, names, front);
      SteadyStep(s.directory, names, Landed(front), last);
      if Validate(last.request).Success? {
        ValidatedIsChecked(last.request);
      }
    }
  }

  lemma ShowingNothing(d: Directory, names: Names)
    ensures Showing(d, names, []) == d && Digests([]) == {}
  {
  }

  /** A call that fails in the restoring window changes nothing at all, so a retry is a first try. */
  lemma FailureLeavesNoTrace(s: PublisherState, q: Request, fault: Fault)
    requires Restores(fault) && Publish(s, q, fault).1.Failure?
    requires Validate(q).Success? ==> Validate(q).value.0.seed != Validate(q).value.0.details
    ensures Publish(s, q, fault).0 == s
    ensures forall q' :: Publish(Publish(s, q, fault).0, q', NoFault) == Publish(s, q', NoFault)
  {
    hide PricesRead, Validate, PairFingerprint;
    if Validate(q).Success? {
      AllOrNothing(s.directory, CallFor(Validate(q).value.0, Validate(q).value.1, q), fault);
    }
  }

  /** Whatever the faults and however many the calls, only the two final names can change. */
  lemma {:induction false} RunTouchesOnlyFinalNames(s: PublisherState, calls: seq<Attempted>, name: string)
    requires forall call | call in calls && Validate(call.request).Success? ::
               name != Validate(call.request).value.0.seed && name != Validate(call.request).value.0.details
    ensures Lookup(Run(s, calls).directory, name) == Lookup(s.directory, name)
  {
    hide PricesRead, Validate, PairFingerprint;
    if calls != [] {
      var front, last := calls[..|calls| - 1], calls[|calls| - 1];
      assert last in calls;
      RunTouchesOnlyFinalNames(s, front, name);
    }
  }

  /** Dry runs never change a file, whatever they record. */
  lemma {:induction false} DryRunsWriteNothing(s: PublisherState, calls: seq<Attempted>)
    requires forall call | call in calls :: call.request.dryRun
    ensures Run(s, calls).directory == s.directory
  {
    hide PricesRead, Validate;
    if calls != [] {
      assert calls[|calls| - 1] in calls;
      DryRunsWriteNothing(s, calls[..|calls| - 1]);
    }
  }
}
