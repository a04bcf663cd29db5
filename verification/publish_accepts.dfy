/**
 Which calls of publish_pair in integrations/telegram/fasttrack_file_bridge.py go through, and what
 they leave, said about the caller's texts and names alone.
 */
module PublishAccepts {
  import opened Wrappers
  import opened MessageText
  import opened SignalPrices
  import opened AtomicPublish
  import opened TextReadings

  // ---------- names ----------

  /** Not empty, no separator, no colon and no two dots in a row. */
  predicate PlainName(name: string) {
    && name != ""
    && (forall i | 0 <= i < |name| :: name[i] != '/' && name[i] != '\\' && name[i] != ':')
    && (forall i | 0 <= i < |name| - 1 :: !(name[i] == '.' && name[i + 1] == '.'))
  }

  lemma {:induction false} ContainsChar(s: string, c: char)
    ensures Contains(s, [c]) <==> exists i :: 0 <= i < |s| && s[i] == c
  {
    if s != "" {
      ContainsChar(s[1..], c);
      assert [c] <= s <==> s[0] == c;
      assert forall i | 1 <= i < |s| :: s[i] == s[1..][i - 1];
    }
  }

  lemma {:induction false} ContainsTwo(s: string, c: char, d: char)
    ensures Contains(s, [c, d]) <==> exists i :: 0 <= i < |s| - 1 && s[i] == c && s[i + 1] == d
  {
    if s != "" {
      ContainsTwo(s[1..], c, d);
      assert [c, d] <= s <==> |s| > 1 && s[0] == c && s[1] == d;
      assert forall i | 1 <= i < |s| :: s[i] == s[1..][i - 1];
    }
  }

  /** A file name is accepted, stripped, exactly when what is left of it is plain. */
  lemma NameAcceptedIff(name: string)
    ensures ValidateBasename(name) == if PlainName(Strip(name)) then Success(Strip(name)) else Failure(InvalidFilename)
  {
    hide Strip, Contains;
    var core := Strip(name);
    ContainsChar(core, '/');
    ContainsChar(core, '\\');
    ContainsChar(core, ':');
    ContainsTwo(core, '.', '.');
    assert "/" == ['/'] && "\\" == ['\\'] && ":" == [':'] && ".." == ['.', '.'];
  }

  // ---------- texts ----------

  /** What is asked of the texts and names of a call; the prices are those of the details. */
  ghost predicate Publishable(q: Request) {
    && PlainName(Strip(q.names.seed)) && PlainName(Strip(q.names.details))
    && (GoldSeed(q.seedText, "buy") || GoldSeed(q.seedText, "sell"))
    && Strip(q.detailsText) != "" && (forall i | 0 <= i < |q.detailsText| :: q.detailsText[i] as int < 128)
    && |Strip(q.seedText)| <= 8192 && |NormalizeLineEndings(q.detailsText)| <= 8192
    && PricesRead(NormalizeLineEndings(q.detailsText))
  }

  lemma DetailsAcceptedIff(text: string)
    ensures ValidateDetailsText(text) ==
            if Strip(text) == "" then Failure(EmptyText)
            else if exists i | 0 <= i < |text| :: text[i] as int >= 128 then Failure(NotAscii)
            else Success(NormalizeLineEndings(text))
  {
    hide Strip, NormalizeLineEndings;
    StripNormalizeCommute(text);
    NormalizeKeepsKind(text);
  }

  lemma SeedDirection(text: string)
    ensures ValidateSeedFormat(text).Success? <==> GoldSeed(text, "buy") || GoldSeed(text, "sell")
  {
    hide ValidateSeedFormat, Strip;
    SeedAcceptedIff(text, Header("gold", "buy"));
    SeedAcceptedIff(text, Header("gold", "sell"));
    if ValidateSeedFormat(text).Success? {
      var header := ValidateSeedFormat(text).value;
      SeedAcceptedIff(text, header);
      var symbol, gap, word, gap', now :|
        ReadsAsSeed(Strip(text), symbol, gap, word, gap', now) && Lower(symbol) == "gold" && Lower(word) == header.direction;
    }
  }

  lemma SeedNotBlank(text: string)
    requires GoldSeed(text, "buy") || GoldSeed(text, "sell")
    ensures Strip(text) != ""
  {
    hide Strip;
  }

  lemma ValidatedIff(q: Request)
    ensures Validate(q).Success? && PricesRead(Validate(q).value.1.details) <==> Publishable(q)
    ensures Validate(q).Success? ==>
              && Validate(q).value.0 == Names(Strip(q.names.seed), Strip(q.names.details))
              && Validate(q).value.1.seed == Strip(q.seedText)
              && Validate(q).value.1.details == NormalizeLineEndings(q.detailsText)
  {
    hide Strip, NormalizeLineEndings, ValidateBasename, ValidateSeedFormat, ValidateDetailsText, PlainName, GoldSeed, PricesRead;
    NameAcceptedIff(q.names.seed);
    NameAcceptedIff(q.names.details);
    SeedDirection(q.seedText);
    DetailsAcceptedIff(q.detailsText);
    StripIdempotent(q.seedText);
    if GoldSeed(q.seedText, "buy") || GoldSeed(q.seedText, "sell") {
      SeedNotBlank(q.seedText);
    }
  }

  // ---------- calls ----------

  /** The fingerprint of the two texts: SHA-256 of both around a separator line. */
  function PrintOf(q: Request): Digest {
    Sha256(Strip(q.seedText) + "\n---\n" + NormalizeLineEndings(q.detailsText))
  }

  /** The directory with both texts under their names; one name for both keeps the seed. */
  function WithBoth(d: Directory, q: Request): Directory {
    d[Strip(q.names.details) := NormalizeLineEndings(q.detailsText)][Strip(q.names.seed) := Strip(q.seedText)]
  }

  lemma FilesAfter(d: Directory, c: Call)
    ensures DirectoryAfter(d, c, NoFault) == d[c.names.details := c.details][c.names.seed := c.seed]
  {
  }

  /**
   A call without a fault returns exactly when its names, texts and prices are as they should be. Then
   the pair is on record and, unless it was on record before or this is a dry run, exactly its two
   files are written; any other call changes nothing.
   */
  lemma FaultlessCall(s: PublisherState, q: Request)
    ensures var (s', r) := Publish(s, q, NoFault);
            && (r.Success? <==> Publishable(q))
            && (r.Failure? ==> s' == s)
            && (r.Success? ==>
                  && s'.fingerprints == s.fingerprints + {PrintOf(q)}
                  && s'.directory == (if PrintOf(q) in s.fingerprints || q.dryRun then s.directory else WithBoth(s.directory, q))
                  && r.value == PublishResult(PrintOf(q), |Strip(q.seedText)|, |NormalizeLineEndings(q.detailsText)|))
  {
    hide Strip, NormalizeLineEndings, Validate, Publishable, PricesRead, DirectoryAfter;
    ValidatedIff(q);
    if Validate(q).Success? {
      FilesAfter(s.directory, CallFor(Validate(q).value.0, Validate(q).value.1, q));
    }
  }

  /** Why a call fails, in the order of the checks, whatever its fault. */
  lemma RefusedCall(s: PublisherState, q: Request, fault: Fault)
    requires !Publishable(q)
    ensures Publish(s, q, fault).0 == s
    ensures Publish(s, q, fault).1 == Failure(
              if !PlainName(Strip(q.names.seed)) || !PlainName(Strip(q.names.details)) then Invalid(InvalidFilename)
              else if ValidateSeedFormat(q.seedText).Failure? then Invalid(ValidateSeedFormat(q.seedText).error)
              else if Strip(q.detailsText) == "" then Invalid(EmptyText)
              else if exists i | 0 <= i < |q.detailsText| :: q.detailsText[i] as int >= 128 then Invalid(NotAscii)
              else if |Strip(q.seedText)| > 8192 || |NormalizeLineEndings(q.detailsText)| > 8192 then Invalid(PayloadTooLarge)
              else PriceUnreadable)
  {
    hide Strip, NormalizeLineEndings, ValidateBasename, ValidateSeedFormat, ValidateDetailsText, PlainName, GoldSeed, PricesRead;
    hide DirectoryAfter, PairFingerprint;
    NameAcceptedIff(q.names.seed);
    NameAcceptedIff(q.names.details);
    SeedDirection(q.seedText);
    DetailsAcceptedIff(q.detailsText);
    StripIdempotent(q.seedText);
    if GoldSeed(q.seedText, "buy") || GoldSeed(q.seedText, "sell") {
      SeedNotBlank(q.seedText);
    }
  }

  /**
   Any reading of the seed as gold, buy or sell, and `now`, with any plain ASCII details, is published
   while both texts have at most 8192 characters, and refused from the 8193rd on.
   */
  lemma PlainPairIsPublished(s: PublisherState, q: Request, symbol: string, gap: string, direction: string, gap': string, now: string)
    requires ReadsAsSeed(Strip(q.seedText), symbol, gap, direction, gap', now) && Spells(symbol, "gold")
    requires forall i | 0 <= i < |Strip(q.seedText)| :: Strip(q.seedText)[i] as int < 128
    requires Strip(q.detailsText) != "" && forall i | 0 <= i < |q.detailsText| :: q.detailsText[i] as int < 128
    requires PlainName(Strip(q.names.seed)) && PlainName(Strip(q.names.details)) && !q.dryRun
    requires PricesRead(NormalizeLineEndings(q.detailsText)) && PrintOf(q) !in s.fingerprints
    ensures var (s', r) := Publish(s, q, NoFault);
            if |Strip(q.seedText)| <= 8192 && |NormalizeLineEndings(q.detailsText)| <= 8192
            then r.Success? && s' == PublisherState(WithBoth(s.directory, q), s.fingerprints + {PrintOf(q)})
            else s' == s && r == Failure(Invalid(PayloadTooLarge))
  {
    hide Strip, NormalizeLineEndings, Publish, PlainName, PricesRead, WithBoth, PrintOf, ValidateSeedFormat;
    LowerSpells(symbol, "gold");
    assert Lower(direction) == "buy" || Lower(direction) == "sell";
    assert GoldSeed(q.seedText, Lower(direction));
    SeedDirection(q.seedText);
    FaultlessCall(s, q);
    if !Publishable(q) {
      RefusedCall(s, q, NoFault);
    }
  }

  /** What gets past the publisher's checks: what is publishable and not on record. */
  lemma NewIff(q: Request, fingerprints: set<Digest>)
    ensures IsNew(q, fingerprints) <==> Publishable(q) && PrintOf(q) !in fingerprints
  {
    hide Strip, NormalizeLineEndings, Validate, Publishable, PricesRead;
    ValidatedIff(q);
  }
}
