/**
 From two chat messages to the files and the dashboard's metadata: a seed and, in time, details of the
 same direction (fasttrack_file_bridge.py in integrations/telegram, from handle to publish_pair).
 */
module SignalPipeline {
  import opened Wrappers
  import opened Decimals
  import opened MessageText
  import opened SignalPrices
  import opened AtomicPublish
  import opened Pairing
  import opened PairingRuns
  import opened TextReadings
  import opened PublishAccepts
  import opened MessageOutcomes
  import opened SignalReadings
  import SignalMeta

  /** `gold buy now`, in any mix of cases. */
  function SeedText(symbol: string, direction: string, now: string): string {
    symbol + (" " + (direction + (" " + now)))
  }

  lemma SeedTextIsSeed(symbol: string, direction: string, now: string)
    requires HeadWords(symbol, direction, now)
    ensures var text := SeedText(symbol, direction, now);
            && Strip(text) == text && |text| <= 13 && SeedLine(text) && GoldSeed(text, Lower(direction))
            && ReadsAsSeed(text, symbol, " ", direction, " ", now)
  {
    hide Strip, Spells;
    var text := SeedText(symbol, direction, now);
    var word := if Spells(direction, "buy") then "buy" else "sell";
    WordIsSolid(symbol, "gold");
    WordIsSolid(direction, word);
    WordIsSolid(now, "now");
    LowerPrefix(symbol, "gold");
    LowerPrefix(direction, word);
    LowerPrefix(now, "now");
    PlainAppend(" ", now);
    PlainAppend(direction, " " + now);
    PlainAppend(" ", direction + (" " + now));
    PlainAppend(symbol, " " + (direction + (" " + now)));
    assert text[0] == symbol[0] && text[|text| - 1] == now[|now| - 1];
    StripOfTrimmed(text);
    assert ReadsAsSeed(Strip(text), symbol, " ", direction, " ", now);
    assert |symbol| == |Lower(symbol)| && |direction| == |Lower(direction)| && |now| == |Lower(now)|;
  }

  /** A seed message, and details whose first line has the seed's direction, both written out in full. */
  ghost predicate SignalTexts(seed: InboundMessage, details: InboundMessage, symbol: string, direction: string, now: string,
                              symbol': string, direction': string, now': string, low: nat, high: nat, entries: seq<PriceEntry>)
  {
    && HeadWords(symbol, direction, now) && HeadWords(symbol', direction', now') && Lower(direction) == Lower(direction')
    && Exact(low) && Exact(high) && ExactEntries(entries)
    && seed.text == SeedText(symbol, direction, now)
    && details.text == Written(HeadLine(symbol', direction', now', low, high), entries) && |details.text| <= 8192
  }

  /** The two messages have different contents, for they are of different kinds. */
  lemma KindsDiffer(a: string, b: string)
    requires Classify(a) != Classify(b)
    ensures Strip(NormalizeLineEndings(a)) != Strip(NormalizeLineEndings(b))
  {
    hide Strip, NormalizeLineEndings, NonBlankLines, MatchSeed, MatchDetailsHeader, HasRangeHint, MentionsStopLoss;
  }

  /** What the second message finds: its own seed waiting, and itself not seen. */
  lemma SeedIsWaiting(h: HandlerState, setup: Setup, seed: InboundMessage, details: InboundMessage, first: Moment,
                      symbol: string, direction: string, now: string)
    requires HeadWords(symbol, direction, now) && seed.text == SeedText(symbol, direction, now)
    requires Unseen(h, seed) && Unseen(h, details) && Classify(details.text) == DetailsMessage
    requires seed.channelId != details.channelId || seed.messageId != details.messageId
    ensures var (h1, r1) := Handle(h, setup, seed, first);
            && r1.Pass? && Unseen(h1, details) && h1.matcher.publisher == h.matcher.publisher
            && h1.matcher.pending == Some(SeedOf(seed, Lower(direction), first.receivedAt))
  {
    hide Handle, Strip, NormalizeLineEndings, Decimal, SeedLine, GoldSeed, Classify, SeedOf;
    SeedTextIsSeed(symbol, direction, now);
    NewSeedWaits(h, setup, seed, first, Lower(direction));
    ClassifiedGold(seed.text, Lower(direction));
    KindsDiffer(seed.text, details.text);
    MessageKeyIdentifies(seed, details);
    KeyOf(seed);
    KeyOf(details);
  }

  lemma HeaderRuleHolds(seed: Seed, message: InboundMessage, direction: string)
    requires seed.header == Header("gold", direction) && NormalizeLineEndings(message.text) == message.text
    requires Strip(message.text) != "" && HasHeader(TopLine(message.text), seed.header)
    ensures FirstRule(seed, message).Some?
  {
    hide Strip, NormalizeLineEndings, HasHeader, RuleHolds, TopLine;
    RulesByReading(LinkOf(message), seed, message.text);
  }

  /**
   Every such signal arrives: after the two messages, without a fault, the two files hold exactly the two
   texts, nothing else in the directory has changed, and no seed is waiting.
   */
  lemma SignalReachesTheFiles(h: HandlerState, setup: Setup, seed: InboundMessage, details: InboundMessage, first: Moment,
                              second: Moment, symbol: string, direction: string, now: string, symbol': string,
                              direction': string, now': string, low: nat, high: nat, entries: seq<PriceEntry>)
    requires SignalTexts(seed, details, symbol, direction, now, symbol', direction', now', low, high, entries)
    requires Unseen(h, seed) && Unseen(h, details) && (seed.channelId != details.channelId || seed.messageId != details.messageId)
    requires second.checkedAt - first.receivedAt <= setup.pairTimeoutSeconds as real && second.fault == NoFault
    requires PlainName(setup.names.seed) && Trimmed(setup.names.seed) && PlainName(setup.names.details) && Trimmed(setup.names.details)
    requires !setup.dryRun && Sha256(seed.text + "\n---\n" + details.text) !in h.matcher.publisher.fingerprints
    ensures var (h1, r1) := Handle(h, setup, seed, first);
            var (h2, r2) := Handle(h1, setup, details, second);
            && r1.Pass? && r2.Pass? && h2.matcher.pending.None?
            && h2.matcher.publisher.directory
               == h.matcher.publisher.directory[setup.names.details := details.text][setup.names.seed := seed.text]
  {
    hide Handle, Strip, NormalizeLineEndings, Classify, SeedText, Written, HeadLine, PlainName, PricesRead, GoldSeed, SeedLine;
    hide HasHeader, Unseen, FirstRule, TopLine, HeadWords, Lower, Trimmed;
    SeedTextIsSeed(symbol, direction, now);
    WrittenIsDetails(symbol', direction', now', low, high, entries);
    SeedIsWaiting(h, setup, seed, details, first, symbol, direction, now);
    var h1 := Handle(h, setup, seed, first).0;
    var waiting := SeedOf(seed, Lower(direction), first.receivedAt);
    HeaderRuleHolds(waiting, details, Lower(direction));
    FaultlessDetails(h1, setup, details, second);
    StripOfTrimmed(setup.names.seed);
    StripOfTrimmed(setup.names.details);
    WrittenReads(symbol', direction', now', low, high, entries);
    var q := PairRequest(setup, waiting, details, second);
    DirectionIsOne(direction);
    assert Publishable(q);
  }

  lemma DirectionIsOne(direction: string)
    ensures Lower(direction) == "buy" || Lower(direction) == "sell" || !(Spells(direction, "buy") || Spells(direction, "sell"))
  {
    LowerSpells(direction, "buy");
    LowerSpells(direction, "sell");
  }

  lemma WrittenReads(symbol: string, direction: string, now: string, low: nat, high: nat, entries: seq<PriceEntry>)
    requires HeadWords(symbol, direction, now) && Exact(low) && Exact(high) && ExactEntries(entries)
    ensures PricesRead(Written(HeadLine(symbol, direction, now, low, high), entries))
  {
    hide HeadWords, HeadLine, Written, PricesRead;
    var text := Written(HeadLine(symbol, direction, now, low, high), entries);
    WrittenDetailsRead(ValidPair("", text, Header("", "")), symbol, direction, now, low, high, entries);
  }

  /** And the metadata of the pair shows the seed's side and the details' prices. */
  lemma SignalIsShown(seed: InboundMessage, details: InboundMessage, symbol: string, direction: string, now: string,
                      symbol': string, direction': string, now': string, low: nat, high: nat, entries: seq<PriceEntry>)
    requires SignalTexts(seed, details, symbol, direction, now, symbol', direction', now', low, high, entries)
    ensures ValidatePairPayload(seed.text, details.text).Success?
    ensures SignalMeta.MetaOf(ValidatePairPayload(seed.text, details.text).value) ==
            SignalMeta.Meta(Some("XAUUSD"), Some(if Spells(direction, "buy") then "BUY" else "SELL"), Some(low), Some(high),
                            LastStop(entries), Profits(entries))
  {
    hide Strip, NormalizeLineEndings, Classify, SeedText, Written, HeadLine, GoldSeed, SeedLine, HasHeader, TopLine, Lower;
    hide ValidateSeedFormat, ValidateDetailsText, SignalMeta.MetaOf;
    SeedTextIsSeed(symbol, direction, now);
    WrittenIsDetails(symbol', direction', now', low, high, entries);
    SeedAcceptedIff(seed.text, Header("gold", Lower(direction)));
    DetailsAcceptedIff(details.text);
    SideOfSeed(seed.text, details.text, symbol, " ", direction, " ", now);
    WrittenDetailsRead(ValidatePairPayload(seed.text, details.text).value, symbol', direction', now', low, high, entries);
  }
}
