/**
 * Market metadata: the market-type and order-book-state wire tables, the market record with
 * its price and quantity filters, the precision a market allows (the scale of its tick and
 * step sizes), and the one- and two-letter field aliases of the market streams.
 */
module MarketTypes {
  import opened Wrappers
  import opened Text
  import opened Decimals
  import opened Json

  /** Market types travel in UPPERCASE. */
  datatype MarketType = Spot | Perp | Iperp | Dated | Prediction | Rfq

  function MarketTypeToWire(t: MarketType): string {
    match t
    case Spot => "SPOT"
    case Perp => "PERP"
    case Iperp => "IPERP"
    case Dated => "DATED"
    case Prediction => "PREDICTION"
    case Rfq => "RFQ"
  }

  /** Case-sensitive; a string outside the table is rejected, never defaulted. */
  function MarketTypeFromWire(s: string): (r: Option<MarketType>)
    ensures forall t :: r == Some(t) <==> MarketTypeToWire(t) == s
  {
    if s == "SPOT" then Some(Spot)
    else if s == "PERP" then Some(Perp)
    else if s == "IPERP" then Some(Iperp)
    else if s == "DATED" then Some(Dated)
    else if s == "PREDICTION" then Some(Prediction)
    else if s == "RFQ" then Some(Rfq)
    else None
  }

  /** Order-book states travel in PascalCase. */
  datatype OrderBookState = Open | Closed | CancelOnly | LimitOnly | PostOnly

  function OrderBookStateToWire(s: OrderBookState): string {
    match s
    case Open => "Open"
    case Closed => "Closed"
    case CancelOnly => "CancelOnly"
    case LimitOnly => "LimitOnly"
    case PostOnly => "PostOnly"
  }

  function OrderBookStateFromWire(s: string): (r: Option<OrderBookState>)
    ensures forall st :: r == Some(st) <==> OrderBookStateToWire(st) == s
  {
    if s == "Open" then Some(Open)
    else if s == "Closed" then Some(Closed)
    else if s == "CancelOnly" then Some(CancelOnly)
    else if s == "LimitOnly" then Some(LimitOnly)
    else if s == "PostOnly" then Some(PostOnly)
    else None
  }

  lemma MarketTypeRoundTrip(t: MarketType)
    ensures MarketTypeFromWire(MarketTypeToWire(t)) == Some(t)
  {
  }

  lemma MarketTypeInjective(a: MarketType, b: MarketType)
    requires MarketTypeToWire(a) == MarketTypeToWire(b)
    ensures a == b
  {
    assert MarketTypeFromWire(MarketTypeToWire(a)) == Some(b);
  }

  lemma MarketTypeRejectsOtherCase()
    ensures MarketTypeFromWire("Spot") == None && MarketTypeFromWire("perp") == None
  {
  }
  /** A wire string holds letters only, so it never contains a query separator. */
  lemma MarketTypeWireHasNo(t: MarketType, c: char)
    requires c == '&' || c == '?'
    ensures c !in MarketTypeToWire(t)
  {
  }


  lemma OrderBookStateRoundTrip(s: OrderBookState)
    ensures OrderBookStateFromWire(OrderBookStateToWire(s)) == Some(s)
  {
  }

  /** A margin function reference; its own definition is not part of this model. */
  datatype MarginFunction = MarginFunction(wire: string)

  datatype PriceBandMarkPrice = PriceBandMarkPrice(maxMultiplier: Decimal, minMultiplier: Decimal)

  datatype PriceBandMeanPremium = PriceBandMeanPremium(tolerancePct: Decimal)

  datatype PriceFilters = PriceFilters(
    minPrice: Decimal,
    maxPrice: Option<Decimal>,
    tickSize: Decimal,
    maxMultiplier: Option<Decimal>,
    minMultiplier: Option<Decimal>,
    maxImpactMultiplier: Option<Decimal>,
    minImpactMultiplier: Option<Decimal>,
    meanMarkPriceBand: Option<PriceBandMarkPrice>,
    meanPremiumBand: Option<PriceBandMeanPremium>,
    borrowEntryFeeMaxMultiplier: Option<Decimal>,
    borrowEntryFeeMinMultiplier: Option<Decimal>)

  datatype QuantityFilters = QuantityFilters(
    minQuantity: Decimal,
    maxQuantity: Option<Decimal>,
    stepSize: Decimal)

  datatype LeverageFilters = LeverageFilters(minLeverage: Decimal, maxLeverage: Decimal, stepSize: Decimal)

  datatype MarketFilters = MarketFilters(
    price: PriceFilters,
    quantity: QuantityFilters,
    leverage: Option<LeverageFilters>)

  /** A market; `createdAt` is kept as the timestamp's text. */
  datatype Market = Market(
    symbol: string,
    baseSymbol: string,
    quoteSymbol: string,
    marketType: MarketType,
    filters: MarketFilters,
    imfFunction: Option<MarginFunction>,
    mmfFunction: Option<MarginFunction>,
    fundingInterval: Option<UInt64>,
    fundingRateUpperBound: Option<Decimal>,
    fundingRateLowerBound: Option<Decimal>,
    openInterestLimit: Option<Decimal>,
    orderBookState: OrderBookState,
    createdAt: string)

  /**
   * The number of price decimals the market accepts: the number of fractional digits of its
   * tick size as written, whatever string it was read from.
   */
  function PriceDecimalPlaces(m: Market): (r: nat)
    ensures r == FractionDigits(ToString(m.filters.price.tickSize))
    ensures forall s :: Parse(s) == Some(m.filters.price.tickSize) ==> r == FractionDigits(s)
  {
    ToStringFractionDigits(m.filters.price.tickSize);
    m.filters.price.tickSize.scale
  }

  /** The number of quantity decimals the market accepts: the fractional digits of its step size. */
  function QuantityDecimalPlaces(m: Market): (r: nat)
    ensures r == FractionDigits(ToString(m.filters.quantity.stepSize))
    ensures forall s :: Parse(s) == Some(m.filters.quantity.stepSize) ==> r == FractionDigits(s)
  {
    ToStringFractionDigits(m.filters.quantity.stepSize);
    m.filters.quantity.stepSize.scale
  }

  /** A tick size read from "0.0001" allows 4 price decimals; a step size read from "0.01", 2. */
  lemma TestMarketDecimalPlaces(m: Market)
    requires Parse("0.0001") == Some(m.filters.price.tickSize)
    requires Parse("0.01") == Some(m.filters.quantity.stepSize)
    ensures PriceDecimalPlaces(m) == 4 && QuantityDecimalPlaces(m) == 2
  {
    assert FractionDigits("0.0001") == 4;
    assert FractionDigits("0.01") == 2;
  }

  /** The precision follows the representation, not the value: 0.01 and 0.010 differ. */
  lemma DecimalPlacesFollowRepresentation(m: Market)
    requires m.filters.price.tickSize == Decimal(1, 2)
    ensures SameValue(m.filters.price.tickSize, Decimal(10, 3))
    ensures PriceDecimalPlaces(m) == 2
    ensures PriceDecimalPlaces(m.(filters := m.filters.(price := m.filters.price.(tickSize := Decimal(10, 3))))) == 3
  {
  }

  /** Each precision reads only its own filter: the rest of the market does not matter. */
  lemma DecimalPlacesDependOnFilterOnly(m: Market, m': Market)
    ensures m.filters.price.tickSize == m'.filters.price.tickSize ==> PriceDecimalPlaces(m) == PriceDecimalPlaces(m')
    ensures m.filters.quantity.stepSize == m'.filters.quantity.stepSize ==> QuantityDecimalPlaces(m) == QuantityDecimalPlaces(m')
  {
  }

  // ---- Stream alias tables: the alias of each field on the wire, in field order ----

  const TICKER_UPDATE_FIELDS: seq<string> := [
    "event_type", "event_time", "symbol", "ask_price", "ask_quantity", "bid_price",
    "bid_quantity", "update_id", "timestamp"]
  const TICKER_UPDATE_ALIASES: seq<string> := ["e", "E", "s", "a", "A", "b", "B", "u", "T"]

  const TICKER_STATISTICS_UPDATE_FIELDS: seq<string> := [
    "event_type", "event_time", "symbol", "first_price", "last_price", "high_price",
    "low_price", "base_asset_volume", "quote_asset_volume", "number_of_trades"]
  const TICKER_STATISTICS_UPDATE_ALIASES: seq<string> := ["e", "E", "s", "o", "c", "h", "l", "v", "V", "n"]

  const ORDER_BOOK_DEPTH_UPDATE_FIELDS: seq<string> := [
    "event_type", "event_time", "symbol", "timestamp", "first_update_id", "last_update_id",
    "asks", "bids"]
  const ORDER_BOOK_DEPTH_UPDATE_ALIASES: seq<string> := ["e", "E", "s", "T", "U", "u", "a", "b"]

  const KLINE_UPDATE_FIELDS: seq<string> := [
    "event_type", "event_time", "symbol", "start", "end", "open", "close", "high", "low",
    "base_asset_volume", "number_of_trades", "is_closed"]
  const KLINE_UPDATE_ALIASES: seq<string> := ["e", "E", "s", "t", "T", "o", "c", "h", "l", "v", "n", "X"]

  const MARK_PRICE_UPDATE_FIELDS: seq<string> := [
    "event_type", "event_time", "symbol", "mark_price", "funding_rate", "index_price",
    "funding_timestamp", "engine_timestamp"]
  const MARK_PRICE_UPDATE_ALIASES: seq<string> := ["e", "E", "s", "p", "f", "i", "n", "T"]

  /**
   * Within each market stream every field has one alias and no two fields share one
   * (aliases are case-sensitive: `t` and `T`, `u` and `U` are different members).
   */
  lemma MarketStreamAliasesDistinct()
    ensures |TICKER_UPDATE_ALIASES| == |TICKER_UPDATE_FIELDS| && Distinct(TICKER_UPDATE_ALIASES)
    ensures |TICKER_STATISTICS_UPDATE_ALIASES| == |TICKER_STATISTICS_UPDATE_FIELDS|
    ensures Distinct(TICKER_STATISTICS_UPDATE_ALIASES)
    ensures |ORDER_BOOK_DEPTH_UPDATE_ALIASES| == |ORDER_BOOK_DEPTH_UPDATE_FIELDS|
    ensures Distinct(ORDER_BOOK_DEPTH_UPDATE_ALIASES)
    ensures |KLINE_UPDATE_ALIASES| == |KLINE_UPDATE_FIELDS| && Distinct(KLINE_UPDATE_ALIASES)
    ensures |MARK_PRICE_UPDATE_ALIASES| == |MARK_PRICE_UPDATE_FIELDS| && Distinct(MARK_PRICE_UPDATE_ALIASES)
  {
  }

  /** The mark-price stream payload. */
  datatype MarkPriceUpdate = MarkPriceUpdate(
    eventType: string,
    eventTime: Int64,
    symbol: string,
    markPrice: Decimal,
    fundingRate: Decimal,
    indexPrice: Decimal,
    fundingTimestamp: UInt64,
    engineTimestamp: Int64)

  function MarkPriceUpdateValues(u: MarkPriceUpdate): (vs: seq<JsonValue>)
    ensures |vs| == |MARK_PRICE_UPDATE_ALIASES|
  {
    [JString(u.eventType), I64Value(u.eventTime), JString(u.symbol), DecimalValue(u.markPrice),
     DecimalValue(u.fundingRate), DecimalValue(u.indexPrice), U64Value(u.fundingTimestamp),
     I64Value(u.engineTimestamp)]
  }

  function MarkPriceUpdateToJson(u: MarkPriceUpdate): Object {
    ObjectOf(MARK_PRICE_UPDATE_ALIASES, MarkPriceUpdateValues(u))
  }

  /** The serialised form has one member per alias of the table, and no other. */
  lemma MarkPriceUpdateToJsonKeys(u: MarkPriceUpdate)
    ensures forall a :: a in MarkPriceUpdateToJson(u) <==> a in MARK_PRICE_UPDATE_ALIASES
  {
    ObjectOfKeys(MARK_PRICE_UPDATE_ALIASES, MarkPriceUpdateValues(u));
  }

  /** Reads a mark-price payload by its aliases; every field is required. */
  function MarkPriceUpdateFromJson(o: Object): Result<MarkPriceUpdate, DecodeError> {
    var eventType :- RequiredString(o, "e");
    var eventTime :- RequiredI64(o, "E");
    var symbol :- RequiredString(o, "s");
    var markPrice :- RequiredDecimal(o, "p");
    var fundingRate :- RequiredDecimal(o, "f");
    var indexPrice :- RequiredDecimal(o, "i");
    var fundingTimestamp :- RequiredU64(o, "n");
    var engineTimestamp :- RequiredI64(o, "T");
    Success(MarkPriceUpdate(eventType, eventTime, symbol, markPrice, fundingRate, indexPrice,
      fundingTimestamp, engineTimestamp))
  }

  /** Member `i` of the serialised update is its alias with the `i`-th field's value. */
  lemma MarkPriceUpdateMember(u: MarkPriceUpdate, i: nat)
    requires i < |MARK_PRICE_UPDATE_ALIASES|
    ensures var o, a := MarkPriceUpdateToJson(u), MARK_PRICE_UPDATE_ALIASES[i];
      a in o && o[a] == MarkPriceUpdateValues(u)[i]
  {
    MarketStreamAliasesDistinct();
    ObjectOfLookup(MARK_PRICE_UPDATE_ALIASES, MarkPriceUpdateValues(u), i);
  }

  lemma MarkPriceUpdateMembersA(u: MarkPriceUpdate)
    ensures var o := MarkPriceUpdateToJson(u);
      && RequiredString(o, "e") == Success(u.eventType)
      && RequiredI64(o, "E") == Success(u.eventTime)
      && RequiredString(o, "s") == Success(u.symbol)
      && RequiredDecimal(o, "p") == Success(u.markPrice)
  {
    MarkPriceUpdateMember(u, 0);
    MarkPriceUpdateMember(u, 1);
    MarkPriceUpdateMember(u, 2);
    MarkPriceUpdateMember(u, 3);
    ReadI64RoundTrip("E", u.eventTime);
    ReadDecimalRoundTrip("p", u.markPrice);
  }

  lemma MarkPriceUpdateMembersB(u: MarkPriceUpdate)
    ensures var o := MarkPriceUpdateToJson(u);
      && RequiredDecimal(o, "f") == Success(u.fundingRate)
      && RequiredDecimal(o, "i") == Success(u.indexPrice)
      && RequiredU64(o, "n") == Success(u.fundingTimestamp)
      && RequiredI64(o, "T") == Success(u.engineTimestamp)
  {
    MarkPriceUpdateMember(u, 4);
    MarkPriceUpdateMember(u, 5);
    MarkPriceUpdateMember(u, 6);
    MarkPriceUpdateMember(u, 7);
    ReadDecimalRoundTrip("f", u.fundingRate);
    ReadDecimalRoundTrip("i", u.indexPrice);
    ReadU64RoundTrip("n", u.fundingTimestamp);
    ReadI64RoundTrip("T", u.engineTimestamp);
  }

  /** Serialising a mark-price update and reading it back loses nothing, decimals included. */
  lemma MarkPriceUpdateRoundTrip(u: MarkPriceUpdate)
    ensures MarkPriceUpdateFromJson(MarkPriceUpdateToJson(u)) == Success(u)
  {
    MarkPriceUpdateMembersA(u);
    MarkPriceUpdateMembersB(u);
  }

  /** A payload missing any alias is rejected. */
  lemma MarkPriceUpdateNeedsEveryAlias(o: Object, alias: string)
    requires alias in MARK_PRICE_UPDATE_ALIASES && alias !in o
    ensures MarkPriceUpdateFromJson(o).Failure?
  {
  }

  // ---- The mark-price test payload ----

  /** The payload of the mark-price parsing test, member by member, in the order written. */
  const TEST_PAYLOAD_KEYS: seq<string> := ["E", "T", "e", "f", "i", "n", "p", "s"]
  const TEST_PAYLOAD_VALUES: seq<JsonValue> := [
    JNumber("1747291031914525"), JNumber("1747291031910025"), JString("markPrice"),
    JString("-0.0000039641039274236048482914"), JString("173.44031179"), JNumber("1747296000000"),
    JString("173.35998175"), JString("SOL_USDC_PERP")]

  lemma Pow10Seven()
    ensures Pow10(7) == 10000000
  {
  }

  /** A chunk of at most seven digits of a literal, and its value. */
  lemma Chunk(n: nat, w: nat, s: string)
    requires w <= 7 && n < Pow10(w) && s == PadDigits(n, w)
    ensures AllDigits(s) && DigitsValue(s) == n
  {
    PadDigitsValue(n, w);
  }

  lemma TimePrefixDigits1()
    ensures AllDigits("17") && DigitsValue("17") == 17
  {
    assert Pow10(2) == 100;
    assert PadDigits(17, 2) == "17";
    Chunk(17, 2, "17");
  }

  lemma TimePrefixDigits2()
    ensures AllDigits("4729103") && DigitsValue("4729103") == 4729103
  {
    assert Pow10(7) == 10000000;
    assert PadDigits(4729103, 7) == "4729103";
    Chunk(4729103, 7, "4729103");
  }

  /** The leading digits `174729103` shared by the event and engine times of the test payload. */
  lemma TimePrefixDigits()
    ensures AllDigits("174729103") && DigitsValue("174729103") == 174729103
  {
    Pow10Seven();
    TimePrefixDigits1();
    TimePrefixDigits2();
    DigitsValueAppend("17", "4729103");
    assert "17" + "4729103" == "174729103";
  }

  lemma EventTimeDigits3()
    ensures AllDigits("1914525") && DigitsValue("1914525") == 1914525
  {
    assert Pow10(7) == 10000000;
    assert PadDigits(1914525, 7) == "1914525";
    Chunk(1914525, 7, "1914525");
  }

  /** The event time `E` of the test payload. */
  lemma EventTimeDigits()
    ensures AllDigits("1747291031914525") && DigitsValue("1747291031914525") == 1747291031914525
  {
    Pow10Seven();
    TimePrefixDigits();
    EventTimeDigits3();
    DigitsValueAppend("174729103", "1914525");
    assert "174729103" + "1914525" == "1747291031914525";
  }

  lemma EngineTimeDigits3()
    ensures AllDigits("1910025") && DigitsValue("1910025") == 1910025
  {
    assert Pow10(7) == 10000000;
    assert PadDigits(1910025, 7) == "1910025";
    Chunk(1910025, 7, "1910025");
  }

  /** The engine time `T` of the test payload. */
  lemma EngineTimeDigits()
    ensures AllDigits("1747291031910025") && DigitsValue("1747291031910025") == 1747291031910025
  {
    Pow10Seven();
    TimePrefixDigits();
    EngineTimeDigits3();
    DigitsValueAppend("174729103", "1910025");
    assert "174729103" + "1910025" == "1747291031910025";
  }

  lemma FundingTimeDigits1()
    ensures AllDigits("174729") && DigitsValue("174729") == 174729
  {
    assert Pow10(6) == 1000000;
    assert PadDigits(174729, 6) == "174729";
    Chunk(174729, 6, "174729");
  }

  lemma FundingTimeDigits2()
    ensures AllDigits("6000000") && DigitsValue("6000000") == 6000000
  {
    assert Pow10(7) == 10000000;
    assert PadDigits(6000000, 7) == "6000000";
    Chunk(6000000, 7, "6000000");
  }

  /** The next funding time `n` of the test payload. */
  lemma FundingTimeDigits()
    ensures AllDigits("1747296000000") && DigitsValue("1747296000000") == 1747296000000
  {
    Pow10Seven();
    FundingTimeDigits1();
    FundingTimeDigits2();
    DigitsValueAppend("174729", "6000000");
    assert "174729" + "6000000" == "1747296000000";
  }

  lemma IndexPriceDigits1()
    ensures AllDigits("1734") && DigitsValue("1734") == 1734
  {
    assert Pow10(4) == 10000;
    assert PadDigits(1734, 4) == "1734";
    Chunk(1734, 4, "1734");
  }

  lemma IndexPriceDigits2()
    ensures AllDigits("4031179") && DigitsValue("4031179") == 4031179
  {
    assert Pow10(7) == 10000000;
    assert PadDigits(4031179, 7) == "4031179";
    Chunk(4031179, 7, "4031179");
  }

  /** The digits of the index price `173.44031179`. */
  lemma IndexPriceDigits()
    ensures AllDigits("17344031179") && DigitsValue("17344031179") == 17344031179
  {
    Pow10Seven();
    IndexPriceDigits1();
    IndexPriceDigits2();
    DigitsValueAppend("1734", "4031179");
    assert "1734" + "4031179" == "17344031179";
  }

  lemma MarkPriceDigits1()
    ensures AllDigits("1733") && DigitsValue("1733") == 1733
  {
    assert Pow10(4) == 10000;
    assert PadDigits(1733, 4) == "1733";
    Chunk(1733, 4, "1733");
  }

  lemma MarkPriceDigits2()
    ensures AllDigits("5998175") && DigitsValue("5998175") == 5998175
  {
    assert Pow10(7) == 10000000;
    assert PadDigits(5998175, 7) == "5998175";
    Chunk(5998175, 7, "5998175");
  }

  /** The digits of the mark price `173.35998175`. */
  lemma MarkPriceDigits()
    ensures AllDigits("17335998175") && DigitsValue("17335998175") == 17335998175
  {
    Pow10Seven();
    MarkPriceDigits1();
    MarkPriceDigits2();
    DigitsValueAppend("1733", "5998175");
    assert "1733" + "5998175" == "17335998175";
  }

  lemma FundingRateDigits1()
    ensures AllDigits("0000039") && DigitsValue("0000039") == 39
  {
    assert Pow10(7) == 10000000;
    assert PadDigits(39, 7) == "0000039";
    Chunk(39, 7, "0000039");
  }

  lemma FundingRateDigits2()
    ensures AllDigits("6410392") && DigitsValue("6410392") == 6410392
  {
    assert Pow10(7) == 10000000;
    assert PadDigits(6410392, 7) == "6410392";
    Chunk(6410392, 7, "6410392");
  }

  lemma FundingRateDigits3()
    ensures AllDigits("7423604") && DigitsValue("7423604") == 7423604
  {
    assert Pow10(7) == 10000000;
    assert PadDigits(7423604, 7) == "7423604";
    Chunk(7423604, 7, "7423604");
  }

  lemma FundingRateDigits4()
    ensures AllDigits("8482914") && DigitsValue("8482914") == 8482914
  {
    assert Pow10(7) == 10000000;
    assert PadDigits(8482914, 7) == "8482914";
    Chunk(8482914, 7, "8482914");
  }

  /** The 28 fractional digits of the funding rate. */
  lemma FundingRateDigits()
    ensures AllDigits("0000039641039274236048482914") && DigitsValue("0000039641039274236048482914") == 39641039274236048482914
  {
    Pow10Seven();
    FundingRateDigits1();
    FundingRateDigits2();
    FundingRateDigits3();
    FundingRateDigits4();
    DigitsValueAppend("0000039", "6410392");
    assert "0000039" + "6410392" == "00000396410392";
    DigitsValueAppend("00000396410392", "7423604");
    assert "00000396410392" + "7423604" == "000003964103927423604";
    DigitsValueAppend("000003964103927423604", "8482914");
    assert "000003964103927423604" + "8482914" == "0000039641039274236048482914";
  }

  lemma FundingRateTextParts()
    ensures "-" + ("0" + "." + "0000039641039274236048482914") == "-0.0000039641039274236048482914"
  {
  }

  /** The 28 fractional digits of the funding rate are all kept: scale 28, no rounding. */
  lemma TestFundingRateText()
    ensures Parse("-0.0000039641039274236048482914") == Some(Decimal(-39641039274236048482914, 28))
  {
    FundingRateDigits();
    FundingRateTextParts();
    LeadingZero("0000039641039274236048482914");
    ParseNegativePoint("0", "0000039641039274236048482914", "-0.0000039641039274236048482914");
  }

  lemma PriceTextParts()
    ensures "173" + "." + "44031179" == "173.44031179" && "173" + "44031179" == "17344031179"
    ensures "173" + "." + "35998175" == "173.35998175" && "173" + "35998175" == "17335998175"
  {
  }

  lemma TestPriceTexts()
    ensures Parse("173.44031179") == Some(Decimal(17344031179, 8))
    ensures Parse("173.35998175") == Some(Decimal(17335998175, 8))
  {
    PriceTextParts();
    IndexPriceDigits();
    MarkPriceDigits();
    ParsePositivePoint("173", "44031179");
    ParsePositivePoint("173", "35998175");
  }

  lemma TestPayloadScalars()
    ensures ReadI64("E", JNumber("1747291031914525")) == Success(1747291031914525)
    ensures ReadI64("T", JNumber("1747291031910025")) == Success(1747291031910025)
    ensures ReadU64("n", JNumber("1747296000000")) == Success(1747296000000)
  {
    EventTimeDigits();
    ParseIntDigits("1747291031914525");
    EngineTimeDigits();
    ParseIntDigits("1747291031910025");
    FundingTimeDigits();
    ParseIntDigits("1747296000000");
  }

  lemma TestPayloadMember(i: nat)
    requires i < |TEST_PAYLOAD_KEYS|
    ensures var o, k := ObjectOf(TEST_PAYLOAD_KEYS, TEST_PAYLOAD_VALUES), TEST_PAYLOAD_KEYS[i];
      k in o && o[k] == TEST_PAYLOAD_VALUES[i]
  {
    ObjectOfLookup(TEST_PAYLOAD_KEYS, TEST_PAYLOAD_VALUES, i);
  }

  lemma TestPayloadReadsEventType()
    ensures var o := ObjectOf(TEST_PAYLOAD_KEYS, TEST_PAYLOAD_VALUES);
      && RequiredString(o, "e") == Success("markPrice")
      && RequiredString(o, "s") == Success("SOL_USDC_PERP")
  {
    TestPayloadMember(2);
    TestPayloadMember(7);
  }

  lemma TestPayloadReadsTimes()
    ensures var o := ObjectOf(TEST_PAYLOAD_KEYS, TEST_PAYLOAD_VALUES);
      && RequiredI64(o, "E") == Success(1747291031914525)
      && RequiredU64(o, "n") == Success(1747296000000)
      && RequiredI64(o, "T") == Success(1747291031910025)
  {
    TestPayloadScalars();
    TestPayloadMember(0);
    TestPayloadMember(1);
    TestPayloadMember(5);
  }

  lemma TestPayloadReadsPrices()
    ensures var o := ObjectOf(TEST_PAYLOAD_KEYS, TEST_PAYLOAD_VALUES);
      && RequiredDecimal(o, "p") == Success(Decimal(17335998175, 8))
      && RequiredDecimal(o, "i") == Success(Decimal(17344031179, 8))
  {
    TestPriceTexts();
    TestPayloadMember(4);
    TestPayloadMember(6);
    RequiredDecimalText(ObjectOf(TEST_PAYLOAD_KEYS, TEST_PAYLOAD_VALUES), "i", "173.44031179", Decimal(17344031179, 8));
    RequiredDecimalText(ObjectOf(TEST_PAYLOAD_KEYS, TEST_PAYLOAD_VALUES), "p", "173.35998175", Decimal(17335998175, 8));
  }

  lemma TestPayloadReadsFundingRate()
    ensures var o := ObjectOf(TEST_PAYLOAD_KEYS, TEST_PAYLOAD_VALUES);
      RequiredDecimal(o, "f") == Success(Decimal(-39641039274236048482914, 28))
  {
    TestFundingRateText();
    TestPayloadMember(3);
    RequiredDecimalText(ObjectOf(TEST_PAYLOAD_KEYS, TEST_PAYLOAD_VALUES), "f",
      "-0.0000039641039274236048482914", Decimal(-39641039274236048482914, 28));
  }

  /**
   * Decoding the test payload keeps the symbol, the mark price `173.35998175` and the funding
   * rate `-0.0000039641039274236048482914` digit for digit.
   */
  lemma TestMarkPriceUpdateParse()
    ensures MarkPriceUpdateFromJson(ObjectOf(TEST_PAYLOAD_KEYS, TEST_PAYLOAD_VALUES)) == Success(
      MarkPriceUpdate("markPrice", 1747291031914525, "SOL_USDC_PERP", Decimal(17335998175, 8),
        Decimal(-39641039274236048482914, 28), Decimal(17344031179, 8), 1747296000000, 1747291031910025))
  {
    TestPayloadReadsEventType();
    TestPayloadReadsTimes();
    TestPayloadReadsPrices();
    TestPayloadReadsFundingRate();
  }
}
