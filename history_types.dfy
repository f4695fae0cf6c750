/**
 * Fill history: the search record with its serde behaviour (unset filters are not written;
 * an absent `limit` or `offset` reads as its default), and the fill-type and system-order-type
 * wire tables, both PascalCase.
 */
module HistoryTypes {
  import opened Wrappers
  import opened Text
  import opened Json
  import opened MarketTypes
  import StrategyTypes

  // ---- Fill type ----

  datatype FillType =
    | User
    | BookLiquidation
    | Adl
    | Backstop
    | Liquidation
    | AllLiquidation
    | CollateralConversion
    | CollateralConversionAndSpotLiquidation

  function FillTypeToWire(t: FillType): string {
    match t
    case User => "User"
    case BookLiquidation => "BookLiquidation"
    case Adl => "Adl"
    case Backstop => "Backstop"
    case Liquidation => "Liquidation"
    case AllLiquidation => "AllLiquidation"
    case CollateralConversion => "CollateralConversion"
    case CollateralConversionAndSpotLiquidation => "CollateralConversionAndSpotLiquidation"
  }

  /** Case-sensitive; a string outside the table is rejected, never defaulted. */
  function FillTypeFromWire(s: string): (r: Option<FillType>)
    ensures forall t :: r == Some(t) <==> FillTypeToWire(t) == s
  {
    if s == "User" then Some(User)
    else if s == "BookLiquidation" then Some(BookLiquidation)
    else if s == "Adl" then Some(Adl)
    else if s == "Backstop" then Some(Backstop)
    else if s == "Liquidation" then Some(Liquidation)
    else if s == "AllLiquidation" then Some(AllLiquidation)
    else if s == "CollateralConversion" then Some(FillType.CollateralConversion)
    else if s == "CollateralConversionAndSpotLiquidation" then Some(CollateralConversionAndSpotLiquidation)
    else None
  }

  lemma FillTypeRoundTrip(t: FillType)
    ensures FillTypeFromWire(FillTypeToWire(t)) == Some(t)
  {
  }

  lemma FillTypeInjective(a: FillType, b: FillType)
    requires FillTypeToWire(a) == FillTypeToWire(b)
    ensures a == b
  {
    assert FillTypeFromWire(FillTypeToWire(a)) == Some(b);
  }

  lemma FillTypeRejectsOtherCase()
    ensures FillTypeFromWire("user") == None && FillTypeFromWire("ADL") == None
  {
  }
  lemma FillTypeWireHasNo(t: FillType, c: char)
    requires c == '&' || c == '?'
    ensures c !in FillTypeToWire(t)
  {
  }


  // ---- System order type ----

  datatype SystemOrderType =
    | CollateralConversion
    | FutureExpiry
    | LiquidatePositionOnAdl
    | LiquidatePositionOnBook
    | LiquidatePositionOnBackstop
    | OrderBookClosed

  function SystemOrderTypeToWire(t: SystemOrderType): string {
    match t
    case CollateralConversion => "CollateralConversion"
    case FutureExpiry => "FutureExpiry"
    case LiquidatePositionOnAdl => "LiquidatePositionOnAdl"
    case LiquidatePositionOnBook => "LiquidatePositionOnBook"
    case LiquidatePositionOnBackstop => "LiquidatePositionOnBackstop"
    case OrderBookClosed => "OrderBookClosed"
  }

  function SystemOrderTypeFromWire(s: string): (r: Option<SystemOrderType>)
    ensures forall t :: r == Some(t) <==> SystemOrderTypeToWire(t) == s
  {
    if s == "CollateralConversion" then Some(SystemOrderType.CollateralConversion)
    else if s == "FutureExpiry" then Some(FutureExpiry)
    else if s == "LiquidatePositionOnAdl" then Some(LiquidatePositionOnAdl)
    else if s == "LiquidatePositionOnBook" then Some(LiquidatePositionOnBook)
    else if s == "LiquidatePositionOnBackstop" then Some(LiquidatePositionOnBackstop)
    else if s == "OrderBookClosed" then Some(OrderBookClosed)
    else None
  }

  lemma SystemOrderTypeRoundTrip(t: SystemOrderType)
    ensures SystemOrderTypeFromWire(SystemOrderTypeToWire(t)) == Some(t)
  {
  }

  lemma SystemOrderTypeInjective(a: SystemOrderType, b: SystemOrderType)
    requires SystemOrderTypeToWire(a) == SystemOrderTypeToWire(b)
    ensures a == b
  {
    assert SystemOrderTypeFromWire(SystemOrderTypeToWire(a)) == Some(b);
  }

  lemma SystemOrderTypeRejectsOtherCase()
    ensures SystemOrderTypeFromWire("orderBookClosed") == None
    ensures SystemOrderTypeFromWire("LiquidatePositionOnADL") == None
  {
  }

  // ---- The fill-history search record ----

  datatype FillHistorySearchParams = FillHistorySearchParams(
    orderId: Option<string>,
    strategyId: Option<string>,
    from: Option<Int64>,
    to: Option<Int64>,
    symbol: Option<string>,
    limit: Option<UInt64>,
    offset: Option<UInt64>,
    fillType: Option<FillType>,
    marketType: Option<MarketType>,
    sortDirection: Option<StrategyTypes.SortDirection>)

  /** What the derived `Default` gives: every filter unset, `limit` and `offset` included. */
  const FILL_SEARCH_DEFAULT := FillHistorySearchParams(None, None, None, None, None, None, None, None, None, None)

  /** The defaults applied when a serialised record lacks `limit` or `offset`. */
  const FILL_DEFAULT_LIMIT: Option<UInt64> := Some(100)
  const FILL_DEFAULT_OFFSET: Option<UInt64> := Some(0)

  /** The camelCase member names, in field order. */
  const FILL_SEARCH_KEYS: seq<string> := ["orderId", "strategyId", "from", "to", "symbol", "limit",
    "offset", "fillType", "marketType", "sortDirection"]

  lemma FillSearchKeysDistinct()
    ensures Distinct(FILL_SEARCH_KEYS)
  {
  }

  /**
   * Each field is `skip_serializing_if = "Option::is_none"`: `None` gives no member at all,
   * `Some(x)` the member with `x` written by the field's own writer.
   */
  function FillSearchValues(p: FillHistorySearchParams): (vs: seq<Option<JsonValue>>)
    ensures |vs| == |FILL_SEARCH_KEYS|
  {
    [Map(p.orderId, s => JString(s)),
     Map(p.strategyId, s => JString(s)),
     Map(p.from, I64Value),
     Map(p.to, I64Value),
     Map(p.symbol, s => JString(s)),
     Map(p.limit, U64Value),
     Map(p.offset, U64Value),
     Map(p.fillType, t => JString(FillTypeToWire(t))),
     Map(p.marketType, t => JString(MarketTypeToWire(t))),
     Map(p.sortDirection, d => JString(StrategyTypes.SortDirectionToWire(d)))]
  }

  function FillSearchToJson(p: FillHistorySearchParams): Object {
    ObjectOfSet(FILL_SEARCH_KEYS, FillSearchValues(p))
  }

  function FillSearchFromJson(o: Object): Result<FillHistorySearchParams, DecodeError> {
    var orderId :- OptionalString(o, "orderId");
    var strategyId :- OptionalString(o, "strategyId");
    var from :- OptionalI64(o, "from");
    var to :- OptionalI64(o, "to");
    var symbol :- OptionalString(o, "symbol");
    var limit :- OptionalU64Or(o, "limit", FILL_DEFAULT_LIMIT);
    var offset :- OptionalU64Or(o, "offset", FILL_DEFAULT_OFFSET);
    var fillType :- OptionalEnum(o, "fillType", FillTypeFromWire);
    var marketType :- OptionalEnum(o, "marketType", MarketTypeFromWire);
    var sortDirection :- OptionalEnum(o, "sortDirection", StrategyTypes.SortDirectionFromWire);
    Success(FillHistorySearchParams(orderId, strategyId, from, to, symbol, limit, offset, fillType,
      marketType, sortDirection))
  }

  lemma FillSearchMember(p: FillHistorySearchParams, i: nat)
    requires i < |FILL_SEARCH_KEYS|
    ensures var o, k, v := FillSearchToJson(p), FILL_SEARCH_KEYS[i], FillSearchValues(p)[i];
      (k in o <==> v.Some?) && (v.Some? ==> o[k] == v.value)
  {
    FillSearchKeysDistinct();
    ObjectOfSetLookup(FILL_SEARCH_KEYS, FillSearchValues(p), i);
  }

  /** An unset filter writes no member, and a set one writes its member. */
  lemma FillSearchSkipsUnset(p: FillHistorySearchParams)
    ensures var o := FillSearchToJson(p);
      && ("orderId" in o <==> p.orderId.Some?)
      && ("strategyId" in o <==> p.strategyId.Some?)
      && ("from" in o <==> p.from.Some?)
      && ("to" in o <==> p.to.Some?)
      && ("symbol" in o <==> p.symbol.Some?)
      && ("limit" in o <==> p.limit.Some?)
      && ("offset" in o <==> p.offset.Some?)
      && ("fillType" in o <==> p.fillType.Some?)
      && ("marketType" in o <==> p.marketType.Some?)
      && ("sortDirection" in o <==> p.sortDirection.Some?)
  {
    FillSearchMember(p, 0);
    FillSearchMember(p, 1);
    FillSearchMember(p, 2);
    FillSearchMember(p, 3);
    FillSearchMember(p, 4);
    FillSearchMember(p, 5);
    FillSearchMember(p, 6);
    FillSearchMember(p, 7);
    FillSearchMember(p, 8);
    FillSearchMember(p, 9);
  }

  /** Only the record's own members are written, and none of them as `null`. */
  lemma FillSearchNeverNull(p: FillHistorySearchParams)
    ensures var o := FillSearchToJson(p);
      forall k :: k in o ==> k in FILL_SEARCH_KEYS && !o[k].JNull?
  {
    var vs := FillSearchValues(p);
    assert forall i :: 0 <= i < |vs| ==> vs[i] != Some(JNull) by {
      assert vs[0] != Some(JNull) && vs[1] != Some(JNull) && vs[2] != Some(JNull);
      assert vs[3] != Some(JNull) && vs[4] != Some(JNull) && vs[5] != Some(JNull);
      assert vs[6] != Some(JNull) && vs[7] != Some(JNull) && vs[8] != Some(JNull);
      assert vs[9] != Some(JNull);
    }
    ObjectOfSetNoNull(FILL_SEARCH_KEYS, vs);
  }

  lemma FillSearchReadsFirst(p: FillHistorySearchParams)
    ensures var o := FillSearchToJson(p);
      && OptionalString(o, "orderId") == Success(p.orderId)
      && OptionalString(o, "strategyId") == Success(p.strategyId)
      && OptionalI64(o, "from") == Success(p.from)
      && OptionalI64(o, "to") == Success(p.to)
      && OptionalString(o, "symbol") == Success(p.symbol)
  {
    FillSearchMember(p, 0);
    FillSearchMember(p, 1);
    FillSearchMember(p, 2);
    FillSearchMember(p, 3);
    FillSearchMember(p, 4);
    if p.from.Some? {
      ReadI64RoundTrip("from", p.from.value);
    }
    if p.to.Some? {
      ReadI64RoundTrip("to", p.to.value);
    }
  }

  lemma FillSearchReadsRest(p: FillHistorySearchParams)
    ensures var o := FillSearchToJson(p);
      && OptionalU64Or(o, "limit", FILL_DEFAULT_LIMIT) == Success(if p.limit.Some? then p.limit else FILL_DEFAULT_LIMIT)
      && OptionalU64Or(o, "offset", FILL_DEFAULT_OFFSET) == Success(if p.offset.Some? then p.offset else FILL_DEFAULT_OFFSET)
      && OptionalEnum(o, "fillType", FillTypeFromWire) == Success(p.fillType)
      && OptionalEnum(o, "marketType", MarketTypeFromWire) == Success(p.marketType)
      && OptionalEnum(o, "sortDirection", StrategyTypes.SortDirectionFromWire) == Success(p.sortDirection)
  {
    FillSearchMember(p, 5);
    FillSearchMember(p, 6);
    FillSearchMember(p, 7);
    FillSearchMember(p, 8);
    FillSearchMember(p, 9);
    if p.limit.Some? {
      ReadU64RoundTrip("limit", p.limit.value);
    }
    if p.offset.Some? {
      ReadU64RoundTrip("offset", p.offset.value);
    }
    if p.fillType.Some? {
      FillTypeRoundTrip(p.fillType.value);
    }
    if p.marketType.Some? {
      MarketTypeRoundTrip(p.marketType.value);
    }
    if p.sortDirection.Some? {
      StrategyTypes.SortDirectionRoundTrip(p.sortDirection.value);
    }
  }

  /**
   * Writing a record and reading it back keeps every filter, except that an unset `limit` or
   * `offset` comes back as its default.
   */
  lemma FillSearchRoundTrip(p: FillHistorySearchParams)
    ensures FillSearchFromJson(FillSearchToJson(p)) == Success(p.(
      limit := if p.limit.Some? then p.limit else FILL_DEFAULT_LIMIT,
      offset := if p.offset.Some? then p.offset else FILL_DEFAULT_OFFSET))
  {
    FillSearchReadsFirst(p);
    FillSearchReadsRest(p);
  }

  /** So a record survives the trip unchanged exactly when its `limit` and `offset` are set. */
  lemma FillSearchRoundTripExact(p: FillHistorySearchParams)
    ensures FillSearchFromJson(FillSearchToJson(p)) == Success(p)
      <==> p.limit.Some? && p.offset.Some?
  {
    FillSearchRoundTrip(p);
  }

  /**
   * The default record writes the empty object, which reads back with `limit` 100 and
   * `offset` 0; an explicit `null` still reads as `None`.
   */
  lemma FillSearchDefaults()
    ensures FillSearchToJson(FILL_SEARCH_DEFAULT) == map[]
    ensures FillSearchFromJson(map[]) == Success(FILL_SEARCH_DEFAULT.(limit := Some(100), offset := Some(0)))
    ensures FillSearchFromJson(map["limit" := JNull, "offset" := JNull]) == Success(FILL_SEARCH_DEFAULT)
  {
    FillSearchSkipsUnset(FILL_SEARCH_DEFAULT);
    FillSearchNeverNull(FILL_SEARCH_DEFAULT);
    var o := FillSearchToJson(FILL_SEARCH_DEFAULT);
    assert o.Keys == {};
  }
}
