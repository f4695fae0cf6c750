/**
 * Strategy history: the search record with its serde behaviour (unset filters are not written;
 * an absent `limit` or `offset` reads as its default), and the sort-direction, cancel-reason
 * and status wire tables, all PascalCase.
 */
module StrategyTypes {
  import opened Wrappers
  import opened Text
  import opened Json
  import opened MarketTypes

  // ---- Sort direction ----

  datatype SortDirection = Asc | Desc

  function SortDirectionToWire(d: SortDirection): string {
    match d
    case Asc => "Asc"
    case Desc => "Desc"
  }

  /** Case-sensitive; a string outside the table is rejected, never defaulted. */
  function SortDirectionFromWire(s: string): (r: Option<SortDirection>)
    ensures forall d :: r == Some(d) <==> SortDirectionToWire(d) == s
  {
    if s == "Asc" then Some(Asc)
    else if s == "Desc" then Some(Desc)
    else None
  }

  lemma SortDirectionRoundTrip(d: SortDirection)
    ensures SortDirectionFromWire(SortDirectionToWire(d)) == Some(d)
  {
  }

  lemma SortDirectionInjective(a: SortDirection, b: SortDirection)
    requires SortDirectionToWire(a) == SortDirectionToWire(b)
    ensures a == b
  {
    assert SortDirectionFromWire(SortDirectionToWire(a)) == Some(b);
  }

  lemma SortDirectionRejectsOtherCase()
    ensures SortDirectionFromWire("asc") == None && SortDirectionFromWire("DESC") == None
  {
  }
  lemma SortDirectionWireHasNo(d: SortDirection, c: char)
    requires c == '&' || c == '?'
    ensures c !in SortDirectionToWire(d)
  {
  }


  // ---- Why a strategy was cancelled ----

  datatype StrategyCancelReason =
    | Expired
    | FillOrKill
    | InsufficientBorrowableQuantity
    | InsufficientFunds
    | InsufficientLiquidity
    | InvalidPrice
    | InvalidQuantity
    | InsufficientMargin
    | Liquidation
    | PriceOutOfBounds
    | ReduceOnlyNotReduced
    | SelfTradePrevention
    | Unknown
    | UserPermissions

  function StrategyCancelReasonToWire(r: StrategyCancelReason): string {
    match r
    case Expired => "Expired"
    case FillOrKill => "FillOrKill"
    case InsufficientBorrowableQuantity => "InsufficientBorrowableQuantity"
    case InsufficientFunds => "InsufficientFunds"
    case InsufficientLiquidity => "InsufficientLiquidity"
    case InvalidPrice => "InvalidPrice"
    case InvalidQuantity => "InvalidQuantity"
    case InsufficientMargin => "InsufficientMargin"
    case Liquidation => "Liquidation"
    case PriceOutOfBounds => "PriceOutOfBounds"
    case ReduceOnlyNotReduced => "ReduceOnlyNotReduced"
    case SelfTradePrevention => "SelfTradePrevention"
    case Unknown => "Unknown"
    case UserPermissions => "UserPermissions"
  }

  function StrategyCancelReasonFromWire(s: string): (r: Option<StrategyCancelReason>)
    ensures forall c :: r == Some(c) <==> StrategyCancelReasonToWire(c) == s
  {
    if s == "Expired" then Some(Expired)
    else if s == "FillOrKill" then Some(FillOrKill)
    else if s == "InsufficientBorrowableQuantity" then Some(InsufficientBorrowableQuantity)
    else if s == "InsufficientFunds" then Some(InsufficientFunds)
    else if s == "InsufficientLiquidity" then Some(InsufficientLiquidity)
    else if s == "InvalidPrice" then Some(InvalidPrice)
    else if s == "InvalidQuantity" then Some(InvalidQuantity)
    else if s == "InsufficientMargin" then Some(InsufficientMargin)
    else if s == "Liquidation" then Some(Liquidation)
    else if s == "PriceOutOfBounds" then Some(PriceOutOfBounds)
    else if s == "ReduceOnlyNotReduced" then Some(ReduceOnlyNotReduced)
    else if s == "SelfTradePrevention" then Some(SelfTradePrevention)
    else if s == "Unknown" then Some(Unknown)
    else if s == "UserPermissions" then Some(UserPermissions)
    else None
  }

  lemma StrategyCancelReasonRoundTrip(r: StrategyCancelReason)
    ensures StrategyCancelReasonFromWire(StrategyCancelReasonToWire(r)) == Some(r)
  {
  }

  /** The fourteen wire strings are pairwise distinct. */
  lemma StrategyCancelReasonInjective(a: StrategyCancelReason, b: StrategyCancelReason)
    requires StrategyCancelReasonToWire(a) == StrategyCancelReasonToWire(b)
    ensures a == b
  {
    assert StrategyCancelReasonFromWire(StrategyCancelReasonToWire(a)) == Some(b);
  }

  lemma StrategyCancelReasonRejectsOtherCase()
    ensures StrategyCancelReasonFromWire("reduceOnlyNotReduced") == None
    ensures StrategyCancelReasonFromWire("INSUFFICIENT_FUNDS") == None
  {
  }

  // ---- Strategy status ----

  datatype StrategyStatus = Running | Completed | Cancelled | Terminated

  function StrategyStatusToWire(s: StrategyStatus): string {
    match s
    case Running => "Running"
    case Completed => "Completed"
    case Cancelled => "Cancelled"
    case Terminated => "Terminated"
  }

  function StrategyStatusFromWire(w: string): (r: Option<StrategyStatus>)
    ensures forall s :: r == Some(s) <==> StrategyStatusToWire(s) == w
  {
    if w == "Running" then Some(Running)
    else if w == "Completed" then Some(Completed)
    else if w == "Cancelled" then Some(Cancelled)
    else if w == "Terminated" then Some(Terminated)
    else None
  }

  lemma StrategyStatusRoundTrip(s: StrategyStatus)
    ensures StrategyStatusFromWire(StrategyStatusToWire(s)) == Some(s)
  {
  }

  lemma StrategyStatusInjective(a: StrategyStatus, b: StrategyStatus)
    requires StrategyStatusToWire(a) == StrategyStatusToWire(b)
    ensures a == b
  {
    assert StrategyStatusFromWire(StrategyStatusToWire(a)) == Some(b);
  }

  lemma StrategyStatusRejectsOtherCase()
    ensures StrategyStatusFromWire("running") == None && StrategyStatusFromWire("Canceled") == None
  {
  }

  // ---- The strategy-history search record ----

  datatype StrategyHistorySearchParams = StrategyHistorySearchParams(
    strategyId: Option<string>,
    symbol: Option<string>,
    limit: Option<UInt64>,
    offset: Option<UInt64>,
    marketType: Option<MarketType>,
    sortDirection: Option<SortDirection>)

  /** What the derived `Default` gives: every filter unset, `limit` and `offset` included. */
  const STRATEGY_SEARCH_DEFAULT := StrategyHistorySearchParams(None, None, None, None, None, None)

  /** The defaults applied when a serialised record lacks `limit` or `offset`. */
  const STRATEGY_DEFAULT_LIMIT: Option<UInt64> := Some(100)
  const STRATEGY_DEFAULT_OFFSET: Option<UInt64> := Some(0)

  /** The camelCase member names, in field order. */
  const STRATEGY_SEARCH_KEYS: seq<string> := ["strategyId", "symbol", "limit", "offset", "marketType", "sortDirection"]

  lemma StrategySearchKeysDistinct()
    ensures Distinct(STRATEGY_SEARCH_KEYS)
  {
  }

  /**
   * Each field is `skip_serializing_if = "Option::is_none"`: `None` gives no member at all,
   * `Some(x)` the member with `x` written by the field's own writer.
   */
  function StrategySearchValues(p: StrategyHistorySearchParams): (vs: seq<Option<JsonValue>>)
    ensures |vs| == |STRATEGY_SEARCH_KEYS|
  {
    [Map(p.strategyId, s => JString(s)),
     Map(p.symbol, s => JString(s)),
     Map(p.limit, U64Value),
     Map(p.offset, U64Value),
     Map(p.marketType, t => JString(MarketTypeToWire(t))),
     Map(p.sortDirection, d => JString(SortDirectionToWire(d)))]
  }

  function StrategySearchToJson(p: StrategyHistorySearchParams): Object {
    ObjectOfSet(STRATEGY_SEARCH_KEYS, StrategySearchValues(p))
  }

  function StrategySearchFromJson(o: Object): Result<StrategyHistorySearchParams, DecodeError> {
    var strategyId :- OptionalString(o, "strategyId");
    var symbol :- OptionalString(o, "symbol");
    var limit :- OptionalU64Or(o, "limit", STRATEGY_DEFAULT_LIMIT);
    var offset :- OptionalU64Or(o, "offset", STRATEGY_DEFAULT_OFFSET);
    var marketType :- OptionalEnum(o, "marketType", MarketTypeFromWire);
    var sortDirection :- OptionalEnum(o, "sortDirection", SortDirectionFromWire);
    Success(StrategyHistorySearchParams(strategyId, symbol, limit, offset, marketType, sortDirection))
  }

  lemma StrategySearchMember(p: StrategyHistorySearchParams, i: nat)
    requires i < |STRATEGY_SEARCH_KEYS|
    ensures var o, k, v := StrategySearchToJson(p), STRATEGY_SEARCH_KEYS[i], StrategySearchValues(p)[i];
      (k in o <==> v.Some?) && (v.Some? ==> o[k] == v.value)
  {
    StrategySearchKeysDistinct();
    ObjectOfSetLookup(STRATEGY_SEARCH_KEYS, StrategySearchValues(p), i);
  }

  /** An unset filter writes no member, and a set one writes its member. */
  lemma StrategySearchSkipsUnset(p: StrategyHistorySearchParams)
    ensures var o := StrategySearchToJson(p);
      && ("strategyId" in o <==> p.strategyId.Some?)
      && ("symbol" in o <==> p.symbol.Some?)
      && ("limit" in o <==> p.limit.Some?)
      && ("offset" in o <==> p.offset.Some?)
      && ("marketType" in o <==> p.marketType.Some?)
      && ("sortDirection" in o <==> p.sortDirection.Some?)
  {
    StrategySearchMember(p, 0);
    StrategySearchMember(p, 1);
    StrategySearchMember(p, 2);
    StrategySearchMember(p, 3);
    StrategySearchMember(p, 4);
    StrategySearchMember(p, 5);
  }

  /** Only the record's own members are written, and none of them as `null`. */
  lemma StrategySearchNeverNull(p: StrategyHistorySearchParams)
    ensures var o := StrategySearchToJson(p);
      forall k :: k in o ==> k in STRATEGY_SEARCH_KEYS && !o[k].JNull?
  {
    ObjectOfSetNoNull(STRATEGY_SEARCH_KEYS, StrategySearchValues(p));
  }

  /**
   * Writing a record and reading it back keeps every filter, except that an unset `limit` or
   * `offset` comes back as its default.
   */
  /** Every member of the written object reads back as its field, `limit`/`offset` defaults aside. */
  lemma StrategySearchReads(p: StrategyHistorySearchParams)
    ensures var o := StrategySearchToJson(p);
      && OptionalString(o, "strategyId") == Success(p.strategyId)
      && OptionalString(o, "symbol") == Success(p.symbol)
      && OptionalU64Or(o, "limit", STRATEGY_DEFAULT_LIMIT) == Success(if p.limit.Some? then p.limit else STRATEGY_DEFAULT_LIMIT)
      && OptionalU64Or(o, "offset", STRATEGY_DEFAULT_OFFSET) == Success(if p.offset.Some? then p.offset else STRATEGY_DEFAULT_OFFSET)
      && OptionalEnum(o, "marketType", MarketTypeFromWire) == Success(p.marketType)
      && OptionalEnum(o, "sortDirection", SortDirectionFromWire) == Success(p.sortDirection)
  {
    StrategySearchMember(p, 0);
    StrategySearchMember(p, 1);
    StrategySearchMember(p, 2);
    StrategySearchMember(p, 3);
    StrategySearchMember(p, 4);
    StrategySearchMember(p, 5);
    if p.limit.Some? {
      ReadU64RoundTrip("limit", p.limit.value);
    }
    if p.offset.Some? {
      ReadU64RoundTrip("offset", p.offset.value);
    }
    if p.marketType.Some? {
      MarketTypeRoundTrip(p.marketType.value);
    }
    if p.sortDirection.Some? {
      SortDirectionRoundTrip(p.sortDirection.value);
    }
  }

  lemma StrategySearchRoundTrip(p: StrategyHistorySearchParams)
    ensures StrategySearchFromJson(StrategySearchToJson(p)) == Success(p.(
      limit := if p.limit.Some? then p.limit else STRATEGY_DEFAULT_LIMIT,
      offset := if p.offset.Some? then p.offset else STRATEGY_DEFAULT_OFFSET))
  {
    StrategySearchReads(p);
  }

  /** So a record survives the trip unchanged exactly when its `limit` and `offset` are set. */
  lemma StrategySearchRoundTripExact(p: StrategyHistorySearchParams)
    ensures StrategySearchFromJson(StrategySearchToJson(p)) == Success(p)
      <==> p.limit.Some? && p.offset.Some?
  {
    StrategySearchRoundTrip(p);
  }

  /**
   * The default record writes the empty object, which reads back with `limit` 100 and
   * `offset` 0; an explicit `null` still reads as `None`.
   */
  lemma StrategySearchDefaults()
    ensures StrategySearchToJson(STRATEGY_SEARCH_DEFAULT) == map[]
    ensures StrategySearchFromJson(map[]) == Success(STRATEGY_SEARCH_DEFAULT.(limit := Some(100), offset := Some(0)))
    ensures StrategySearchFromJson(map["limit" := JNull, "offset" := JNull]) == Success(STRATEGY_SEARCH_DEFAULT)
  {
    StrategySearchSkipsUnset(STRATEGY_SEARCH_DEFAULT);
    StrategySearchNeverNull(STRATEGY_SEARCH_DEFAULT);
    var o := StrategySearchToJson(STRATEGY_SEARCH_DEFAULT);
    assert o.Keys == {};
  }
}
