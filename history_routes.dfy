/**
 * The URLs of the fill-history and order-history routes. Each route pushes one `key=value`
 * piece per filter that is set, in a fixed order, and appends `?` and the pieces joined by
 * '&' to the base URL and the path, or nothing when no filter is set.
 */
module HistoryRoutes {
  import opened Wrappers
  import opened Text
  import opened Query
  import opened MarketTypes
  import StrategyTypes
  import opened HistoryTypes

  const API_FILL_HISTORY: string := "/wapi/v1/history/fills"
  const API_ORDER_HISTORY: string := "/wapi/v1/history/orders"

  // ---- Fill history ----

  /** The snake_case query keys of the fill-history route, in the order it pushes them. */
  const FILL_HISTORY_KEYS: seq<string> := ["order_id", "strategy_id", "from", "to", "symbol", "limit",
    "offset", "fill_type", "market_type", "sort_direction"]

  /** The filters as the route renders them: numbers in decimal, enumerations by wire string. */
  function FillHistoryFields(p: FillHistorySearchParams): (fs: seq<Field>)
  {
    [Field("order_id", p.orderId),
     Field("strategy_id", p.strategyId),
     Field("from", Map(p.from, ShowI64)),
     Field("to", Map(p.to, ShowI64)),
     Field("symbol", p.symbol),
     Field("limit", Map(p.limit, ShowU64)),
     Field("offset", Map(p.offset, ShowU64)),
     Field("fill_type", Map(p.fillType, FillTypeToWire)),
     Field("market_type", Map(p.marketType, MarketTypeToWire)),
     Field("sort_direction", Map(p.sortDirection, StrategyTypes.SortDirectionToWire))]
  }

  /** The URL the fill-history route requests. */
  function FillHistoryUrl(baseUrl: string, p: FillHistorySearchParams): string {
    baseUrl + API_FILL_HISTORY + Encode(FillHistoryFields(p))
  }

  method GetFillHistoryUrl(baseUrl: string, p: FillHistorySearchParams) returns (url: string)
    ensures url == FillHistoryUrl(baseUrl, p)
  {
    var queryVec: seq<string> := [];
    ghost var all := FillHistoryFields(p);
    assert all[0] == Field("order_id", p.orderId);
    assert all[1] == Field("strategy_id", p.strategyId);
    assert all[2] == Field("from", Map(p.from, ShowI64));
    assert all[3] == Field("to", Map(p.to, ShowI64));
    assert all[4] == Field("symbol", p.symbol);
    assert all[5] == Field("limit", Map(p.limit, ShowU64));
    assert all[6] == Field("offset", Map(p.offset, ShowU64));
    assert all[7] == Field("fill_type", Map(p.fillType, FillTypeToWire));
    assert all[8] == Field("market_type", Map(p.marketType, MarketTypeToWire));
    assert all[9] == Field("sort_direction", Map(p.sortDirection, StrategyTypes.SortDirectionToWire));
    queryVec := PushIfSet(queryVec, "order_id", p.orderId, all, 0);
    queryVec := PushIfSet(queryVec, "strategy_id", p.strategyId, all, 1);
    queryVec := PushIfSet(queryVec, "from", Map(p.from, ShowI64), all, 2);
    queryVec := PushIfSet(queryVec, "to", Map(p.to, ShowI64), all, 3);
    queryVec := PushIfSet(queryVec, "symbol", p.symbol, all, 4);
    queryVec := PushIfSet(queryVec, "limit", Map(p.limit, ShowU64), all, 5);
    queryVec := PushIfSet(queryVec, "offset", Map(p.offset, ShowU64), all, 6);
    queryVec := PushIfSet(queryVec, "fill_type", Map(p.fillType, FillTypeToWire), all, 7);
    queryVec := PushIfSet(queryVec, "market_type", Map(p.marketType, MarketTypeToWire), all, 8);
    queryVec := PushIfSet(queryVec, "sort_direction", Map(p.sortDirection, StrategyTypes.SortDirectionToWire), all, 9);
    PushedAll(queryVec, all);
    var queryString := if queryVec == [] then "" else "?" + Join(queryVec, '&');
    url := baseUrl + API_FILL_HISTORY + queryString;
  }

  /** The free-text filters (`order_id`, `strategy_id`, `symbol`) do not contain `c`. */
  predicate FillTextFree(p: FillHistorySearchParams, c: char) {
    (p.orderId.Some? ==> c !in p.orderId.value)
    && (p.strategyId.Some? ==> c !in p.strategyId.value)
    && (p.symbol.Some? ==> c !in p.symbol.value)
  }

  lemma FillHistoryKeyTable()
    ensures Distinct(FILL_HISTORY_KEYS)
    ensures forall i :: 0 <= i < |FILL_HISTORY_KEYS| ==> GoodKey(FILL_HISTORY_KEYS[i])
  {
  }

  lemma FillHistoryKeysGood(p: FillHistorySearchParams)
    ensures FieldKeys(FillHistoryFields(p)) == FILL_HISTORY_KEYS
    ensures DistinctKeys(FillHistoryFields(p)) && GoodKeys(FillHistoryFields(p))
  {
    var fs := FillHistoryFields(p);
    assert FieldKeys(fs) == FILL_HISTORY_KEYS;
    FillHistoryKeyTable();
    KeyTable(fs, FILL_HISTORY_KEYS);
  }

  /** Numbers and wire strings never contain a separator, so only the free text can. */
  lemma FillHistoryValuesFree(p: FillHistorySearchParams, c: char)
    requires c == '&' || c == '?'
    requires FillTextFree(p, c)
    ensures ValuesFree(FillHistoryFields(p), c)
  {
    var fs := FillHistoryFields(p);
    forall i | 0 <= i < |fs| && fs[i].value.Some? ensures c !in fs[i].value.value {
      if i == 2 {
        IntToStringHasNo(p.from.value, c);
      } else if i == 3 {
        IntToStringHasNo(p.to.value, c);
      } else if i == 5 {
        DigitsHaveNo(NatToString(p.limit.value), c);
      } else if i == 6 {
        DigitsHaveNo(NatToString(p.offset.value), c);
      } else if i == 7 {
        FillTypeWireHasNo(p.fillType.value, c);
      } else if i == 8 {
        MarketTypeWireHasNo(p.marketType.value, c);
      } else if i == 9 {
        StrategyTypes.SortDirectionWireHasNo(p.sortDirection.value, c);
      }
    }
  }

  /** The URL is the bare path, with no '?', exactly when no filter is set. */
  lemma FillHistoryBareUrl(baseUrl: string, p: FillHistorySearchParams)
    ensures FillHistoryUrl(baseUrl, p) == baseUrl + API_FILL_HISTORY <==> p == FILL_SEARCH_DEFAULT
  {
    var fs := FillHistoryFields(p);
    EncodeEmpty(fs);
    assert |FillHistoryUrl(baseUrl, p)| == |baseUrl + API_FILL_HISTORY| + |Encode(fs)|;
    if p != FILL_SEARCH_DEFAULT {
      var i :| 0 <= i < |fs| && fs[i].value.Some? by {
        if p.orderId.Some? { assert fs[0].value.Some?; }
        else if p.strategyId.Some? { assert fs[1].value.Some?; }
        else if p.from.Some? { assert fs[2].value.Some?; }
        else if p.to.Some? { assert fs[3].value.Some?; }
        else if p.symbol.Some? { assert fs[4].value.Some?; }
        else if p.limit.Some? { assert fs[5].value.Some?; }
        else if p.offset.Some? { assert fs[6].value.Some?; }
        else if p.fillType.Some? { assert fs[7].value.Some?; }
        else if p.marketType.Some? { assert fs[8].value.Some?; }
        else { assert fs[9].value.Some?; }
      }
    }
  }

  /**
   * With a filter set, the query is a single leading '?' and the pieces separated by '&',
   * one '&' fewer than there are set filters, none leading or trailing. Values are sent
   * unescaped, so this holds when the free-text filters contain neither '?' nor '&'.
   */
  lemma FillHistoryQueryShape(p: FillHistorySearchParams)
    requires p != FILL_SEARCH_DEFAULT
    requires FillTextFree(p, '&') && FillTextFree(p, '?')
    ensures var fs := FillHistoryFields(p); var q := Encode(fs);
      && |q| >= 2 && q[0] == '?' && Count(q, '?') == 1
      && Count(q, '&') == NumSet(fs) - 1
      && q[1] != '&' && q[|q| - 1] != '&'
  {
    var fs := FillHistoryFields(p);
    FillHistoryBareUrl("", p);
    FillHistoryKeysGood(p);
    FillHistoryValuesFree(p, '&');
    FillHistoryValuesFree(p, '?');
    QueryShape(fs);
  }

  /** Each set filter gives exactly one pair, and an unset one none: no default is filled in. */
  lemma FillHistoryOnePairPerFilter(p: FillHistorySearchParams)
    ensures var ps := SetPairs(FillHistoryFields(p));
      && Occurrences(ps, "order_id") == (if p.orderId.Some? then 1 else 0)
      && Occurrences(ps, "strategy_id") == (if p.strategyId.Some? then 1 else 0)
      && Occurrences(ps, "from") == (if p.from.Some? then 1 else 0)
      && Occurrences(ps, "to") == (if p.to.Some? then 1 else 0)
      && Occurrences(ps, "symbol") == (if p.symbol.Some? then 1 else 0)
      && Occurrences(ps, "limit") == (if p.limit.Some? then 1 else 0)
      && Occurrences(ps, "offset") == (if p.offset.Some? then 1 else 0)
      && Occurrences(ps, "fill_type") == (if p.fillType.Some? then 1 else 0)
      && Occurrences(ps, "market_type") == (if p.marketType.Some? then 1 else 0)
      && Occurrences(ps, "sort_direction") == (if p.sortDirection.Some? then 1 else 0)
  {
    var fs := FillHistoryFields(p);
    FillHistoryKeysGood(p);
    SetPairsOccurrences(fs, 0);
    SetPairsOccurrences(fs, 1);
    SetPairsOccurrences(fs, 2);
    SetPairsOccurrences(fs, 3);
    SetPairsOccurrences(fs, 4);
    SetPairsOccurrences(fs, 5);
    SetPairsOccurrences(fs, 6);
    SetPairsOccurrences(fs, 7);
    SetPairsOccurrences(fs, 8);
    SetPairsOccurrences(fs, 9);
  }

  /** Whichever filters are set, their pairs follow the route's fixed key order. */
  lemma FillHistoryKeyOrder(p: FillHistorySearchParams)
    ensures IsSubsequence(Keys(SetPairs(FillHistoryFields(p))), FILL_HISTORY_KEYS)
  {
    FillHistoryKeysGood(p);
    KeysInFieldOrder(FillHistoryFields(p));
  }

  /** A server splitting the query reads back exactly the pairs of the set filters, in order. */
  lemma FillHistoryServerReads(p: FillHistorySearchParams)
    requires FillTextFree(p, '&')
    ensures DecodeQuery(Encode(FillHistoryFields(p))) == SetPairs(FillHistoryFields(p))
  {
    FillHistoryKeysGood(p);
    FillHistoryValuesFree(p, '&');
    DecodeEncode(FillHistoryFields(p));
  }

  lemma SymbolLimitPieces()
    ensures Encode(FillHistoryFields(FILL_SEARCH_DEFAULT.(symbol := Some("SOL_USDC"), limit := Some(50))))
      == "?" + "symbol" + "=" + "SOL_USDC" + "&" + "limit" + "=" + "50"
  {
    var fs := FillHistoryFields(FILL_SEARCH_DEFAULT.(symbol := Some("SOL_USDC"), limit := Some(50)));
    assert NatToString(50) == "50";
    assert fs[4] == Field("symbol", Some("SOL_USDC")) && fs[5] == Field("limit", Some("50"));
    assert forall k :: 0 <= k < |fs| && k != 4 && k != 5 ==> fs[k].value.None?;
    EncodeTwo(fs, 4, 5);
  }

  /** Only `symbol` and `limit` set: `?symbol=SOL_USDC&limit=50`. */
  lemma TestFillHistorySymbolLimit(baseUrl: string)
    ensures FillHistoryUrl(baseUrl, FILL_SEARCH_DEFAULT.(symbol := Some("SOL_USDC"), limit := Some(50)))
      == baseUrl + "/wapi/v1/history/fills" + "?symbol=SOL_USDC&limit=50"
  {
    SymbolLimitPieces();
    SymbolLimitText();
  }

  lemma SymbolLimitText()
    ensures "?" + "symbol" + "=" + "SOL_USDC" + "&" + "limit" + "=" + "50" == "?symbol=SOL_USDC&limit=50"
  {
  }

  lemma EnumPieces()
    ensures Encode(FillHistoryFields(FILL_SEARCH_DEFAULT.(marketType := Some(Perp), sortDirection := Some(StrategyTypes.Desc))))
      == "?" + "market_type" + "=" + "PERP" + "&" + "sort_direction" + "=" + "Desc"
  {
    var fs := FillHistoryFields(FILL_SEARCH_DEFAULT.(marketType := Some(Perp), sortDirection := Some(StrategyTypes.Desc)));
    assert fs[8] == Field("market_type", Some("PERP")) && fs[9] == Field("sort_direction", Some("Desc"));
    assert forall k :: 0 <= k < |fs| && k != 8 && k != 9 ==> fs[k].value.None?;
    EncodeTwo(fs, 8, 9);
  }

  /** Enumerations are sent by wire string. */
  lemma TestFillHistoryEnums(baseUrl: string)
    ensures FillHistoryUrl(baseUrl, FILL_SEARCH_DEFAULT.(marketType := Some(Perp), sortDirection := Some(StrategyTypes.Desc)))
      == baseUrl + "/wapi/v1/history/fills" + "?market_type=PERP&sort_direction=Desc"
  {
    EnumPieces();
    EnumText();
  }

  lemma EnumText()
    ensures "?" + "market_type" + "=" + "PERP" + "&" + "sort_direction" + "=" + "Desc"
      == "?market_type=PERP&sort_direction=Desc"
  {
  }

  // ---- Order history ----

  /**
   * The order-history search record. Its declaration is not part of this model; these are
   * the seven filters the route reads, with the types the fill-history record gives them.
   */
  datatype OrderHistorySearchParams = OrderHistorySearchParams(
    orderId: Option<string>,
    strategyId: Option<string>,
    symbol: Option<string>,
    limit: Option<UInt64>,
    offset: Option<UInt64>,
    marketType: Option<MarketType>,
    sortDirection: Option<StrategyTypes.SortDirection>)

  const ORDER_SEARCH_DEFAULT := OrderHistorySearchParams(None, None, None, None, None, None, None)

  /** The snake_case query keys of the order-history route, in the order it pushes them. */
  const ORDER_HISTORY_KEYS: seq<string> := ["order_id", "strategy_id", "symbol", "limit", "offset",
    "market_type", "sort_direction"]

  function OrderHistoryFields(p: OrderHistorySearchParams): (fs: seq<Field>)
  {
    [Field("order_id", p.orderId),
     Field("strategy_id", p.strategyId),
     Field("symbol", p.symbol),
     Field("limit", Map(p.limit, ShowU64)),
     Field("offset", Map(p.offset, ShowU64)),
     Field("market_type", Map(p.marketType, MarketTypeToWire)),
     Field("sort_direction", Map(p.sortDirection, StrategyTypes.SortDirectionToWire))]
  }

  /** The URL the order-history route requests. */
  function OrderHistoryUrl(baseUrl: string, p: OrderHistorySearchParams): string {
    baseUrl + API_ORDER_HISTORY + Encode(OrderHistoryFields(p))
  }

  method GetOrderHistoryUrl(baseUrl: string, p: OrderHistorySearchParams) returns (url: string)
    ensures url == OrderHistoryUrl(baseUrl, p)
  {
    var queryVec: seq<string> := [];
    ghost var all := OrderHistoryFields(p);
    assert all[0] == Field("order_id", p.orderId);
    assert all[1] == Field("strategy_id", p.strategyId);
    assert all[2] == Field("symbol", p.symbol);
    assert all[3] == Field("limit", Map(p.limit, ShowU64));
    assert all[4] == Field("offset", Map(p.offset, ShowU64));
    assert all[5] == Field("market_type", Map(p.marketType, MarketTypeToWire));
    assert all[6] == Field("sort_direction", Map(p.sortDirection, StrategyTypes.SortDirectionToWire));
    queryVec := PushIfSet(queryVec, "order_id", p.orderId, all, 0);
    queryVec := PushIfSet(queryVec, "strategy_id", p.strategyId, all, 1);
    queryVec := PushIfSet(queryVec, "symbol", p.symbol, all, 2);
    queryVec := PushIfSet(queryVec, "limit", Map(p.limit, ShowU64), all, 3);
    queryVec := PushIfSet(queryVec, "offset", Map(p.offset, ShowU64), all, 4);
    queryVec := PushIfSet(queryVec, "market_type", Map(p.marketType, MarketTypeToWire), all, 5);
    queryVec := PushIfSet(queryVec, "sort_direction", Map(p.sortDirection, StrategyTypes.SortDirectionToWire), all, 6);
    PushedAll(queryVec, all);
    var queryString := if queryVec == [] then "" else "?" + Join(queryVec, '&');
    url := baseUrl + API_ORDER_HISTORY + queryString;
  }

  predicate OrderTextFree(p: OrderHistorySearchParams, c: char) {
    (p.orderId.Some? ==> c !in p.orderId.value)
    && (p.strategyId.Some? ==> c !in p.strategyId.value)
    && (p.symbol.Some? ==> c !in p.symbol.value)
  }

  lemma OrderHistoryKeyTable()
    ensures Distinct(ORDER_HISTORY_KEYS)
    ensures forall i :: 0 <= i < |ORDER_HISTORY_KEYS| ==> GoodKey(ORDER_HISTORY_KEYS[i])
    ensures "from" !in ORDER_HISTORY_KEYS && "to" !in ORDER_HISTORY_KEYS && "fill_type" !in ORDER_HISTORY_KEYS
  {
  }

  lemma OrderHistoryKeysGood(p: OrderHistorySearchParams)
    ensures FieldKeys(OrderHistoryFields(p)) == ORDER_HISTORY_KEYS
    ensures DistinctKeys(OrderHistoryFields(p)) && GoodKeys(OrderHistoryFields(p))
  {
    var fs := OrderHistoryFields(p);
    assert FieldKeys(fs) == ORDER_HISTORY_KEYS;
    OrderHistoryKeyTable();
    KeyTable(fs, ORDER_HISTORY_KEYS);
  }

  lemma OrderHistoryValuesFree(p: OrderHistorySearchParams, c: char)
    requires c == '&' || c == '?'
    requires OrderTextFree(p, c)
    ensures ValuesFree(OrderHistoryFields(p), c)
  {
    var fs := OrderHistoryFields(p);
    forall i | 0 <= i < |fs| && fs[i].value.Some? ensures c !in fs[i].value.value {
      if i == 3 {
        DigitsHaveNo(NatToString(p.limit.value), c);
      } else if i == 4 {
        DigitsHaveNo(NatToString(p.offset.value), c);
      } else if i == 5 {
        MarketTypeWireHasNo(p.marketType.value, c);
      } else if i == 6 {
        StrategyTypes.SortDirectionWireHasNo(p.sortDirection.value, c);
      }
    }
  }

  /** The URL is the bare path, with no '?', exactly when no filter is set. */
  lemma OrderHistoryBareUrl(baseUrl: string, p: OrderHistorySearchParams)
    ensures OrderHistoryUrl(baseUrl, p) == baseUrl + API_ORDER_HISTORY <==> p == ORDER_SEARCH_DEFAULT
  {
    var fs := OrderHistoryFields(p);
    EncodeEmpty(fs);
    assert |OrderHistoryUrl(baseUrl, p)| == |baseUrl + API_ORDER_HISTORY| + |Encode(fs)|;
    if p != ORDER_SEARCH_DEFAULT {
      var i :| 0 <= i < |fs| && fs[i].value.Some? by {
        if p.orderId.Some? { assert fs[0].value.Some?; }
        else if p.strategyId.Some? { assert fs[1].value.Some?; }
        else if p.symbol.Some? { assert fs[2].value.Some?; }
        else if p.limit.Some? { assert fs[3].value.Some?; }
        else if p.offset.Some? { assert fs[4].value.Some?; }
        else if p.marketType.Some? { assert fs[5].value.Some?; }
        else { assert fs[6].value.Some?; }
      }
    }
  }

  /** A non-empty query has one leading '?' and '&' only between pairs. */
  lemma OrderHistoryQueryShape(p: OrderHistorySearchParams)
    requires p != ORDER_SEARCH_DEFAULT
    requires OrderTextFree(p, '&') && OrderTextFree(p, '?')
    ensures var fs := OrderHistoryFields(p); var q := Encode(fs);
      && |q| >= 2 && q[0] == '?' && Count(q, '?') == 1
      && Count(q, '&') == NumSet(fs) - 1
      && q[1] != '&' && q[|q| - 1] != '&'
  {
    var fs := OrderHistoryFields(p);
    OrderHistoryBareUrl("", p);
    OrderHistoryKeysGood(p);
    OrderHistoryValuesFree(p, '&');
    OrderHistoryValuesFree(p, '?');
    QueryShape(fs);
  }

  /**
   * One pair per set filter and none per unset one; `from`, `to` and `fill_type` are never
   * sent by this route.
   */
  lemma OrderHistoryOnePairPerFilter(p: OrderHistorySearchParams)
    ensures var ps := SetPairs(OrderHistoryFields(p));
      && Occurrences(ps, "order_id") == (if p.orderId.Some? then 1 else 0)
      && Occurrences(ps, "strategy_id") == (if p.strategyId.Some? then 1 else 0)
      && Occurrences(ps, "symbol") == (if p.symbol.Some? then 1 else 0)
      && Occurrences(ps, "limit") == (if p.limit.Some? then 1 else 0)
      && Occurrences(ps, "offset") == (if p.offset.Some? then 1 else 0)
      && Occurrences(ps, "market_type") == (if p.marketType.Some? then 1 else 0)
      && Occurrences(ps, "sort_direction") == (if p.sortDirection.Some? then 1 else 0)
      && Occurrences(ps, "from") == 0 && Occurrences(ps, "to") == 0
      && Occurrences(ps, "fill_type") == 0
  {
    var fs := OrderHistoryFields(p);
    OrderHistoryKeysGood(p);
    OrderHistoryKeyTable();
    SetPairsOccurrences(fs, 0);
    SetPairsOccurrences(fs, 1);
    SetPairsOccurrences(fs, 2);
    SetPairsOccurrences(fs, 3);
    SetPairsOccurrences(fs, 4);
    SetPairsOccurrences(fs, 5);
    SetPairsOccurrences(fs, 6);
    AbsentKey(fs, "from");
    AbsentKey(fs, "to");
    AbsentKey(fs, "fill_type");
  }

  lemma OrderHistoryKeyOrder(p: OrderHistorySearchParams)
    ensures IsSubsequence(Keys(SetPairs(OrderHistoryFields(p))), ORDER_HISTORY_KEYS)
  {
    OrderHistoryKeysGood(p);
    KeysInFieldOrder(OrderHistoryFields(p));
  }

  lemma OrderHistoryServerReads(p: OrderHistorySearchParams)
    requires OrderTextFree(p, '&')
    ensures DecodeQuery(Encode(OrderHistoryFields(p))) == SetPairs(OrderHistoryFields(p))
  {
    OrderHistoryKeysGood(p);
    OrderHistoryValuesFree(p, '&');
    DecodeEncode(OrderHistoryFields(p));
  }
}
