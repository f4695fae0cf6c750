/**
 * The URL of the strategy-history route: the same push-then-join scheme as the history
 * routes, over the six strategy filters.
 */
module StrategyRoutes {
  import opened Wrappers
  import opened Text
  import opened Query
  import opened MarketTypes
  import opened StrategyTypes

  const API_STRATEGY_HISTORY: string := "/wapi/v1/history/strategies"

  /** The snake_case query keys of the strategy-history route, in the order it pushes them. */
  const STRATEGY_HISTORY_KEYS: seq<string> := ["strategy_id", "symbol", "limit", "offset",
    "market_type", "sort_direction"]

  function StrategyHistoryFields(p: StrategyHistorySearchParams): (fs: seq<Field>)
  {
    [Field("strategy_id", p.strategyId),
     Field("symbol", p.symbol),
     Field("limit", Map(p.limit, ShowU64)),
     Field("offset", Map(p.offset, ShowU64)),
     Field("market_type", Map(p.marketType, MarketTypeToWire)),
     Field("sort_direction", Map(p.sortDirection, SortDirectionToWire))]
  }

  /** The URL the strategy-history route requests. */
  function StrategyHistoryUrl(baseUrl: string, p: StrategyHistorySearchParams): string {
    baseUrl + API_STRATEGY_HISTORY + Encode(StrategyHistoryFields(p))
  }

  method GetStrategyHistoryUrl(baseUrl: string, p: StrategyHistorySearchParams) returns (url: string)
    ensures url == StrategyHistoryUrl(baseUrl, p)
  {
    var queryVec: seq<string> := [];
    ghost var all := StrategyHistoryFields(p);
    assert all[0] == Field("strategy_id", p.strategyId);
    assert all[1] == Field("symbol", p.symbol);
    assert all[2] == Field("limit", Map(p.limit, ShowU64));
    assert all[3] == Field("offset", Map(p.offset, ShowU64));
    assert all[4] == Field("market_type", Map(p.marketType, MarketTypeToWire));
    assert all[5] == Field("sort_direction", Map(p.sortDirection, SortDirectionToWire));
    queryVec := PushIfSet(queryVec, "strategy_id", p.strategyId, all, 0);
    queryVec := PushIfSet(queryVec, "symbol", p.symbol, all, 1);
    queryVec := PushIfSet(queryVec, "limit", Map(p.limit, ShowU64), all, 2);
    queryVec := PushIfSet(queryVec, "offset", Map(p.offset, ShowU64), all, 3);
    queryVec := PushIfSet(queryVec, "market_type", Map(p.marketType, MarketTypeToWire), all, 4);
    queryVec := PushIfSet(queryVec, "sort_direction", Map(p.sortDirection, SortDirectionToWire), all, 5);
    PushedAll(queryVec, all);
    var queryString := if queryVec == [] then "" else "?" + Join(queryVec, '&');
    url := baseUrl + API_STRATEGY_HISTORY + queryString;
  }

  /** The free-text filters (`strategy_id`, `symbol`) do not contain `c`. */
  predicate StrategyTextFree(p: StrategyHistorySearchParams, c: char) {
    (p.strategyId.Some? ==> c !in p.strategyId.value)
    && (p.symbol.Some? ==> c !in p.symbol.value)
  }

  lemma StrategyHistoryKeyTable()
    ensures Distinct(STRATEGY_HISTORY_KEYS)
    ensures forall i :: 0 <= i < |STRATEGY_HISTORY_KEYS| ==> GoodKey(STRATEGY_HISTORY_KEYS[i])
  {
  }

  lemma StrategyHistoryKeysGood(p: StrategyHistorySearchParams)
    ensures FieldKeys(StrategyHistoryFields(p)) == STRATEGY_HISTORY_KEYS
    ensures DistinctKeys(StrategyHistoryFields(p)) && GoodKeys(StrategyHistoryFields(p))
  {
    var fs := StrategyHistoryFields(p);
    assert FieldKeys(fs) == STRATEGY_HISTORY_KEYS;
    StrategyHistoryKeyTable();
    KeyTable(fs, STRATEGY_HISTORY_KEYS);
  }

  /** Numbers and wire strings never contain a separator, so only the free text can. */
  lemma StrategyHistoryValuesFree(p: StrategyHistorySearchParams, c: char)
    requires c == '&' || c == '?'
    requires StrategyTextFree(p, c)
    ensures ValuesFree(StrategyHistoryFields(p), c)
  {
    var fs := StrategyHistoryFields(p);
    forall i | 0 <= i < |fs| && fs[i].value.Some? ensures c !in fs[i].value.value {
      if i == 2 {
        DigitsHaveNo(NatToString(p.limit.value), c);
      } else if i == 3 {
        DigitsHaveNo(NatToString(p.offset.value), c);
      } else if i == 4 {
        MarketTypeWireHasNo(p.marketType.value, c);
      } else if i == 5 {
        SortDirectionWireHasNo(p.sortDirection.value, c);
      }
    }
  }

  /** The URL is the bare path, with no '?', exactly when no filter is set. */
  lemma StrategyHistoryBareUrl(baseUrl: string, p: StrategyHistorySearchParams)
    ensures StrategyHistoryUrl(baseUrl, p) == baseUrl + API_STRATEGY_HISTORY <==> p == STRATEGY_SEARCH_DEFAULT
  {
    var fs := StrategyHistoryFields(p);
    EncodeEmpty(fs);
    assert |StrategyHistoryUrl(baseUrl, p)| == |baseUrl + API_STRATEGY_HISTORY| + |Encode(fs)|;
    if p != STRATEGY_SEARCH_DEFAULT {
      var i :| 0 <= i < |fs| && fs[i].value.Some? by {
        if p.strategyId.Some? { assert fs[0].value.Some?; }
        else if p.symbol.Some? { assert fs[1].value.Some?; }
        else if p.limit.Some? { assert fs[2].value.Some?; }
        else if p.offset.Some? { assert fs[3].value.Some?; }
        else if p.marketType.Some? { assert fs[4].value.Some?; }
        else { assert fs[5].value.Some?; }
      }
    }
  }

  /**
   * The base URL and the path are kept as they are, and the query follows them: a server
   * that splits the query reads back exactly the pairs of the set filters, in order.
   */
  lemma StrategyHistoryServerReads(baseUrl: string, p: StrategyHistorySearchParams)
    requires StrategyTextFree(p, '&')
    ensures var url := StrategyHistoryUrl(baseUrl, p); var n := |baseUrl + API_STRATEGY_HISTORY|;
      && |url| >= n && url[..n] == baseUrl + API_STRATEGY_HISTORY
      && DecodeQuery(url[n..]) == SetPairs(StrategyHistoryFields(p))
  {
    var url := StrategyHistoryUrl(baseUrl, p);
    var n := |baseUrl + API_STRATEGY_HISTORY|;
    assert url[n..] == Encode(StrategyHistoryFields(p));
    StrategyHistoryKeysGood(p);
    StrategyHistoryValuesFree(p, '&');
    DecodeEncode(StrategyHistoryFields(p));
  }

  /** A non-empty query has one leading '?' and '&' only between pairs. */
  lemma StrategyHistoryQueryShape(p: StrategyHistorySearchParams)
    requires p != STRATEGY_SEARCH_DEFAULT
    requires StrategyTextFree(p, '&') && StrategyTextFree(p, '?')
    ensures var fs := StrategyHistoryFields(p); var q := Encode(fs);
      && |q| >= 2 && q[0] == '?' && Count(q, '?') == 1
      && Count(q, '&') == NumSet(fs) - 1
      && q[1] != '&' && q[|q| - 1] != '&'
  {
    var fs := StrategyHistoryFields(p);
    StrategyHistoryBareUrl("", p);
    StrategyHistoryKeysGood(p);
    StrategyHistoryValuesFree(p, '&');
    StrategyHistoryValuesFree(p, '?');
    QueryShape(fs);
  }

  /** One pair per set filter, none per unset one. */
  lemma StrategyHistoryOnePairPerFilter(p: StrategyHistorySearchParams)
    ensures var ps := SetPairs(StrategyHistoryFields(p));
      && Occurrences(ps, "strategy_id") == (if p.strategyId.Some? then 1 else 0)
      && Occurrences(ps, "symbol") == (if p.symbol.Some? then 1 else 0)
      && Occurrences(ps, "limit") == (if p.limit.Some? then 1 else 0)
      && Occurrences(ps, "offset") == (if p.offset.Some? then 1 else 0)
      && Occurrences(ps, "market_type") == (if p.marketType.Some? then 1 else 0)
      && Occurrences(ps, "sort_direction") == (if p.sortDirection.Some? then 1 else 0)
  {
    var fs := StrategyHistoryFields(p);
    StrategyHistoryKeysGood(p);
    SetPairsOccurrences(fs, 0);
    SetPairsOccurrences(fs, 1);
    SetPairsOccurrences(fs, 2);
    SetPairsOccurrences(fs, 3);
    SetPairsOccurrences(fs, 4);
    SetPairsOccurrences(fs, 5);
  }

  /** Whichever filters are set, their pairs follow the route's fixed key order. */
  lemma StrategyHistoryKeyOrder(p: StrategyHistorySearchParams)
    ensures IsSubsequence(Keys(SetPairs(StrategyHistoryFields(p))), STRATEGY_HISTORY_KEYS)
  {
    StrategyHistoryKeysGood(p);
    KeysInFieldOrder(StrategyHistoryFields(p));
  }
}
