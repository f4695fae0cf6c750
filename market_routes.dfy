/**
 * The URLs of the public market routes: four that take no parameter, four that take only a
 * symbol, inserted verbatim after `?symbol=`, and the k-line route, which starts from
 * `?symbol=…&interval=…&startTime=…` and appends `&endTime=…` and then `&priceType=…` when
 * they are given.
 */
module MarketRoutes {
  import opened Wrappers
  import opened Text
  import opened Query

  const API_ASSETS: string := "/api/v1/assets"
  const API_MARKET: string := "/api/v1/market"
  const API_MARKETS: string := "/api/v1/markets"
  const API_TICKER: string := "/api/v1/ticker"
  const API_TICKERS: string := "/api/v1/tickers"
  const API_DEPTH: string := "/api/v1/depth"
  const API_KLINES: string := "/api/v1/klines"
  const API_FUNDING: string := "/api/v1/fundingRates"
  const API_MARK_PRICES: string := "/api/v1/markPrices"

  // ---- Routes without parameters ----

  function AssetsUrl(baseUrl: string): string { baseUrl + API_ASSETS }
  function MarketsUrl(baseUrl: string): string { baseUrl + API_MARKETS }
  function AllMarkPricesUrl(baseUrl: string): string { baseUrl + API_MARK_PRICES }
  function TickersUrl(baseUrl: string): string { baseUrl + API_TICKERS }

  /** None of them carries a query: each is its path with the empty encoding after it. */
  lemma NoParameterRoutes(baseUrl: string)
    ensures AssetsUrl(baseUrl) == baseUrl + API_ASSETS + Encode([])
    ensures MarketsUrl(baseUrl) == baseUrl + API_MARKETS + Encode([])
    ensures AllMarkPricesUrl(baseUrl) == baseUrl + API_MARK_PRICES + Encode([])
    ensures TickersUrl(baseUrl) == baseUrl + API_TICKERS + Encode([])
    ensures '?' !in API_ASSETS && '?' !in API_MARKETS && '?' !in API_MARK_PRICES && '?' !in API_TICKERS
  {
  }

  // ---- Routes taking a symbol ----

  function MarketUrl(baseUrl: string, symbol: string): string { baseUrl + API_MARKET + "?symbol=" + symbol }
  function TickerUrl(baseUrl: string, symbol: string): string { baseUrl + API_TICKER + "?symbol=" + symbol }
  function OrderBookDepthUrl(baseUrl: string, symbol: string): string { baseUrl + API_DEPTH + "?symbol=" + symbol }
  function FundingIntervalRatesUrl(baseUrl: string, symbol: string): string { baseUrl + API_FUNDING + "?symbol=" + symbol }

  /**
   * Each is its path followed by the one-parameter query of the symbol, unescaped; a server
   * reads the symbol back whenever it holds no '&'.
   */
  lemma SymbolRoutes(baseUrl: string, symbol: string)
    ensures var q := Encode([Field("symbol", Some(symbol))]);
      && MarketUrl(baseUrl, symbol) == baseUrl + API_MARKET + q
      && TickerUrl(baseUrl, symbol) == baseUrl + API_TICKER + q
      && OrderBookDepthUrl(baseUrl, symbol) == baseUrl + API_DEPTH + q
      && FundingIntervalRatesUrl(baseUrl, symbol) == baseUrl + API_FUNDING + q
      && ('&' !in symbol ==> DecodeQuery(q) == [("symbol", symbol)])
  {
    EncodeOne("symbol", symbol, "?symbol=");
    if '&' !in symbol {
      DecodeOne("symbol", symbol, "?symbol=");
    }
  }

  lemma TestOrderBookDepthUrl()
    ensures OrderBookDepthUrl("https://api.example.com", "BTC_USDC")
      == "https://api.example.com/api/v1/depth?symbol=BTC_USDC"
  {
  }

  // ---- K-lines ----

  /**
   * The k-line parameters in the order the route writes them. The interval and the price
   * type are carried as their display text; their enumerations are not part of this model.
   */
  function KLinesMandatoryFields(symbol: string, interval: string, startTime: Int64): seq<Field> {
    [Field("symbol", Some(symbol)), Field("interval", Some(interval)), Field("startTime", Some(ShowI64(startTime)))]
  }

  function KLinesOptionalFields(endTime: Option<Int64>, priceType: Option<string>): seq<Field> {
    [Field("endTime", Map(endTime, ShowI64)), Field("priceType", priceType)]
  }

  function KLinesFields(symbol: string, interval: string, startTime: Int64, endTime: Option<Int64>,
    priceType: Option<string>): seq<Field>
  {
    KLinesMandatoryFields(symbol, interval, startTime) + KLinesOptionalFields(endTime, priceType)
  }

  function KLinesUrl(baseUrl: string, symbol: string, interval: string, startTime: Int64,
    endTime: Option<Int64>, priceType: Option<string>): string
  {
    baseUrl + API_KLINES + Encode(KLinesFields(symbol, interval, startTime, endTime, priceType))
  }

  lemma KLinesMandatoryQuery(symbol: string, interval: string, startTime: Int64)
    ensures Encode(KLinesMandatoryFields(symbol, interval, startTime))
      == "?symbol=" + symbol + "&interval=" + interval + "&startTime=" + ShowI64(startTime)
  {
    var one := [Field("symbol", Some(symbol))];
    var two := one + [Field("interval", Some(interval))];
    var all := KLinesMandatoryFields(symbol, interval, startTime);
    assert all == two + [Field("startTime", Some(ShowI64(startTime)))];
    EncodeOne("symbol", symbol, "?symbol=");
    SuffixStep(one, Field("interval", Some(interval)), two);
    assert Suffix(Field("interval", Some(interval))) == "&interval=" + interval by {
      assert "&" + "interval" + "=" == "&interval=";
    }
    SuffixStep(two, Field("startTime", Some(ShowI64(startTime))), all);
    assert Suffix(Field("startTime", Some(ShowI64(startTime)))) == "&startTime=" + ShowI64(startTime) by {
      assert "&" + "startTime" + "=" == "&startTime=";
    }
  }

  method GetKLinesUrl(baseUrl: string, symbol: string, interval: string, startTime: Int64,
    endTime: Option<Int64>, priceType: Option<string>) returns (url: string)
    ensures url == KLinesUrl(baseUrl, symbol, interval, startTime, endTime, priceType)
  {
    ghost var prefix := baseUrl + API_KLINES;
    ghost var done := KLinesMandatoryFields(symbol, interval, startTime);
    url := baseUrl + API_KLINES + "?symbol=" + symbol + "&interval=" + interval + "&startTime=" + ShowI64(startTime);
    KLinesMandatoryQuery(symbol, interval, startTime);
    url := AppendIfSet(url, "endTime", Map(endTime, ShowI64), prefix, done);
    done := done + [Field("endTime", Map(endTime, ShowI64))];
    url := AppendIfSet(url, "priceType", priceType, prefix, done);
    done := done + [Field("priceType", priceType)];
    assert done == KLinesFields(symbol, interval, startTime, endTime, priceType);
  }

  /**
   * Always `?symbol=…&interval=…&startTime=…` first; then `&endTime=…` only when given, and
   * always before `&priceType=…`, which likewise appears only when given.
   */
  lemma KLinesShape(baseUrl: string, symbol: string, interval: string, startTime: Int64,
    endTime: Option<Int64>, priceType: Option<string>)
    ensures KLinesUrl(baseUrl, symbol, interval, startTime, endTime, priceType)
      == baseUrl + API_KLINES
        + ("?symbol=" + symbol + "&interval=" + interval + "&startTime=" + IntToString(startTime)
          + ((if endTime.Some? then "&endTime=" + IntToString(endTime.value) else "")
            + (if priceType.Some? then "&priceType=" + priceType.value else "")))
  {
    var ms, os := KLinesMandatoryFields(symbol, interval, startTime), KLinesOptionalFields(endTime, priceType);
    var head := "?symbol=" + symbol + "&interval=" + interval + "&startTime=" + IntToString(startTime);
    var tail := (if endTime.Some? then "&endTime=" + IntToString(endTime.value) else "")
      + (if priceType.Some? then "&priceType=" + priceType.value else "");
    KLinesMandatoryQuery(symbol, interval, startTime);
    KLinesSuffixes(endTime, priceType);
    PrefixThenSuffixes(ms, os, head, tail);
  }

  lemma KLinesSuffixes(endTime: Option<Int64>, priceType: Option<string>)
    ensures Suffixes(KLinesOptionalFields(endTime, priceType))
      == (if endTime.Some? then "&endTime=" + IntToString(endTime.value) else "")
        + (if priceType.Some? then "&priceType=" + priceType.value else "")
  {
    var gs := KLinesOptionalFields(endTime, priceType);
    var s0 := if endTime.Some? then "&endTime=" + IntToString(endTime.value) else "";
    var s1 := if priceType.Some? then "&priceType=" + priceType.value else "";
    assert gs[1..][1..] == [];
    assert "&" + "endTime" + "=" == "&endTime=";
    assert "&" + "priceType" + "=" == "&priceType=";
    assert Suffixes(gs[1..]) == s1 + Suffixes(gs[1..][1..]);
    assert Suffixes(gs) == s0 + Suffixes(gs[1..]);
  }
}
