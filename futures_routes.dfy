/**
 * The URL of the open-futures-positions route: the base URL and the path, then
 * `?symbol=<symbol>` only when a symbol is given.
 */
module FuturesRoutes {
  import opened Wrappers
  import opened Text
  import opened Query

  const API_FUTURES_POSITION: string := "/api/v1/position"

  function FuturePositionsFields(symbol: Option<string>): seq<Field> {
    [Field("symbol", symbol)]
  }

  /** The URL the open-positions route requests. */
  function FuturePositionsUrl(baseUrl: string, symbol: Option<string>): string {
    baseUrl + API_FUTURES_POSITION + Encode(FuturePositionsFields(symbol))
  }

  method GetOpenFuturePositionsUrl(baseUrl: string, symbol: Option<string>) returns (url: string)
    ensures url == FuturePositionsUrl(baseUrl, symbol)
  {
    url := baseUrl + API_FUTURES_POSITION;
    if symbol.Some? {
      url := url + "?symbol=" + symbol.value;
    }
    EncodeSnoc([], Field("symbol", symbol));
    assert [] + [Field("symbol", symbol)] == FuturePositionsFields(symbol);
  }

  /** Without a symbol the URL is exactly the path; with one, it is `?symbol=` and the symbol. */
  lemma FuturePositionsUrlCases(baseUrl: string, symbol: Option<string>)
    ensures symbol.None? ==> FuturePositionsUrl(baseUrl, symbol) == baseUrl + API_FUTURES_POSITION
    ensures symbol.Some? ==>
      FuturePositionsUrl(baseUrl, symbol) == baseUrl + API_FUTURES_POSITION + "?symbol=" + symbol.value
  {
    EncodeEmpty(FuturePositionsFields(symbol));
    if symbol.Some? {
      EncodeOne("symbol", symbol.value, "?symbol=");
    }
  }

  /**
   * The base URL and the path are never altered, only appended to; the appended query holds
   * at most one '?' and a server reads at most one pair from it, the symbol when it is given.
   * The symbol is sent unescaped, so this needs it free of '?' and '&'.
   */
  lemma FuturePositionsAtMostOnePair(baseUrl: string, symbol: Option<string>)
    requires symbol.Some? ==> '?' !in symbol.value && '&' !in symbol.value
    ensures var url, n := FuturePositionsUrl(baseUrl, symbol), |baseUrl + API_FUTURES_POSITION|;
      && |url| >= n && url[..n] == baseUrl + API_FUTURES_POSITION
      && Count(url[n..], '?') <= 1
      && DecodeQuery(url[n..]) == (if symbol.Some? then [("symbol", symbol.value)] else [])
  {
    var url, n := FuturePositionsUrl(baseUrl, symbol), |baseUrl + API_FUTURES_POSITION|;
    var fs := FuturePositionsFields(symbol);
    assert url[n..] == Encode(fs);
    assert GoodKey("symbol");
    DecodeEncode(fs);
    assert [fs[0]][1..] == [];
    if symbol.Some? {
      QueryShape(fs);
    } else {
      EncodeEmpty(fs);
    }
  }

  lemma TestFuturePositionsUrl()
    ensures FuturePositionsUrl("https://api.example.com", Some("SOL_USDC_PERP"))
      == "https://api.example.com/api/v1/position?symbol=SOL_USDC_PERP"
  {
    assert "https://api.example.com" + API_FUTURES_POSITION + "?symbol=" + "SOL_USDC_PERP"
      == "https://api.example.com/api/v1/position?symbol=SOL_USDC_PERP";
    FuturePositionsUrlCases("https://api.example.com", Some("SOL_USDC_PERP"));
  }
}
