/**
 * The URLs of the account routes. Settings, their update and dust conversion use the bare
 * path; the borrow limit takes `?symbol=`; the order and withdrawal limits start from a
 * mandatory `?symbol=…` (and `&side=…`) and append one camelCase `&key=value` per optional
 * argument that is given, in a fixed order.
 */
module AccountRoutes {
  import opened Wrappers
  import opened Text
  import opened Query
  import Decimals

  const API_ACCOUNT: string := "/api/v1/account"
  const API_ACCOUNT_MAX_BORROW: string := "/api/v1/account/limits/borrow"
  const API_ACCOUNT_MAX_ORDER: string := "/api/v1/account/limits/order"
  const API_ACCOUNT_MAX_WITHDRAWAL: string := "/api/v1/account/limits/withdrawal"
  const API_ACCOUNT_CONVERT_DUST: string := "/api/v1/account/convertDust"

  /** The HTTP verb a route is sent with, and its URL; request bodies are not modelled. */
  datatype HttpMethod = Get | Patch | Post
  datatype Request = Request(verb: HttpMethod, url: string)

  // ---- Routes without a query ----

  function GetAccountRequest(baseUrl: string): Request {
    Request(Get, baseUrl + API_ACCOUNT)
  }

  function UpdateAccountRequest(baseUrl: string): Request {
    Request(Patch, baseUrl + API_ACCOUNT)
  }

  function ConvertDustBalanceRequest(baseUrl: string): Request {
    Request(Post, baseUrl + API_ACCOUNT_CONVERT_DUST)
  }

  /**
   * Reading and updating the settings share one URL under different verbs; none of the
   * three adds a query to the base URL.
   */
  lemma AccountRequestsHaveNoQuery(baseUrl: string)
    ensures GetAccountRequest(baseUrl).url == UpdateAccountRequest(baseUrl).url
    ensures GetAccountRequest(baseUrl).verb == Get && UpdateAccountRequest(baseUrl).verb == Patch
    ensures ConvertDustBalanceRequest(baseUrl).verb == Post
    ensures GetAccountRequest(baseUrl).url == baseUrl + API_ACCOUNT + Encode([])
    ensures ConvertDustBalanceRequest(baseUrl).url == baseUrl + API_ACCOUNT_CONVERT_DUST + Encode([])
    ensures '?' !in API_ACCOUNT && '?' !in API_ACCOUNT_CONVERT_DUST
  {
  }

  // ---- Borrow limit ----

  function MaxBorrowUrl(baseUrl: string, symbol: string): string {
    baseUrl + API_ACCOUNT_MAX_BORROW + "?symbol=" + symbol
  }

  /** The one parameter, inserted verbatim; a server reads it back when it holds no '&'. */
  lemma MaxBorrowQuery(baseUrl: string, symbol: string)
    ensures MaxBorrowUrl(baseUrl, symbol) == baseUrl + API_ACCOUNT_MAX_BORROW + Encode([Field("symbol", Some(symbol))])
    ensures '&' !in symbol ==> DecodeQuery("?symbol=" + symbol) == [("symbol", symbol)]
  {
    EncodeOne("symbol", symbol, "?symbol=");
    if '&' !in symbol {
      DecodeOne("symbol", symbol, "?symbol=");
    }
  }

  // ---- Order-quantity limit ----

  /** The optional arguments, in the order the route appends them. */
  function MaxOrderOptionalFields(price: Option<Decimals.Decimal>, reduceOnly: Option<bool>,
    autoBorrow: Option<bool>, autoBorrowRepay: Option<bool>, autoLendRedeem: Option<bool>): seq<Field>
  {
    [Field("price", Map(price, Decimals.ToString)),
     Field("reduceOnly", Map(reduceOnly, BoolToString)),
     Field("autoBorrow", Map(autoBorrow, BoolToString)),
     Field("autoBorrowRepay", Map(autoBorrowRepay, BoolToString)),
     Field("autoLendRedeem", Map(autoLendRedeem, BoolToString))]
  }

  /** `side` is the display text of the order side, which is not part of this model. */
  function MaxOrderFields(symbol: string, side: string, price: Option<Decimals.Decimal>,
    reduceOnly: Option<bool>, autoBorrow: Option<bool>, autoBorrowRepay: Option<bool>,
    autoLendRedeem: Option<bool>): seq<Field>
  {
    [Field("symbol", Some(symbol)), Field("side", Some(side))]
      + MaxOrderOptionalFields(price, reduceOnly, autoBorrow, autoBorrowRepay, autoLendRedeem)
  }

  function MaxOrderQuantityUrl(baseUrl: string, symbol: string, side: string, price: Option<Decimals.Decimal>,
    reduceOnly: Option<bool>, autoBorrow: Option<bool>, autoBorrowRepay: Option<bool>,
    autoLendRedeem: Option<bool>): string
  {
    baseUrl + API_ACCOUNT_MAX_ORDER
      + Encode(MaxOrderFields(symbol, side, price, reduceOnly, autoBorrow, autoBorrowRepay, autoLendRedeem))
  }

  lemma SymbolSideQuery(symbol: string, side: string)
    ensures Encode([Field("symbol", Some(symbol)), Field("side", Some(side))])
      == "?symbol=" + symbol + "&side=" + side
  {
    EncodeTwo([Field("symbol", Some(symbol)), Field("side", Some(side))], 0, 1);
  }

  method GetAccountMaxOrderQuantityUrl(baseUrl: string, symbol: string, side: string,
    price: Option<Decimals.Decimal>, reduceOnly: Option<bool>, autoBorrow: Option<bool>,
    autoBorrowRepay: Option<bool>, autoLendRedeem: Option<bool>) returns (url: string)
    ensures url == MaxOrderQuantityUrl(baseUrl, symbol, side, price, reduceOnly, autoBorrow,
      autoBorrowRepay, autoLendRedeem)
  {
    ghost var prefix := baseUrl + API_ACCOUNT_MAX_ORDER;
    ghost var done := [Field("symbol", Some(symbol)), Field("side", Some(side))];
    url := baseUrl + API_ACCOUNT_MAX_ORDER + "?symbol=" + symbol + "&side=" + side;
    SymbolSideQuery(symbol, side);
    url := AppendIfSet(url, "price", Map(price, Decimals.ToString), prefix, done);
    done := done + [Field("price", Map(price, Decimals.ToString))];
    url := AppendIfSet(url, "reduceOnly", Map(reduceOnly, BoolToString), prefix, done);
    done := done + [Field("reduceOnly", Map(reduceOnly, BoolToString))];
    url := AppendIfSet(url, "autoBorrow", Map(autoBorrow, BoolToString), prefix, done);
    done := done + [Field("autoBorrow", Map(autoBorrow, BoolToString))];
    url := AppendIfSet(url, "autoBorrowRepay", Map(autoBorrowRepay, BoolToString), prefix, done);
    done := done + [Field("autoBorrowRepay", Map(autoBorrowRepay, BoolToString))];
    url := AppendIfSet(url, "autoLendRedeem", Map(autoLendRedeem, BoolToString), prefix, done);
    done := done + [Field("autoLendRedeem", Map(autoLendRedeem, BoolToString))];
    assert done == MaxOrderFields(symbol, side, price, reduceOnly, autoBorrow, autoBorrowRepay, autoLendRedeem);
  }

  /**
   * The URL always starts with `?symbol=…&side=…` after the path; the optional arguments
   * follow as `&key=value` suffixes, in the fixed order, and only when given.
   */
  lemma MaxOrderQuantityShape(baseUrl: string, symbol: string, side: string, price: Option<Decimals.Decimal>,
    reduceOnly: Option<bool>, autoBorrow: Option<bool>, autoBorrowRepay: Option<bool>,
    autoLendRedeem: Option<bool>)
    ensures var gs := MaxOrderOptionalFields(price, reduceOnly, autoBorrow, autoBorrowRepay, autoLendRedeem);
      && MaxOrderQuantityUrl(baseUrl, symbol, side, price, reduceOnly, autoBorrow, autoBorrowRepay, autoLendRedeem)
        == baseUrl + API_ACCOUNT_MAX_ORDER + ("?symbol=" + symbol + "&side=" + side + Suffixes(gs))
      && (Suffixes(gs) == "" <==>
        price.None? && reduceOnly.None? && autoBorrow.None? && autoBorrowRepay.None? && autoLendRedeem.None?)
  {
    var fs := [Field("symbol", Some(symbol)), Field("side", Some(side))];
    var gs := MaxOrderOptionalFields(price, reduceOnly, autoBorrow, autoBorrowRepay, autoLendRedeem);
    var head := "?symbol=" + symbol + "&side=" + side;
    SymbolSideQuery(symbol, side);
    PrefixThenSuffixes(fs, gs, head, Suffixes(gs));
    assert MaxOrderFields(symbol, side, price, reduceOnly, autoBorrow, autoBorrowRepay, autoLendRedeem) == fs + gs;
    SuffixesEmpty(gs);
    if !(price.None? && reduceOnly.None? && autoBorrow.None? && autoBorrowRepay.None? && autoLendRedeem.None?) {
      if price.Some? { assert gs[0].value.Some?; }
      else if reduceOnly.Some? { assert gs[1].value.Some?; }
      else if autoBorrow.Some? { assert gs[2].value.Some?; }
      else if autoBorrowRepay.Some? { assert gs[3].value.Some?; }
      else { assert gs[4].value.Some?; }
    }
  }

  const MAX_ORDER_KEYS: seq<string> := ["symbol", "side", "price", "reduceOnly", "autoBorrow",
    "autoBorrowRepay", "autoLendRedeem"]

  lemma MaxOrderKeyTable()
    ensures Distinct(MAX_ORDER_KEYS)
    ensures forall i :: 0 <= i < |MAX_ORDER_KEYS| ==> GoodKey(MAX_ORDER_KEYS[i])
  {
  }

  lemma MaxOrderKeysGood(symbol: string, side: string, price: Option<Decimals.Decimal>,
    reduceOnly: Option<bool>, autoBorrow: Option<bool>, autoBorrowRepay: Option<bool>,
    autoLendRedeem: Option<bool>)
    ensures var fs := MaxOrderFields(symbol, side, price, reduceOnly, autoBorrow, autoBorrowRepay, autoLendRedeem);
      FieldKeys(fs) == MAX_ORDER_KEYS && DistinctKeys(fs) && GoodKeys(fs)
  {
    var fs := MaxOrderFields(symbol, side, price, reduceOnly, autoBorrow, autoBorrowRepay, autoLendRedeem);
    assert FieldKeys(fs) == MAX_ORDER_KEYS;
    MaxOrderKeyTable();
    KeyTable(fs, MAX_ORDER_KEYS);
  }

  /**
   * When the symbol and side hold no '&', a server reads back `symbol`, `side` and then the
   * given optional arguments, in order, booleans as `true`/`false` and the price in its
   * decimal text.
   */
  lemma MaxOrderQuantityServerReads(symbol: string, side: string, price: Option<Decimals.Decimal>,
    reduceOnly: Option<bool>, autoBorrow: Option<bool>, autoBorrowRepay: Option<bool>,
    autoLendRedeem: Option<bool>)
    requires '&' !in symbol && '&' !in side
    ensures var fs := MaxOrderFields(symbol, side, price, reduceOnly, autoBorrow, autoBorrowRepay, autoLendRedeem);
      DecodeQuery(Encode(fs)) == [("symbol", symbol), ("side", side)]
        + SetPairs(MaxOrderOptionalFields(price, reduceOnly, autoBorrow, autoBorrowRepay, autoLendRedeem))
  {
    var fs := MaxOrderFields(symbol, side, price, reduceOnly, autoBorrow, autoBorrowRepay, autoLendRedeem);
    var gs := MaxOrderOptionalFields(price, reduceOnly, autoBorrow, autoBorrowRepay, autoLendRedeem);
    MaxOrderKeysGood(symbol, side, price, reduceOnly, autoBorrow, autoBorrowRepay, autoLendRedeem);
    assert ValuesFree(fs, '&') by {
      forall i | 0 <= i < |fs| && fs[i].value.Some? ensures '&' !in fs[i].value.value {
        if i == 2 {
          Decimals.ToStringHasNo(price.value, '&');
        }
      }
    }
    DecodeEncode(fs);
    var ms := [Field("symbol", Some(symbol)), Field("side", Some(side))];
    SetPairsAppend(ms, gs);
    SetPairsTwo(ms, 0, 1);
  }

  /** Each argument that is given appears once; one that is not never appears. */
  lemma MaxOrderQuantityOnePairPerArgument(symbol: string, side: string, price: Option<Decimals.Decimal>,
    reduceOnly: Option<bool>, autoBorrow: Option<bool>, autoBorrowRepay: Option<bool>,
    autoLendRedeem: Option<bool>)
    ensures var ps := SetPairs(MaxOrderFields(symbol, side, price, reduceOnly, autoBorrow, autoBorrowRepay, autoLendRedeem));
      && Occurrences(ps, "symbol") == 1 && Occurrences(ps, "side") == 1
      && Occurrences(ps, "price") == (if price.Some? then 1 else 0)
      && Occurrences(ps, "reduceOnly") == (if reduceOnly.Some? then 1 else 0)
      && Occurrences(ps, "autoBorrow") == (if autoBorrow.Some? then 1 else 0)
      && Occurrences(ps, "autoBorrowRepay") == (if autoBorrowRepay.Some? then 1 else 0)
      && Occurrences(ps, "autoLendRedeem") == (if autoLendRedeem.Some? then 1 else 0)
  {
    var fs := MaxOrderFields(symbol, side, price, reduceOnly, autoBorrow, autoBorrowRepay, autoLendRedeem);
    MaxOrderKeysGood(symbol, side, price, reduceOnly, autoBorrow, autoBorrowRepay, autoLendRedeem);
    SetPairsOccurrences(fs, 0);
    SetPairsOccurrences(fs, 1);
    SetPairsOccurrences(fs, 2);
    SetPairsOccurrences(fs, 3);
    SetPairsOccurrences(fs, 4);
    SetPairsOccurrences(fs, 5);
    SetPairsOccurrences(fs, 6);
  }

  lemma ReduceOnlyAutoBorrowPieces()
    ensures Suffixes(MaxOrderOptionalFields(None, Some(true), Some(false), None, None))
      == ("&" + "reduceOnly" + "=" + "true") + ("&" + "autoBorrow" + "=" + "false")
  {
    var gs := MaxOrderOptionalFields(None, Some(true), Some(false), None, None);
    var s1 := "&" + "reduceOnly" + "=" + "true";
    var s2 := "&" + "autoBorrow" + "=" + "false";
    var rest := Suffixes(gs[3..]);
    SuffixesEmpty(gs[3..]);
    assert rest == "";
    assert Suffix(gs[2]) == s2;
    assert gs[2..][1..] == gs[3..];
    assert Suffixes(gs[2..]) == s2 + rest;
    assert Suffix(gs[1]) == s1;
    assert gs[1..][1..] == gs[2..];
    assert Suffixes(gs[1..]) == s1 + Suffixes(gs[2..]);
    assert Suffix(gs[0]) == "";
    assert Suffixes(gs) == "" + Suffixes(gs[1..]);
  }

  lemma ReduceOnlyAutoBorrowText()
    ensures ("&" + "reduceOnly" + "=" + "true") + ("&" + "autoBorrow" + "=" + "false")
      == "&reduceOnly=true&autoBorrow=false"
  {
  }

  /** Booleans are rendered `true`/`false`, and an absent price leaves no trace. */
  lemma TestMaxOrderQuantityUrl(baseUrl: string)
    ensures MaxOrderQuantityUrl(baseUrl, "SOL_USDC", "Bid", None, Some(true), Some(false), None, None)
      == baseUrl + API_ACCOUNT_MAX_ORDER + ("?symbol=" + "SOL_USDC" + "&side=" + "Bid" + "&reduceOnly=true&autoBorrow=false")
  {
    ReduceOnlyAutoBorrowPieces();
    ReduceOnlyAutoBorrowText();
    MaxOrderQuantityShape(baseUrl, "SOL_USDC", "Bid", None, Some(true), Some(false), None, None);
  }

  // ---- Withdrawal limit ----

  function MaxWithdrawalOptionalFields(autoBorrow: Option<bool>, autoLendRedeem: Option<bool>): seq<Field> {
    [Field("autoBorrow", Map(autoBorrow, BoolToString)),
     Field("autoLendRedeem", Map(autoLendRedeem, BoolToString))]
  }

  function MaxWithdrawalFields(symbol: string, autoBorrow: Option<bool>, autoLendRedeem: Option<bool>): seq<Field> {
    [Field("symbol", Some(symbol))] + MaxWithdrawalOptionalFields(autoBorrow, autoLendRedeem)
  }

  function MaxWithdrawalUrl(baseUrl: string, symbol: string, autoBorrow: Option<bool>, autoLendRedeem: Option<bool>): string {
    baseUrl + API_ACCOUNT_MAX_WITHDRAWAL + Encode(MaxWithdrawalFields(symbol, autoBorrow, autoLendRedeem))
  }

  method GetAccountMaxWithdrawalUrl(baseUrl: string, symbol: string, autoBorrow: Option<bool>,
    autoLendRedeem: Option<bool>) returns (url: string)
    ensures url == MaxWithdrawalUrl(baseUrl, symbol, autoBorrow, autoLendRedeem)
  {
    ghost var prefix := baseUrl + API_ACCOUNT_MAX_WITHDRAWAL;
    ghost var done := [Field("symbol", Some(symbol))];
    url := baseUrl + API_ACCOUNT_MAX_WITHDRAWAL + "?symbol=" + symbol;
    EncodeOne("symbol", symbol, "?symbol=");
    url := AppendIfSet(url, "autoBorrow", Map(autoBorrow, BoolToString), prefix, done);
    done := done + [Field("autoBorrow", Map(autoBorrow, BoolToString))];
    url := AppendIfSet(url, "autoLendRedeem", Map(autoLendRedeem, BoolToString), prefix, done);
    done := done + [Field("autoLendRedeem", Map(autoLendRedeem, BoolToString))];
    assert done == MaxWithdrawalFields(symbol, autoBorrow, autoLendRedeem);
  }

  /** `?symbol=…` first, then `&autoBorrow=…` when given, then `&autoLendRedeem=…` when given. */
  lemma MaxWithdrawalShape(baseUrl: string, symbol: string, autoBorrow: Option<bool>, autoLendRedeem: Option<bool>)
    ensures MaxWithdrawalUrl(baseUrl, symbol, autoBorrow, autoLendRedeem)
      == baseUrl + API_ACCOUNT_MAX_WITHDRAWAL + ("?symbol=" + symbol
        + ((if autoBorrow.Some? then "&autoBorrow=" + BoolToString(autoBorrow.value) else "")
          + (if autoLendRedeem.Some? then "&autoLendRedeem=" + BoolToString(autoLendRedeem.value) else "")))
  {
    var fs := [Field("symbol", Some(symbol))];
    var gs := MaxWithdrawalOptionalFields(autoBorrow, autoLendRedeem);
    EncodeOne("symbol", symbol, "?symbol=");
    MaxWithdrawalSuffixes(autoBorrow, autoLendRedeem);
    PrefixThenSuffixes(fs, gs, "?symbol=" + symbol, Suffixes(gs));
    assert MaxWithdrawalFields(symbol, autoBorrow, autoLendRedeem) == fs + gs;
  }

  lemma MaxWithdrawalSuffixes(autoBorrow: Option<bool>, autoLendRedeem: Option<bool>)
    ensures Suffixes(MaxWithdrawalOptionalFields(autoBorrow, autoLendRedeem))
      == (if autoBorrow.Some? then "&autoBorrow=" + BoolToString(autoBorrow.value) else "")
        + (if autoLendRedeem.Some? then "&autoLendRedeem=" + BoolToString(autoLendRedeem.value) else "")
  {
    var gs := MaxWithdrawalOptionalFields(autoBorrow, autoLendRedeem);
    var s0 := if autoBorrow.Some? then "&autoBorrow=" + BoolToString(autoBorrow.value) else "";
    var s1 := if autoLendRedeem.Some? then "&autoLendRedeem=" + BoolToString(autoLendRedeem.value) else "";
    assert gs[1..][1..] == [];
    assert "&" + "autoBorrow" + "=" == "&autoBorrow=";
    assert "&" + "autoLendRedeem" + "=" == "&autoLendRedeem=";
    assert Suffixes(gs[1..]) == s1 + Suffixes(gs[1..][1..]);
    assert Suffixes(gs) == s0 + Suffixes(gs[1..]);
  }
}
