# bpx-api-client: request construction and wire marshalling

bpx-api-client is a Rust client for the Backpack exchange REST and WebSocket API. Each route
method of `BpxClient` builds a URL string out of the client's base URL, a constant path and the
caller's arguments. It then hands that string to an HTTP call. The types crate holds the records
and enumerations that travel over the wire, with their serde names.

This project models the part of the client that decides exactly what goes on the wire:

- **Query-string encoders.** The history-style routes push one `key=value` piece onto a vector
  for every filter that is `Some`, in a fixed order. They join the pieces with `&` and put `?` in
  front only when the vector is not empty. These are fill history, order history and strategy
  history.
- **Prefix-and-suffix routes.** The account, market and futures routes start from a
  `format!`-built prefix. They then `push_str` an `&key=value` suffix for each optional argument
  that is set.
- **Wire enumerations.** Each enumeration has a closed string table: UPPERCASE for market types,
  PascalCase for statuses, reasons, fill types and sort directions, and camelCase for
  position-update types. Parsing is case-sensitive and rejects unknown strings.
- **Decimal scale.** A market's price and quantity precision is the scale of its tick size and
  step size.
- **Search-parameter serde.** An unset filter is skipped on write. An absent `limit` or `offset`
  reads back as 100 or 0.
- **Stream alias tables.** WebSocket payloads use one-letter member names.

## Structure

The project has one module per source file, plus the helper modules the models share.

- `Query` (query.dfy) is the generic encoder. A route's arguments become an ordered
  `seq<Field>`, where each `Field` is a literal key and an optional rendered value. The encoder is
  `Encode(fs) = QueryString(RenderAll(SetPairs(fs)))`, which gives `""` or
  `"?" + Join(pieces, '&')`.
  - `PushIfSet` is the `query_vec.push` step and `AppendIfSet` is the `url.push_str` step.
    `Pushed(q, fs, k)` says that `q` is the vector after the first `k` push steps.
  - `DecodeQuery` is the server-side reading of a query string: split on `&`, then cut each piece
    at its first `=`. It is the encoder's partner: `DecodeEncode` proves that it gives back exactly
    the set pairs.
- `HistoryRoutes`, `StrategyRoutes`, `AccountRoutes`, `MarketRoutes` and `FuturesRoutes` model the
  route files.
  - Each imperative route is a `method` with the source's chain of `if let Some` steps. Its
    `ensures` ties the URL it builds to a declarative `…Url` function.
  - The lemmas beside each method state what that URL is: bare when nothing is set, one pair per
    set argument, fixed key order, a single `?`, and what a server reads back.
- `HistoryTypes`, `StrategyTypes`, `MarketTypes`, `FuturesTypes` and `BorrowLendTypes` model the
  types files: the enumeration tables, the search records, the market filters and the stream
  records.
- The shared helper modules are the following.
  - `Decimals` holds `Decimal(mantissa, scale)` with its text form and parser.
  - `Json` holds JSON values and the serde readers and writers, including
    `skip_serializing_if`, `default = …`, `Option` and required members.
  - `Text` holds digits, integer printing and parsing, `Join`/`Split` and `Count`.
  - `Wrappers` holds `Option` and `Result`.
- The base URL is a parameter of every route. `BpxClient` is otherwise not modelled, because the
  route methods only read `base_url`.

Wire strings of types that are defined outside the modelled files are passed as opaque strings:
`Side`, `KlineInterval`, `KlinePriceType` and `MarginFunction`. `OrderHistorySearchParams` is not
part of this model's source files. It is modelled with the seven fields that the order-history
route reads, and its derived `Default` leaves all of them unset.

## Model

| member | source | states |
|---|---|---|
| Query.PushIfSet | rust/client/src/routes/history.rs:13-15 | one `if let Some` push step: a vector in the state after `k` steps (`Pushed`: unchanged for an unset filter, one more `key=value` piece at the end for a set one) moves to the state after `k + 1` steps |
| Query.PushedAll | rust/client/src/routes/history.rs:13-44 | after one push step per filter, the vector holds exactly the encoder's pieces of all the filters, in order |
| Query.AppendIfSet | rust/client/src/routes/account.rs:51-53 | one `push_str` step: the URL gains `&key=value` exactly when the value is set, and it stays `prefix + Encode(fields so far)` |
| Query.EncodeEmpty | rust/client/src/routes/history.rs:43-47 | the query string is empty iff no field is set |
| Query.SetPairsEmpty | rust/client/src/routes/history.rs:43-44 | the piece vector is empty iff no field is set |
| Query.SetPairsCount | rust/client/src/routes/history.rs:13-42 | the number of pairs equals the number of set fields |
| Query.SetPairsMembers | rust/client/src/routes/history.rs:13-42 | a pair `(k, v)` is emitted iff the field `k` holds `Some(v)` |
| Query.SetPairsOccurrences | rust/client/src/routes/history.rs:13-42 | with distinct keys, each key occurs once when its field is set and never when it is unset |
| Query.AbsentKey | rust/client/src/routes/history.rs:59-79 | a key that is not among the route's fields never occurs in its pairs |
| Query.KeysInFieldOrder | rust/client/src/routes/history.rs:13-42 | the emitted keys are a subsequence of the hand-written field order |
| Query.EncodeSnoc | rust/client/src/routes/history.rs:40-47 | adding one more field appends nothing when it is unset; otherwise it appends `?k=v` to an empty query or `&k=v` to a non-empty one |
| Query.EncodeOne | rust/client/src/routes/futures.rs:12-13 | a single set field encodes as `?key=value` |
| Query.EncodeTwo | rust/client/src/routes/history.rs:43-47 | with exactly two set fields, the query is `?k1=v1&k2=v2` in field order |
| Query.SetPairsOne | rust/client/src/routes/history.rs:13-42 | with exactly one set field, the pairs are that one pair |
| Query.SetPairsTwo | rust/client/src/routes/history.rs:13-42 | with exactly two set fields, the pairs are those two in field order |
| Query.EncodeThenSuffixes | rust/client/src/routes/account.rs:47-65 | a non-empty prefix query followed by `&key=value` suffixes is the encoding of all the fields together |
| Query.SuffixesEmpty | rust/client/src/routes/account.rs:51-65 | no suffix is appended iff no optional argument is set |
| Query.KeyTable | rust/client/src/routes/history.rs:13-42 | fields whose keys are a table of distinct, well-formed literals have distinct, well-formed keys |
| Query.DecodeEncode | rust/client/src/routes/history.rs:13-47 | when keys are well formed and values contain no `&`, a server reading the query gets back exactly the set pairs, in order |
| Query.DecodeOne | rust/client/src/routes/account.rs:30 | `?key=value` with no `&` in the value reads back as the single pair |
| Query.QueryShape | rust/client/src/routes/history.rs:43-47 | a non-empty query starts with its only `?`, has one `&` fewer than set fields, and neither starts nor ends a pair list with `&` |
| Query.KeyValuesRenderAll | rust/client/src/routes/history.rs:14 | splitting each rendered `key=value` piece at its first `=` gives back the pair when the key has no `=` |
| HistoryRoutes.GetFillHistoryUrl | rust/client/src/routes/history.rs:10-48 | the pushes, the conditional join and the final `format!` build exactly `base_url + "/wapi/v1/history/fills" + Encode(fill fields)` |
| HistoryRoutes.FillHistoryKeyTable | rust/client/src/routes/history.rs:13-42 | the ten snake_case keys are distinct and well formed |
| HistoryRoutes.FillHistoryKeysGood | rust/client/src/routes/history.rs:13-42 | the fields carry the keys `order_id`, `strategy_id`, `from`, `to`, `symbol`, `limit`, `offset`, `fill_type`, `market_type`, `sort_direction` in that order |
| HistoryRoutes.FillHistoryValuesFree | rust/client/src/routes/history.rs:19-42 | numbers and enum wire strings never contain `&` or `?`, so only string filters can introduce one |
| HistoryRoutes.FillHistoryBareUrl | rust/client/src/routes/history.rs:43-48 | the URL is exactly `base_url + path` with no `?` iff every filter is `None` |
| HistoryRoutes.FillHistoryQueryShape | rust/client/src/routes/history.rs:43-47 | with some filter set, the query has exactly one leading `?`, no leading or trailing `&`, and `&` only between pairs |
| HistoryRoutes.FillHistoryOnePairPerFilter | rust/client/src/routes/history.rs:13-42 | each set filter contributes exactly one pair and each unset one none, so `limit: None` emits no `limit` pair; the pair count equals the number of set filters |
| HistoryRoutes.FillHistoryKeyOrder | rust/client/src/routes/history.rs:13-42 | the emitted keys follow the fixed fill-history order whichever filters are set |
| HistoryRoutes.FillHistoryServerReads | rust/client/src/routes/history.rs:13-47 | with no `&` in string filters, the server reads back exactly the set pairs |
| HistoryRoutes.TestFillHistorySymbolLimit | rust/client/src/routes/history.rs:25-30 | `symbol = "SOL_USDC"` and `limit = 50` give the URL `…/wapi/v1/history/fills?symbol=SOL_USDC&limit=50` |
| HistoryRoutes.TestFillHistoryEnums | rust/client/src/routes/history.rs:37-42 | enum filters render by wire string: `?market_type=PERP&sort_direction=Desc` |
| HistoryRoutes.GetOrderHistoryUrl | rust/client/src/routes/history.rs:56-85 | the seven pushes and the join build exactly `base_url + "/wapi/v1/history/orders" + Encode(order fields)` |
| HistoryRoutes.OrderHistoryKeyTable | rust/client/src/routes/history.rs:59-79 | the seven keys are distinct and well formed, and `from`, `to` and `fill_type` are not among them |
| HistoryRoutes.OrderHistoryKeysGood | rust/client/src/routes/history.rs:59-79 | the fields carry `order_id`, `strategy_id`, `symbol`, `limit`, `offset`, `market_type`, `sort_direction` in that order |
| HistoryRoutes.OrderHistoryValuesFree | rust/client/src/routes/history.rs:68-79 | numbers and enum wire strings never contain `&` or `?` |
| HistoryRoutes.OrderHistoryBareUrl | rust/client/src/routes/history.rs:80-85 | the URL is exactly `base_url + path` iff every filter is `None` |
| HistoryRoutes.OrderHistoryQueryShape | rust/client/src/routes/history.rs:80-84 | a non-empty query has one leading `?` and `&` only between pairs |
| HistoryRoutes.OrderHistoryOnePairPerFilter | rust/client/src/routes/history.rs:59-79 | one pair per set filter, none per unset one, and never a `from`, `to` or `fill_type` pair |
| HistoryRoutes.OrderHistoryKeyOrder | rust/client/src/routes/history.rs:59-79 | the emitted keys follow the fixed order-history order |
| HistoryRoutes.OrderHistoryServerReads | rust/client/src/routes/history.rs:59-84 | with no `&` in string filters, the server reads back exactly the set pairs |
| StrategyRoutes.GetStrategyHistoryUrl | rust/client/src/routes/strategies.rs:11-37 | the six pushes and the join build exactly `base_url + "/wapi/v1/history/strategies" + Encode(strategy fields)` |
| StrategyRoutes.StrategyHistoryKeyTable | rust/client/src/routes/strategies.rs:14-31 | the six keys are distinct and well formed |
| StrategyRoutes.StrategyHistoryKeysGood | rust/client/src/routes/strategies.rs:14-31 | the fields carry `strategy_id`, `symbol`, `limit`, `offset`, `market_type`, `sort_direction` in that order |
| StrategyRoutes.StrategyHistoryValuesFree | rust/client/src/routes/strategies.rs:20-31 | numbers and enum wire strings never contain `&` or `?` |
| StrategyRoutes.StrategyHistoryBareUrl | rust/client/src/routes/strategies.rs:32-37 | the URL is exactly `base_url + path` iff every field is `None` |
| StrategyRoutes.StrategyHistoryQueryShape | rust/client/src/routes/strategies.rs:32-36 | a non-empty query has a single leading `?` and `&` separators only between pairs |
| StrategyRoutes.StrategyHistoryOnePairPerFilter | rust/client/src/routes/strategies.rs:14-31 | exactly one pair per set field and none per unset field |
| StrategyRoutes.StrategyHistoryKeyOrder | rust/client/src/routes/strategies.rs:14-31 | the emitted keys follow the fixed strategy-history order |
| StrategyRoutes.StrategyHistoryServerReads | rust/client/src/routes/strategies.rs:37 | the URL starts with `base_url + path` unchanged, and what follows reads back as exactly the set pairs |
| FuturesRoutes.GetOpenFuturePositionsUrl | rust/client/src/routes/futures.rs:10-14 | the `format!` and the conditional `push_str` build exactly `base_url + "/api/v1/position" + Encode([symbol])` |
| FuturesRoutes.FuturePositionsUrlCases | rust/client/src/routes/futures.rs:11-14 | with no symbol the URL is exactly `base_url + "/api/v1/position"`; with `Some(s)` it is that followed by `?symbol=` + `s` |
| FuturesRoutes.FuturePositionsAtMostOnePair | rust/client/src/routes/futures.rs:11-14 | the `base_url + path` prefix is kept, the URL holds at most one `?`, and the query reads back as at most one pair |
| FuturesRoutes.TestFuturePositionsUrl | rust/client/src/routes/futures.rs:11-13 | base `https://api.example.com` and symbol `SOL_USDC_PERP` give `https://api.example.com/api/v1/position?symbol=SOL_USDC_PERP` |
| AccountRoutes.AccountRequestsHaveNoQuery | rust/client/src/routes/account.rs:22-26 | `get_account` (GET), `update_account` (PATCH) and `convert_dust_balance` (POST) send to `base_url + path` with an empty query; the first two share the same URL |
| AccountRoutes.MaxBorrowQuery | rust/client/src/routes/account.rs:29-30 | the URL is `base_url + "/api/v1/account/limits/borrow"` followed by the encoding of the single `symbol` pair; a `&`-free symbol reads back as that one pair |
| AccountRoutes.SymbolSideQuery | rust/client/src/routes/account.rs:47-50 | the mandatory prefix `?symbol=…&side=…` is the encoding of the two pairs `symbol`, `side` |
| AccountRoutes.GetAccountMaxOrderQuantityUrl | rust/client/src/routes/account.rs:37-65 | the prefix `format!` and the five conditional `push_str` steps build exactly the encoding of symbol, side, price, reduceOnly, autoBorrow, autoBorrowRepay and autoLendRedeem |
| AccountRoutes.MaxOrderQuantityShape | rust/client/src/routes/account.rs:47-65 | the URL always starts with `base_url + path + "?symbol=" + symbol + "&side=" + side`; the suffixes follow, and they are empty iff every optional argument is `None` |
| AccountRoutes.MaxOrderKeyTable | rust/client/src/routes/account.rs:47-65 | the seven camelCase keys are distinct and well formed |
| AccountRoutes.MaxOrderKeysGood | rust/client/src/routes/account.rs:47-65 | the fields carry `symbol`, `side`, `price`, `reduceOnly`, `autoBorrow`, `autoBorrowRepay`, `autoLendRedeem` in that order |
| AccountRoutes.MaxOrderQuantityServerReads | rust/client/src/routes/account.rs:47-65 | with no `&` in symbol or side, the server reads back exactly the set pairs; decimals and booleans never contain `&` |
| AccountRoutes.MaxOrderQuantityOnePairPerArgument | rust/client/src/routes/account.rs:47-65 | `symbol` and `side` occur once, and each optional key occurs once when set and never when unset |
| AccountRoutes.TestMaxOrderQuantityUrl | rust/client/src/routes/account.rs:54-59 | booleans render as `true`/`false`: `reduceOnly = true`, `autoBorrow = false` give `…?symbol=SOL_USDC&side=Bid&reduceOnly=true&autoBorrow=false` |
| AccountRoutes.GetAccountMaxWithdrawalUrl | rust/client/src/routes/account.rs:72-84 | the prefix `format!` and the two conditional `push_str` steps build exactly the encoding of symbol, autoBorrow and autoLendRedeem |
| AccountRoutes.MaxWithdrawalShape | rust/client/src/routes/account.rs:78-84 | the URL is `base_url + path + "?symbol=" + symbol`, then `&autoBorrow=` if set, then `&autoLendRedeem=` if set |
| AccountRoutes.MaxWithdrawalSuffixes | rust/client/src/routes/account.rs:79-84 | the suffix text is `&autoBorrow=b` when set, followed by `&autoLendRedeem=r` when set, in that order |
| MarketRoutes.NoParameterRoutes | rust/client/src/routes/markets.rs:20-56 | assets, markets, markPrices and tickers are `base_url + path` with an empty query and no `?` |
| MarketRoutes.SymbolRoutes | rust/client/src/routes/markets.rs:27-70 | market, ticker, depth and fundingRates are `base_url + path` followed by the raw encoding `?symbol=` + symbol of the single pair |
| MarketRoutes.TestOrderBookDepthUrl | rust/client/src/routes/markets.rs:62-63 | `BTC_USDC` on `https://api.example.com` gives `https://api.example.com/api/v1/depth?symbol=BTC_USDC` |
| MarketRoutes.KLinesMandatoryQuery | rust/client/src/routes/markets.rs:84-87 | the mandatory prefix is `?symbol=…&interval=…&startTime=…`, in that order |
| MarketRoutes.GetKLinesUrl | rust/client/src/routes/markets.rs:76-94 | the prefix `format!` and the two conditional `push_str` steps build exactly the encoding of symbol, interval, startTime, endTime and priceType |
| MarketRoutes.KLinesShape | rust/client/src/routes/markets.rs:84-94 | the URL is the mandatory prefix followed by the suffixes of the optional arguments |
| MarketRoutes.KLinesSuffixes | rust/client/src/routes/markets.rs:89-94 | `&endTime=` appears only when set and always before `&priceType=`, which likewise appears only when set |
| HistoryTypes.FillTypeFromWire | rust/types/src/history.rs:89-101 | a string parses to a fill type iff it is that variant's PascalCase wire string, so anything else is rejected |
| HistoryTypes.FillTypeRoundTrip | rust/types/src/history.rs:89-101 | every fill type parses back from its wire string |
| HistoryTypes.FillTypeInjective | rust/types/src/history.rs:92-101 | distinct fill types have distinct wire strings |
| HistoryTypes.FillTypeRejectsOtherCase | rust/types/src/history.rs:89-91 | wrong-case spellings such as `user` and `ADL` are rejected |
| HistoryTypes.FillTypeWireHasNo | rust/types/src/history.rs:92-101 | no fill-type wire string contains `&` or `?` |
| HistoryTypes.SystemOrderTypeFromWire | rust/types/src/history.rs:103-113 | a string parses to a system order type iff it is that variant's wire string |
| HistoryTypes.SystemOrderTypeRoundTrip | rust/types/src/history.rs:103-113 | all six variants round-trip |
| HistoryTypes.SystemOrderTypeInjective | rust/types/src/history.rs:106-113 | distinct variants have distinct wire strings |
| HistoryTypes.SystemOrderTypeRejectsOtherCase | rust/types/src/history.rs:103-105 | `orderBookClosed` and `LiquidatePositionOnADL` are rejected |
| HistoryTypes.FillSearchKeysDistinct | rust/types/src/history.rs:8-46 | the ten camelCase member names are distinct |
| HistoryTypes.FillSearchMember | rust/types/src/history.rs:12-46 | member `i` is written iff field `i` is `Some`, and then with that field's value |
| HistoryTypes.FillSearchSkipsUnset | rust/types/src/history.rs:12-46 | each member is present iff its field is `Some` |
| HistoryTypes.FillSearchNeverNull | rust/types/src/history.rs:12-46 | only the record's own members are written, and none of them as `null` |
| HistoryTypes.FillSearchReadsFirst | rust/types/src/history.rs:11-25 | the first five members read back as the fields that wrote them |
| HistoryTypes.FillSearchReadsRest | rust/types/src/history.rs:26-46 | `limit` and `offset` read back, or their defaults when unset; the enum members read back through their tables |
| HistoryTypes.FillSearchRoundTrip | rust/types/src/history.rs:8-57 | write then read keeps every filter, except that an unset `limit`/`offset` comes back as `Some(100)`/`Some(0)` |
| HistoryTypes.FillSearchRoundTripExact | rust/types/src/history.rs:26-57 | a record survives the trip unchanged iff its `limit` and `offset` are set |
| HistoryTypes.FillSearchDefaults | rust/types/src/history.rs:8-57 | the derived default writes `{}`; `{}` reads back with `limit` 100 and `offset` 0; explicit `null`s read as `None` |
| StrategyTypes.SortDirectionFromWire | rust/types/src/strategies.rs:47-53 | a string parses iff it is `Asc` or `Desc` for the matching variant |
| StrategyTypes.SortDirectionRoundTrip | rust/types/src/strategies.rs:47-53 | both directions round-trip |
| StrategyTypes.SortDirectionInjective | rust/types/src/strategies.rs:50-53 | distinct directions have distinct wire strings |
| StrategyTypes.SortDirectionRejectsOtherCase | rust/types/src/strategies.rs:47-49 | `asc` and `DESC` are rejected |
| StrategyTypes.SortDirectionWireHasNo | rust/types/src/strategies.rs:50-53 | no direction's wire string contains `&` or `?` |
| StrategyTypes.StrategyCancelReasonFromWire | rust/types/src/strategies.rs:78-96 | a string parses iff it is the matching variant's PascalCase string |
| StrategyTypes.StrategyCancelReasonRoundTrip | rust/types/src/strategies.rs:78-96 | all fourteen reasons round-trip |
| StrategyTypes.StrategyCancelReasonInjective | rust/types/src/strategies.rs:81-96 | the fourteen wire strings are distinct |
| StrategyTypes.StrategyCancelReasonRejectsOtherCase | rust/types/src/strategies.rs:78-80 | wrong-case spellings such as `reduceOnlyNotReduced` and `INSUFFICIENT_FUNDS` are rejected |
| StrategyTypes.StrategyStatusFromWire | rust/types/src/strategies.rs:98-106 | a string parses iff it is `Running`, `Completed`, `Cancelled` or `Terminated` for the matching variant |
| StrategyTypes.StrategyStatusRoundTrip | rust/types/src/strategies.rs:98-106 | all four statuses round-trip |
| StrategyTypes.StrategyStatusInjective | rust/types/src/strategies.rs:101-106 | the four wire strings are distinct |
| StrategyTypes.StrategyStatusRejectsOtherCase | rust/types/src/strategies.rs:98-100 | `running` and the spelling `Canceled` are rejected |
| StrategyTypes.StrategySearchKeysDistinct | rust/types/src/strategies.rs:7-34 | the six camelCase member names are distinct |
| StrategyTypes.StrategySearchMember | rust/types/src/strategies.rs:10-33 | member `i` is written iff field `i` is `Some`, and then with that field's value |
| StrategyTypes.StrategySearchSkipsUnset | rust/types/src/strategies.rs:10-33 | each member is present iff its field is `Some` |
| StrategyTypes.StrategySearchNeverNull | rust/types/src/strategies.rs:10-33 | only the record's own members are written, and none as `null` |
| StrategyTypes.StrategySearchRoundTrip | rust/types/src/strategies.rs:7-45 | write then read keeps every field, except that an unset `limit`/`offset` comes back as `Some(100)`/`Some(0)` |
| StrategyTypes.StrategySearchRoundTripExact | rust/types/src/strategies.rs:16-45 | a record survives unchanged iff `limit` and `offset` are set |
| StrategyTypes.StrategySearchDefaults | rust/types/src/strategies.rs:7-45 | the derived default writes `{}`; `{}` reads back with `limit` 100 and `offset` 0; explicit `null`s read as `None` |
| MarketTypes.MarketTypeFromWire | rust/types/src/markets.rs:18-28 | a string parses iff it is the matching variant's UPPERCASE string |
| MarketTypes.MarketTypeRoundTrip | rust/types/src/markets.rs:18-28 | all six market types round-trip |
| MarketTypes.MarketTypeInjective | rust/types/src/markets.rs:21-28 | the six wire strings are distinct |
| MarketTypes.MarketTypeRejectsOtherCase | rust/types/src/markets.rs:18-20 | `Spot` and `perp` are rejected |
| MarketTypes.MarketTypeWireHasNo | rust/types/src/markets.rs:21-28 | no market-type wire string contains `&` or `?` |
| MarketTypes.OrderBookStateFromWire | rust/types/src/markets.rs:126-135 | a string parses iff it is the matching state's PascalCase string |
| MarketTypes.OrderBookStateRoundTrip | rust/types/src/markets.rs:126-135 | all five states round-trip |
| MarketTypes.PriceDecimalPlaces | rust/types/src/markets.rs:174-176 | the result is the number of fraction digits of the tick size as written, for every text that parses to it |
| MarketTypes.QuantityDecimalPlaces | rust/types/src/markets.rs:181-183 | the result is the number of fraction digits of the step size as written, for every text that parses to it |
| MarketTypes.TestMarketDecimalPlaces | rust/types/src/markets.rs:487-497 | tick size `0.0001` gives 4 and step size `0.01` gives 2 |
| MarketTypes.DecimalPlacesFollowRepresentation | rust/types/src/markets.rs:174-176 | equal values with different scales (`0.01` and `0.010`) give different results, 2 and 3 |
| MarketTypes.DecimalPlacesDependOnFilterOnly | rust/types/src/markets.rs:174-183 | each result depends only on its own filter field |
| MarketTypes.MarketStreamAliasesDistinct | rust/types/src/markets.rs:45-124 | each stream record's alias table has one alias per field and pairwise distinct aliases; this covers ticker, statistics, depth, kline and mark-price updates |
| MarketTypes.MarkPriceUpdateToJsonKeys | rust/types/src/markets.rs:410-442 | the serialised update has exactly the members `e E s p f i n T` |
| MarketTypes.MarkPriceUpdateMember | rust/types/src/markets.rs:410-442 | each alias holds its field's value |
| MarketTypes.MarkPriceUpdateRoundTrip | rust/types/src/markets.rs:410-442 | write then read gives back the same update |
| MarketTypes.MarkPriceUpdateNeedsEveryAlias | rust/types/src/markets.rs:410-442 | a payload missing any of the eight aliases fails to decode |
| MarketTypes.TestFundingRateText | rust/types/src/markets.rs:506 | `-0.0000039641039274236048482914` parses exactly, with scale 28 |
| MarketTypes.TestPriceTexts | rust/types/src/markets.rs:507-509 | `173.44031179` and `173.35998175` parse exactly, with scale 8 |
| MarketTypes.TestMarkPriceUpdateParse | rust/types/src/markets.rs:500-518 | the test payload decodes to symbol `SOL_USDC_PERP`, funding rate `-0.0000039641039274236048482914` exactly, mark price `173.35998175`, and the other members as written |
| FuturesTypes.PositionUpdateTypeFromWire | rust/types/src/futures.rs:30-36 | a string parses iff it is the matching variant's camelCase string |
| FuturesTypes.PositionUpdateTypeRoundTrip | rust/types/src/futures.rs:30-36 | all three variants round-trip |
| FuturesTypes.PositionUpdateTypeInjective | rust/types/src/futures.rs:32-36 | the three wire strings are distinct |
| FuturesTypes.PositionUpdateTypeRejectsPascalCase | rust/types/src/futures.rs:30-31 | `PositionOpened` and `PositionAdjusted` are rejected |
| FuturesTypes.PositionUpdateAliasesDistinct | rust/types/src/futures.rs:42-104 | the sixteen aliases `e E s b B f M m q Q n i p P T l` are one per field and pairwise distinct |
| FuturesTypes.PositionUpdateToJsonKeys | rust/types/src/futures.rs:40-105 | the serialised update has exactly the sixteen alias members |
| FuturesTypes.PositionUpdateMember | rust/types/src/futures.rs:40-105 | each alias holds its field's value |
| FuturesTypes.PositionUpdateReadsOptionals | rust/types/src/futures.rs:41-104 | `e` and `l` read back as the optional fields that wrote them |
| FuturesTypes.PositionUpdateRoundTrip | rust/types/src/futures.rs:40-105 | write then read gives back the same update |
| FuturesTypes.PositionUpdateWithoutOptionals | rust/types/src/futures.rs:41-104 | a payload without `e` and `l` still decodes, with those two fields `None` |
| FuturesTypes.PositionUpdateNeedsRequired | rust/types/src/futures.rs:42-104 | a payload missing any alias other than `e` and `l` fails to decode |
| FuturesTypes.OpenInterestAliases | rust/types/src/futures.rs:110-126 | the aliases `e`, `E`, `s`, `o` are one per field and distinct |
| FuturesTypes.OpenInterestUpdateToJsonKeys | rust/types/src/futures.rs:110-126 | the serialised update has exactly those four members |
| FuturesTypes.OpenInterestUpdateRoundTrip | rust/types/src/futures.rs:110-126 | write then read gives back the same update |
| BorrowLendTypes.BorrowLendMarketStateFromWire | rust/types/src/borrow_lend.rs:22-29 | a string parses iff it is `Open`, `Closed` or `RepayOnly` for the matching variant |
| BorrowLendTypes.BorrowLendMarketStateRoundTrip | rust/types/src/borrow_lend.rs:22-29 | all three states round-trip |
| BorrowLendTypes.BorrowLendMarketStateInjective | rust/types/src/borrow_lend.rs:25-29 | the three wire strings are distinct |
| BorrowLendTypes.BorrowLendMarketStateRejectsOtherCase | rust/types/src/borrow_lend.rs:22-24 | `repayOnly` and `open` are rejected |
| Decimals.ParseToString | rust/types/src/markets.rs:423-433 | a decimal written as text parses back to the same mantissa and scale |
| Decimals.ScalePreserved | rust/types/src/markets.rs:174-183 | a decimal text that parses and is written out again keeps its number of fraction digits, so the scale follows the text |
| Decimals.ToStringFractionDigits | rust/types/src/markets.rs:174-183 | a decimal's text has as many fraction digits as its scale |
| Decimals.ToStringHasNo | rust/client/src/routes/account.rs:51-53 | a decimal's text holds only digits, `.` and `-`, so never `&` or `?` |
| Json.ObjectOfSetLookup | rust/types/src/history.rs:11-46 | with distinct member names, a member is present iff its field is set, and holds that field's value |
| Json.ObjectOfSetNoNull | rust/types/src/history.rs:11-46 | skipped fields never appear as `null` |
| Json.ReadDecimalRoundTrip | rust/types/src/markets.rs:423-433 | a decimal written as a JSON string reads back unchanged |
| Json.ReadI64RoundTrip | rust/types/src/markets.rs:415-417 | a signed 64-bit integer written as a JSON number reads back unchanged |
| Json.ReadU64RoundTrip | rust/types/src/markets.rs:435-437 | an unsigned 64-bit integer written as a JSON number reads back unchanged |

## Left out

- Network I/O is not modelled: the `self.get`/`patch`/`post` calls, `res.json()` and error
  conversion. `BpxClient` itself is not part of this model. Each route is modelled only up to the
  URL string it builds and, for the account routes without a query, the HTTP verb.
- Request bodies (`UpdateAccountPayload`, `ConvertDustPayload`) are not modelled; their types are
  not part of this model.
- `rust/client/src/routes/borrow_lend.rs` is not modelled. It only concatenates constant paths
  onto the base URL.
- `Decimals.Decimal` does not model rust_decimal's internals: the 96-bit mantissa, the scale limit
  of 28 and arithmetic. It is `(mantissa, scale)` with the plain text form that rust_decimal's
  `Display` gives. `Decimals.Parse` accepts only `-?digits(.digits)?`, and it does not accept
  exponents or a leading `+`.
- `Json.ReadDecimal` reads a decimal only from a JSON string, which is rust_decimal's behaviour
  under its `serde-str` feature. Under the default `serde` feature rust_decimal also accepts a
  JSON number, and it converts a fractional one through `f64`. The crate's feature selection is
  not part of this model, and neither is the `f64` conversion. So a payload such as
  `"p": 173.35` is refused here.
- Full serde decoding of the data-only records is not modelled: `Ticker`, `Kline`, `Token`,
  `Asset`, `FuturePosition`, `Strategy`, `Fill` and `BorrowLendMarket`. The same goes for `chrono`
  timestamps, including `Market.created_at`. The market records appear only through their filter
  fields and alias tables.
- `Side`, `KlineInterval`, `KlinePriceType` and `MarginFunction` are defined outside the modelled
  files, so their wire strings are opaque parameters.
- `HistoryRoutes.OrderHistorySearchParams` is modelled from the seven fields the order-history
  route reads. Its own serde attributes are not part of this model.
- Values are interpolated raw, exactly as in the source. No percent-encoding is modelled.
  - `Query.DecodeEncode`, `HistoryRoutes.FillHistoryServerReads`,
    `HistoryRoutes.OrderHistoryServerReads`, `StrategyRoutes.StrategyHistoryServerReads`,
    `AccountRoutes.MaxOrderQuantityServerReads` and `FuturesRoutes.FuturePositionsAtMostOnePair`
    therefore require string arguments free of `&`, and for the shape lemmas of `?`.
  - With such characters, the source's URL is ambiguous to the server. The URL-building contracts
    themselves have no such precondition.
- The "maximum 1000" comment on `limit` is not enforced client-side, and nothing here enforces it.
  Order precision is not validated against `price_decimal_places`.
- 64-bit integers are `int` ranges (`Int64`, `UInt64`). They are printed and parsed in decimal,
  with range checks on reading, and no arithmetic is done on them.
