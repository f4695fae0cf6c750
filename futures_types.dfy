/**
 * Futures stream payloads: the camelCase position-update-type table, and the alias tables of
 * the position-update and open-interest streams. In a position update the event type (`e`)
 * and the deprecated estimated liquidation price (`l`) are `Option`s: they read as `None`
 * when the member is absent or null, and are written as null when `None`.
 */
module FuturesTypes {
  import opened Wrappers
  import opened Text
  import opened Decimals
  import opened Json

  /** Position update types travel in camelCase. */
  datatype PositionUpdateType = PositionAdjusted | PositionOpened | PositionClosed

  function PositionUpdateTypeToWire(t: PositionUpdateType): string {
    match t
    case PositionAdjusted => "positionAdjusted"
    case PositionOpened => "positionOpened"
    case PositionClosed => "positionClosed"
  }

  /** Case-sensitive; a string outside the table is rejected. */
  function PositionUpdateTypeFromWire(s: string): (r: Option<PositionUpdateType>)
    ensures forall t :: r == Some(t) <==> PositionUpdateTypeToWire(t) == s
  {
    if s == "positionAdjusted" then Some(PositionAdjusted)
    else if s == "positionOpened" then Some(PositionOpened)
    else if s == "positionClosed" then Some(PositionClosed)
    else None
  }

  lemma PositionUpdateTypeRoundTrip(t: PositionUpdateType)
    ensures PositionUpdateTypeFromWire(PositionUpdateTypeToWire(t)) == Some(t)
  {
  }

  lemma PositionUpdateTypeInjective(a: PositionUpdateType, b: PositionUpdateType)
    requires PositionUpdateTypeToWire(a) == PositionUpdateTypeToWire(b)
    ensures a == b
  {
    assert PositionUpdateTypeFromWire(PositionUpdateTypeToWire(a)) == Some(b);
  }

  /** The PascalCase spelling used by other tables is not accepted here. */
  lemma PositionUpdateTypeRejectsPascalCase()
    ensures PositionUpdateTypeFromWire("PositionOpened") == None
    ensures PositionUpdateTypeFromWire("PositionAdjusted") == None
  {
  }

  // ---- Position updates ----

  const POSITION_UPDATE_FIELDS: seq<string> := [
    "event_type", "event_time", "symbol", "break_even_price", "entry_price", "imf", "mark_price",
    "mmf", "net_quantity", "net_exposure_quantity", "net_exposure_notional", "position_id",
    "pnl_realized", "pnl_unrealized", "timestamp", "est_liquidation_price"]
  const POSITION_UPDATE_ALIASES: seq<string> :=
    ["e", "E", "s", "b", "B", "f", "M", "m", "q", "Q", "n", "i", "p", "P", "T", "l"]

  /** One alias per field, pairwise distinct under case-sensitive comparison (`b`/`B`, `m`/`M`, …). */
  lemma PositionUpdateAliasesDistinct()
    ensures |POSITION_UPDATE_ALIASES| == |POSITION_UPDATE_FIELDS| && Distinct(POSITION_UPDATE_ALIASES)
  {
  }

  datatype PositionUpdate = PositionUpdate(
    eventType: Option<PositionUpdateType>,
    eventTime: Int64,
    symbol: string,
    breakEvenPrice: Decimal,
    entryPrice: Decimal,
    imf: Decimal,
    markPrice: Decimal,
    mmf: Decimal,
    netQuantity: Decimal,
    netExposureQuantity: Decimal,
    netExposureNotional: Decimal,
    positionId: UInt64,
    pnlRealized: Decimal,
    pnlUnrealized: Decimal,
    timestamp: UInt64,
    estLiquidationPrice: Option<Decimal>)

  function PositionUpdateValues(u: PositionUpdate): (vs: seq<JsonValue>)
    ensures |vs| == |POSITION_UPDATE_ALIASES|
  {
    [if u.eventType.Some? then JString(PositionUpdateTypeToWire(u.eventType.value)) else JNull,
     I64Value(u.eventTime), JString(u.symbol), DecimalValue(u.breakEvenPrice),
     DecimalValue(u.entryPrice), DecimalValue(u.imf), DecimalValue(u.markPrice),
     DecimalValue(u.mmf), DecimalValue(u.netQuantity), DecimalValue(u.netExposureQuantity),
     DecimalValue(u.netExposureNotional), U64Value(u.positionId), DecimalValue(u.pnlRealized),
     DecimalValue(u.pnlUnrealized), U64Value(u.timestamp),
     if u.estLiquidationPrice.Some? then DecimalValue(u.estLiquidationPrice.value) else JNull]
  }

  /** The serialised form: every alias is written, the two optional ones as null when `None`. */
  function PositionUpdateToJson(u: PositionUpdate): Object {
    ObjectOf(POSITION_UPDATE_ALIASES, PositionUpdateValues(u))
  }

  /** The serialised form has one member per alias of the table, and no other. */
  lemma PositionUpdateToJsonKeys(u: PositionUpdate)
    ensures forall a :: a in PositionUpdateToJson(u) <==> a in POSITION_UPDATE_ALIASES
  {
    ObjectOfKeys(POSITION_UPDATE_ALIASES, PositionUpdateValues(u));
  }

  function PositionUpdateFromJson(o: Object): Result<PositionUpdate, DecodeError> {
    var eventType :- OptionalEnum(o, "e", PositionUpdateTypeFromWire);
    var eventTime :- RequiredI64(o, "E");
    var symbol :- RequiredString(o, "s");
    var breakEvenPrice :- RequiredDecimal(o, "b");
    var entryPrice :- RequiredDecimal(o, "B");
    var imf :- RequiredDecimal(o, "f");
    var markPrice :- RequiredDecimal(o, "M");
    var mmf :- RequiredDecimal(o, "m");
    var netQuantity :- RequiredDecimal(o, "q");
    var netExposureQuantity :- RequiredDecimal(o, "Q");
    var netExposureNotional :- RequiredDecimal(o, "n");
    var positionId :- RequiredU64(o, "i");
    var pnlRealized :- RequiredDecimal(o, "p");
    var pnlUnrealized :- RequiredDecimal(o, "P");
    var timestamp :- RequiredU64(o, "T");
    var estLiquidationPrice :- OptionalDecimal(o, "l");
    Success(PositionUpdate(eventType, eventTime, symbol, breakEvenPrice, entryPrice, imf, markPrice,
      mmf, netQuantity, netExposureQuantity, netExposureNotional, positionId, pnlRealized,
      pnlUnrealized, timestamp, estLiquidationPrice))
  }

  lemma PositionUpdateMember(u: PositionUpdate, i: nat)
    requires i < |POSITION_UPDATE_ALIASES|
    ensures var o, a := PositionUpdateToJson(u), POSITION_UPDATE_ALIASES[i];
      a in o && o[a] == PositionUpdateValues(u)[i]
  {
    PositionUpdateAliasesDistinct();
    ObjectOfLookup(POSITION_UPDATE_ALIASES, PositionUpdateValues(u), i);
  }

  lemma PositionUpdateReadsA(u: PositionUpdate)
    ensures RequiredI64(PositionUpdateToJson(u), "E") == Success(u.eventTime)
    ensures RequiredString(PositionUpdateToJson(u), "s") == Success(u.symbol)
    ensures RequiredDecimal(PositionUpdateToJson(u), "b") == Success(u.breakEvenPrice)
    ensures RequiredDecimal(PositionUpdateToJson(u), "B") == Success(u.entryPrice)
    ensures RequiredDecimal(PositionUpdateToJson(u), "f") == Success(u.imf)
  {
    PositionUpdateMember(u, 1);
    PositionUpdateMember(u, 2);
    PositionUpdateMember(u, 3);
    PositionUpdateMember(u, 4);
    PositionUpdateMember(u, 5);
    ReadI64RoundTrip("E", u.eventTime);
    ReadDecimalRoundTrip("b", u.breakEvenPrice);
    ReadDecimalRoundTrip("B", u.entryPrice);
    ReadDecimalRoundTrip("f", u.imf);
  }

  lemma PositionUpdateReadsB(u: PositionUpdate)
    ensures RequiredDecimal(PositionUpdateToJson(u), "M") == Success(u.markPrice)
    ensures RequiredDecimal(PositionUpdateToJson(u), "m") == Success(u.mmf)
    ensures RequiredDecimal(PositionUpdateToJson(u), "q") == Success(u.netQuantity)
    ensures RequiredDecimal(PositionUpdateToJson(u), "Q") == Success(u.netExposureQuantity)
    ensures RequiredDecimal(PositionUpdateToJson(u), "n") == Success(u.netExposureNotional)
  {
    PositionUpdateMember(u, 6);
    PositionUpdateMember(u, 7);
    PositionUpdateMember(u, 8);
    PositionUpdateMember(u, 9);
    PositionUpdateMember(u, 10);
    ReadDecimalRoundTrip("M", u.markPrice);
    ReadDecimalRoundTrip("m", u.mmf);
    ReadDecimalRoundTrip("q", u.netQuantity);
    ReadDecimalRoundTrip("Q", u.netExposureQuantity);
    ReadDecimalRoundTrip("n", u.netExposureNotional);
  }

  lemma PositionUpdateReadsC(u: PositionUpdate)
    ensures RequiredU64(PositionUpdateToJson(u), "i") == Success(u.positionId)
    ensures RequiredDecimal(PositionUpdateToJson(u), "p") == Success(u.pnlRealized)
    ensures RequiredDecimal(PositionUpdateToJson(u), "P") == Success(u.pnlUnrealized)
    ensures RequiredU64(PositionUpdateToJson(u), "T") == Success(u.timestamp)
  {
    PositionUpdateMember(u, 11);
    PositionUpdateMember(u, 12);
    PositionUpdateMember(u, 13);
    PositionUpdateMember(u, 14);
    ReadU64RoundTrip("i", u.positionId);
    ReadDecimalRoundTrip("p", u.pnlRealized);
    ReadDecimalRoundTrip("P", u.pnlUnrealized);
    ReadU64RoundTrip("T", u.timestamp);
  }

  lemma PositionUpdateWithoutOptionalsReadsA(u: PositionUpdate)
    ensures RequiredI64(PositionUpdateToJson(u) - {"e", "l"}, "E") == Success(u.eventTime)
    ensures RequiredString(PositionUpdateToJson(u) - {"e", "l"}, "s") == Success(u.symbol)
    ensures RequiredDecimal(PositionUpdateToJson(u) - {"e", "l"}, "b") == Success(u.breakEvenPrice)
    ensures RequiredDecimal(PositionUpdateToJson(u) - {"e", "l"}, "B") == Success(u.entryPrice)
    ensures RequiredDecimal(PositionUpdateToJson(u) - {"e", "l"}, "f") == Success(u.imf)
  {
    PositionUpdateReadsA(u);
    RequiredIgnoresOthers(PositionUpdateToJson(u), {"e", "l"}, "E");
    RequiredIgnoresOthers(PositionUpdateToJson(u), {"e", "l"}, "s");
    RequiredIgnoresOthers(PositionUpdateToJson(u), {"e", "l"}, "b");
    RequiredIgnoresOthers(PositionUpdateToJson(u), {"e", "l"}, "B");
    RequiredIgnoresOthers(PositionUpdateToJson(u), {"e", "l"}, "f");
  }

  lemma PositionUpdateWithoutOptionalsReadsB(u: PositionUpdate)
    ensures RequiredDecimal(PositionUpdateToJson(u) - {"e", "l"}, "M") == Success(u.markPrice)
    ensures RequiredDecimal(PositionUpdateToJson(u) - {"e", "l"}, "m") == Success(u.mmf)
    ensures RequiredDecimal(PositionUpdateToJson(u) - {"e", "l"}, "q") == Success(u.netQuantity)
    ensures RequiredDecimal(PositionUpdateToJson(u) - {"e", "l"}, "Q") == Success(u.netExposureQuantity)
    ensures RequiredDecimal(PositionUpdateToJson(u) - {"e", "l"}, "n") == Success(u.netExposureNotional)
  {
    PositionUpdateReadsB(u);
    RequiredIgnoresOthers(PositionUpdateToJson(u), {"e", "l"}, "M");
    RequiredIgnoresOthers(PositionUpdateToJson(u), {"e", "l"}, "m");
    RequiredIgnoresOthers(PositionUpdateToJson(u), {"e", "l"}, "q");
    RequiredIgnoresOthers(PositionUpdateToJson(u), {"e", "l"}, "Q");
    RequiredIgnoresOthers(PositionUpdateToJson(u), {"e", "l"}, "n");
  }

  lemma PositionUpdateWithoutOptionalsReadsC(u: PositionUpdate)
    ensures RequiredU64(PositionUpdateToJson(u) - {"e", "l"}, "i") == Success(u.positionId)
    ensures RequiredDecimal(PositionUpdateToJson(u) - {"e", "l"}, "p") == Success(u.pnlRealized)
    ensures RequiredDecimal(PositionUpdateToJson(u) - {"e", "l"}, "P") == Success(u.pnlUnrealized)
    ensures RequiredU64(PositionUpdateToJson(u) - {"e", "l"}, "T") == Success(u.timestamp)
  {
    PositionUpdateReadsC(u);
    RequiredIgnoresOthers(PositionUpdateToJson(u), {"e", "l"}, "i");
    RequiredIgnoresOthers(PositionUpdateToJson(u), {"e", "l"}, "p");
    RequiredIgnoresOthers(PositionUpdateToJson(u), {"e", "l"}, "P");
    RequiredIgnoresOthers(PositionUpdateToJson(u), {"e", "l"}, "T");
  }

  lemma PositionUpdateReadsOptionals(u: PositionUpdate)
    ensures OptionalEnum(PositionUpdateToJson(u), "e", PositionUpdateTypeFromWire) == Success(u.eventType)
    ensures OptionalDecimal(PositionUpdateToJson(u), "l") == Success(u.estLiquidationPrice)
  {
    PositionUpdateMember(u, 0);
    PositionUpdateMember(u, 15);
    if u.eventType.Some? {
      PositionUpdateTypeRoundTrip(u.eventType.value);
    }
    if u.estLiquidationPrice.Some? {
      ReadDecimalRoundTrip("l", u.estLiquidationPrice.value);
    }
  }

  /** Serialising a position update and reading it back loses nothing, `None`s included. */
  lemma PositionUpdateRoundTrip(u: PositionUpdate)
    ensures PositionUpdateFromJson(PositionUpdateToJson(u)) == Success(u)
  {
    PositionUpdateReadsOptionals(u);
    PositionUpdateReadsA(u);
    PositionUpdateReadsB(u);
    PositionUpdateReadsC(u);
  }

  /** A payload without `e` and `l` still decodes, with both fields `None`. */
  lemma PositionUpdateWithoutOptionals(u: PositionUpdate)
    ensures PositionUpdateFromJson(PositionUpdateToJson(u) - {"e", "l"})
      == Success(u.(eventType := None, estLiquidationPrice := None))
  {
    PositionUpdateWithoutOptionalsReadsA(u);
    PositionUpdateWithoutOptionalsReadsB(u);
    PositionUpdateWithoutOptionalsReadsC(u);
  }

  /** The reads up to `m` all succeed (a stepping stone for the proofs below). */
  predicate ReadsThroughMmf(o: Object) {
    OptionalEnum(o, "e", PositionUpdateTypeFromWire).Success? && RequiredI64(o, "E").Success?
    && RequiredString(o, "s").Success? && RequiredDecimal(o, "b").Success?
    && RequiredDecimal(o, "B").Success? && RequiredDecimal(o, "f").Success?
    && RequiredDecimal(o, "M").Success? && RequiredDecimal(o, "m").Success?
  }

  /** The reads from `q` to `i` all succeed. */
  predicate ReadsThroughPositionId(o: Object) {
    RequiredDecimal(o, "q").Success? && RequiredDecimal(o, "Q").Success?
    && RequiredDecimal(o, "n").Success? && RequiredU64(o, "i").Success?
  }

  lemma PositionUpdateFailsEarly(o: Object)
    requires !ReadsThroughMmf(o)
    ensures PositionUpdateFromJson(o).Failure?
  {
  }

  lemma PositionUpdateFailsMiddle(o: Object)
    requires ReadsThroughMmf(o) && !ReadsThroughPositionId(o)
    ensures PositionUpdateFromJson(o).Failure?
  {
  }

  lemma PositionUpdateFailsLate(o: Object, alias: string)
    requires ReadsThroughMmf(o) && ReadsThroughPositionId(o)
    requires alias in ["p", "P", "T"] && alias !in o
    ensures PositionUpdateFromJson(o).Failure?
  {
    if alias == "p" {
      assert RequiredDecimal(o, "p").Failure?;
    } else if alias == "P" {
      assert RequiredDecimal(o, "P").Failure?;
    } else {
      assert RequiredU64(o, "T").Failure?;
    }
  }

  /** A required member that is missing makes the whole payload fail. */
  lemma PositionUpdateNeedsRequired(o: Object, alias: string)
    requires alias in POSITION_UPDATE_ALIASES && alias != "e" && alias != "l" && alias !in o
    ensures PositionUpdateFromJson(o).Failure?
  {
    if !ReadsThroughMmf(o) {
      PositionUpdateFailsEarly(o);
    } else if !ReadsThroughPositionId(o) {
      PositionUpdateFailsMiddle(o);
    } else {
      PositionUpdateFailsLate(o, alias);
    }
  }

  // ---- Open-interest updates ----

  const OPEN_INTEREST_UPDATE_FIELDS: seq<string> := ["event_type", "event_time", "symbol", "open_interest"]
  const OPEN_INTEREST_UPDATE_ALIASES: seq<string> := ["e", "E", "s", "o"]

  datatype OpenInterestUpdate = OpenInterestUpdate(
    eventType: string, eventTime: Int64, symbol: string, openInterest: Decimal)

  function OpenInterestUpdateValues(u: OpenInterestUpdate): (vs: seq<JsonValue>)
    ensures |vs| == |OPEN_INTEREST_UPDATE_ALIASES|
  {
    [JString(u.eventType), I64Value(u.eventTime), JString(u.symbol), DecimalValue(u.openInterest)]
  }

  function OpenInterestUpdateToJson(u: OpenInterestUpdate): Object {
    ObjectOf(OPEN_INTEREST_UPDATE_ALIASES, OpenInterestUpdateValues(u))
  }

  /** The serialised form has one member per alias of the table, and no other. */
  lemma OpenInterestUpdateToJsonKeys(u: OpenInterestUpdate)
    ensures forall a :: a in OpenInterestUpdateToJson(u) <==> a in OPEN_INTEREST_UPDATE_ALIASES
  {
    ObjectOfKeys(OPEN_INTEREST_UPDATE_ALIASES, OpenInterestUpdateValues(u));
  }

  function OpenInterestUpdateFromJson(o: Object): Result<OpenInterestUpdate, DecodeError> {
    var eventType :- RequiredString(o, "e");
    var eventTime :- RequiredI64(o, "E");
    var symbol :- RequiredString(o, "s");
    var openInterest :- RequiredDecimal(o, "o");
    Success(OpenInterestUpdate(eventType, eventTime, symbol, openInterest))
  }

  /** `e`→event_type, `E`→event_time, `s`→symbol, `o`→open_interest, all distinct. */
  lemma OpenInterestAliases()
    ensures |OPEN_INTEREST_UPDATE_ALIASES| == |OPEN_INTEREST_UPDATE_FIELDS|
    ensures Distinct(OPEN_INTEREST_UPDATE_ALIASES)
  {
  }

  lemma OpenInterestUpdateRoundTrip(u: OpenInterestUpdate)
    ensures OpenInterestUpdateFromJson(OpenInterestUpdateToJson(u)) == Success(u)
  {
    var ks, vs := OPEN_INTEREST_UPDATE_ALIASES, OpenInterestUpdateValues(u);
    OpenInterestAliases();
    ObjectOfLookup(ks, vs, 0);
    ObjectOfLookup(ks, vs, 1);
    ObjectOfLookup(ks, vs, 2);
    ObjectOfLookup(ks, vs, 3);
    ReadI64RoundTrip("E", u.eventTime);
    ReadDecimalRoundTrip("o", u.openInterest);
  }
}
