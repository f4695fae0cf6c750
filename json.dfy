/**
 * The JSON values that the derived (de)serialisers exchange, reduced to the scalars the
 * modelled records use, and the per-field readers and writers those derivations apply:
 * a missing non-optional field, a value of the wrong kind, an unreadable decimal, an
 * out-of-range integer and an unknown enumeration string are each a distinct decode error.
 */
module Json {
  import opened Wrappers
  import opened Text
  import Decimals

  datatype JsonValue = JNull | JBool(b: bool) | JNumber(text: string) | JString(str: string)

  /** A JSON object; members the record does not declare are ignored when reading. */
  type Object = map<string, JsonValue>

  datatype DecodeError =
    | MissingField(field: string)
    | InvalidType(field: string)
    | InvalidDecimal(field: string)
    | OutOfRange(field: string)
    | UnknownVariant(field: string, wire: string)

  // ---- Writers ----

  function I64Value(x: Int64): JsonValue {
    JNumber(IntToString(x))
  }

  function U64Value(x: UInt64): JsonValue {
    JNumber(NatToString(x))
  }

  /** Decimals are written as strings, so no precision is lost. */
  function DecimalValue(d: Decimals.Decimal): JsonValue {
    JString(Decimals.ToString(d))
  }

  // ---- Readers of a single value ----

  function ReadString(key: string, v: JsonValue): Result<string, DecodeError> {
    if v.JString? then Success(v.str) else Failure(InvalidType(key))
  }

  function ReadI64(key: string, v: JsonValue): Result<Int64, DecodeError> {
    if !v.JNumber? then Failure(InvalidType(key))
    else
      match ParseInt(v.text)
      case None => Failure(InvalidType(key))
      case Some(x) =>
        if -0x8000_0000_0000_0000 <= x < 0x8000_0000_0000_0000 then Success(x)
        else Failure(OutOfRange(key))
  }

  function ReadU64(key: string, v: JsonValue): Result<UInt64, DecodeError> {
    if !v.JNumber? then Failure(InvalidType(key))
    else
      match ParseInt(v.text)
      case None => Failure(InvalidType(key))
      case Some(x) =>
        if 0 <= x < 0x1_0000_0000_0000_0000 then Success(x) else Failure(OutOfRange(key))
  }

  function ReadDecimal(key: string, v: JsonValue): Result<Decimals.Decimal, DecodeError> {
    if !v.JString? then Failure(InvalidType(key))
    else
      match Decimals.Parse(v.str)
      case None => Failure(InvalidDecimal(key))
      case Some(d) => Success(d)
  }

  /** An enumeration is read through its wire table; an unknown string is an error, never a default. */
  function ReadEnum<T>(key: string, v: JsonValue, fromWire: string -> Option<T>): Result<T, DecodeError> {
    if !v.JString? then Failure(InvalidType(key))
    else
      match fromWire(v.str)
      case None => Failure(UnknownVariant(key, v.str))
      case Some(e) => Success(e)
  }

  // ---- Readers of an object member ----

  /** A member a record declares without `Option`: it must be present. */
  function Member(o: Object, key: string): (r: Result<JsonValue, DecodeError>)
    ensures r.Success? <==> key in o
  {
    if key in o then Success(o[key]) else Failure(MissingField(key))
  }

  function RequiredString(o: Object, key: string): Result<string, DecodeError> {
    var v :- Member(o, key); ReadString(key, v)
  }

  function RequiredI64(o: Object, key: string): Result<Int64, DecodeError> {
    var v :- Member(o, key); ReadI64(key, v)
  }

  function RequiredU64(o: Object, key: string): Result<UInt64, DecodeError> {
    var v :- Member(o, key); ReadU64(key, v)
  }

  function RequiredDecimal(o: Object, key: string): Result<Decimals.Decimal, DecodeError> {
    var v :- Member(o, key); ReadDecimal(key, v)
  }

  /** An `Option` member: absent and `null` both read as `None`. */
  function OptionalString(o: Object, key: string): Result<Option<string>, DecodeError> {
    if key !in o || o[key].JNull? then Success(None)
    else var x :- ReadString(key, o[key]); Success(Some(x))
  }

  function OptionalI64(o: Object, key: string): Result<Option<Int64>, DecodeError> {
    if key !in o || o[key].JNull? then Success(None)
    else var x :- ReadI64(key, o[key]); Success(Some(x))
  }

  function OptionalU64(o: Object, key: string): Result<Option<UInt64>, DecodeError> {
    if key !in o || o[key].JNull? then Success(None)
    else var x :- ReadU64(key, o[key]); Success(Some(x))
  }

  function OptionalDecimal(o: Object, key: string): Result<Option<Decimals.Decimal>, DecodeError> {
    if key !in o || o[key].JNull? then Success(None)
    else var x :- ReadDecimal(key, o[key]); Success(Some(x))
  }

  function OptionalEnum<T>(o: Object, key: string, fromWire: string -> Option<T>): Result<Option<T>, DecodeError> {
    if key !in o || o[key].JNull? then Success(None)
    else var x :- ReadEnum(key, o[key], fromWire); Success(Some(x))
  }

  /**
   * A field declared with `default = …` as well: an absent member reads as the default, while
   * an explicit `null` still reads as `None`.
   */
  function OptionalU64Or(o: Object, key: string, dflt: Option<UInt64>): Result<Option<UInt64>, DecodeError> {
    if key !in o then Success(dflt) else OptionalU64(o, key)
  }

  /** The object with member `keys[i]` holding `values[i]`. */
  function ObjectOf(keys: seq<string>, values: seq<JsonValue>): Object
    requires |keys| == |values|
  {
    if keys == [] then map[]
    else ObjectOf(keys[..|keys| - 1], values[..|values| - 1])[keys[|keys| - 1] := values[|values| - 1]]
  }

  /** `ObjectOf` has one member per key, and no other. */
  lemma {:induction false} ObjectOfKeys(keys: seq<string>, values: seq<JsonValue>)
    requires |keys| == |values|
    ensures forall k :: k in ObjectOf(keys, values) <==> k in keys
  {
    if keys != [] {
      var ks, vs := keys[..|keys| - 1], values[..|values| - 1];
      ObjectOfKeys(ks, vs);
      assert keys == ks + [keys[|keys| - 1]];
    }
  }

  /** With distinct keys, every member of `ObjectOf` holds its own value. */
  lemma {:induction false} ObjectOfLookup(keys: seq<string>, values: seq<JsonValue>, i: nat)
    requires |keys| == |values| && Distinct(keys) && i < |keys|
    ensures keys[i] in ObjectOf(keys, values) && ObjectOf(keys, values)[keys[i]] == values[i]
  {
    if i < |keys| - 1 {
      var ks, vs := keys[..|keys| - 1], values[..|values| - 1];
      assert Distinct(ks) by {
        forall a, b | 0 <= a < b < |ks| ensures ks[a] != ks[b] {
          assert ks[a] == keys[a] && ks[b] == keys[b];
        }
      }
      ObjectOfLookup(ks, vs, i);
      assert keys[i] == ks[i];
    }
  }

  /** The object of the members that are set: a member without a value is left out entirely. */
  function ObjectOfSet(keys: seq<string>, values: seq<Option<JsonValue>>): Object
    requires |keys| == |values|
  {
    if keys == [] then map[]
    else
      var rest := ObjectOfSet(keys[..|keys| - 1], values[..|values| - 1]);
      match values[|values| - 1]
      case None => rest
      case Some(v) => rest[keys[|keys| - 1] := v]
  }

  /** With distinct keys, a key is a member exactly when its value is set, and holds that value. */
  lemma {:induction false} ObjectOfSetLookup(keys: seq<string>, values: seq<Option<JsonValue>>, i: nat)
    requires |keys| == |values| && Distinct(keys) && i < |keys|
    ensures keys[i] in ObjectOfSet(keys, values) <==> values[i].Some?
    ensures values[i].Some? ==> ObjectOfSet(keys, values)[keys[i]] == values[i].value
  {
    var ks, vs := keys[..|keys| - 1], values[..|values| - 1];
    if i < |keys| - 1 {
      assert Distinct(ks) by {
        forall a, b | 0 <= a < b < |ks| ensures ks[a] != ks[b] {
          assert ks[a] == keys[a] && ks[b] == keys[b];
        }
      }
      ObjectOfSetLookup(ks, vs, i);
      assert keys[i] == ks[i] && values[i] == vs[i];
    } else {
      ObjectOfSetFrom(ks, vs);
      assert keys[i] !in ks by {
        forall j | 0 <= j < |ks| ensures ks[j] != keys[i] {
          assert ks[j] == keys[j];
        }
      }
    }
  }

  /** Every member of `ObjectOfSet` comes from a key of the table and one of the set values. */
  lemma {:induction false} ObjectOfSetFrom(keys: seq<string>, values: seq<Option<JsonValue>>)
    requires |keys| == |values|
    ensures forall k :: k in ObjectOfSet(keys, values) ==> k in keys && Some(ObjectOfSet(keys, values)[k]) in values
  {
    if keys != [] {
      var ks, vs := keys[..|keys| - 1], values[..|values| - 1];
      ObjectOfSetFrom(ks, vs);
      assert keys == ks + [keys[|keys| - 1]];
      assert values == vs + [values[|values| - 1]];
    }
  }

  /** When no set value is `null`, no member of the object is. */
  lemma ObjectOfSetNoNull(keys: seq<string>, values: seq<Option<JsonValue>>)
    requires |keys| == |values|
    requires forall i :: 0 <= i < |values| ==> values[i] != Some(JNull)
    ensures forall k :: k in ObjectOfSet(keys, values) ==> k in keys && !ObjectOfSet(keys, values)[k].JNull?
  {
    ObjectOfSetFrom(keys, values);
  }

  /** A required decimal member holding a string that parses reads as the parsed decimal. */
  lemma RequiredDecimalText(o: Object, key: string, text: string, d: Decimals.Decimal)
    requires key in o && o[key] == JString(text) && Decimals.Parse(text) == Some(d)
    ensures RequiredDecimal(o, key) == Success(d)
  {
  }

  /** Removing other members does not change how a required member reads. */
  lemma RequiredIgnoresOthers(o: Object, drop: set<string>, key: string)
    requires key !in drop
    ensures RequiredString(o - drop, key) == RequiredString(o, key)
    ensures RequiredI64(o - drop, key) == RequiredI64(o, key)
    ensures RequiredU64(o - drop, key) == RequiredU64(o, key)
    ensures RequiredDecimal(o - drop, key) == RequiredDecimal(o, key)
  {
  }

  // ---- Lemmas: each writer is read back by its reader ----

  lemma ReadI64RoundTrip(key: string, x: Int64)
    ensures ReadI64(key, I64Value(x)) == Success(x)
  {
    ParseIntRoundTrip(x);
  }

  lemma ReadU64RoundTrip(key: string, x: UInt64)
    ensures ReadU64(key, U64Value(x)) == Success(x)
  {
    ParseNatRoundTrip(x);
    assert NatToString(x)[0] != '-';
  }

  lemma ReadDecimalRoundTrip(key: string, d: Decimals.Decimal)
    ensures ReadDecimal(key, DecimalValue(d)) == Success(d)
  {
    Decimals.ParseToString(d);
  }
}
