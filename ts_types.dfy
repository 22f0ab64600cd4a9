/**
 * Attribute, time and scope conversions of the TypeScript revision (ts/src/types.ts). An
 * attribute value crosses the boundary as the JSON text of what the conversion hands to
 * `JSON.stringify`; this module models that argument (`Stringified`) and what `JSON.stringify`
 * makes of it, the `TypeError` a `BigInt` raises included.
 */
module TsTypes {
  import opened Wrappers
  import opened Numbers
  import J = Json
  import Ts = TsSdk
  import W = Schema
  import Seqs

  /** What `attributeValueToWasi` hands to `JSON.stringify`. */
  datatype Stringified =
    | Plain(json: J.Json)
    | BigIntOf(i: int)
    | BigInt64ArrayOf(ints: seq<I64>)
    | Float64ArrayOf(floats: seq<F64Bits>)

  /** A JavaScript number as a JSON value: `JSON.stringify` writes NaN and the infinities as null. */
  function NumberJson(f: F64Bits): (j: J.Json)
    ensures j.Null? <==> NonFinite(f)
    ensures j.Float? ==> j.f == f
  {
    if NonFinite(f) then J.Null else J.Float(f)
  }

  /** `value.filter(v => v != null)`: the present entries, in order. */
  function Present<T>(items: seq<Option<T>>): (r: seq<T>)
    ensures |r| <= |items|
    ensures |r| == 0 <==> forall k :: 0 <= k < |items| ==> items[k].None?
    ensures forall k :: 0 <= k < |r| ==> Some(r[k]) in items
    ensures forall k :: 0 <= k < |items| && items[k].Some? ==> items[k].value in r
  {
    if |items| == 0 then []
    else if items[0].Some? then [items[0].value] + Present(items[1..])
    else Present(items[1..])
  }

  /** With no null entries, filtering keeps every entry. */
  lemma {:induction false} PresentAll<T>(items: seq<Option<T>>)
    requires forall k :: 0 <= k < |items| ==> items[k].Some?
    ensures |Present(items)| == |items|
    ensures forall k :: 0 <= k < |items| ==> Present(items)[k] == items[k].value
  {
    if |items| > 0 {
      PresentAll(items[1..]);
    }
  }

  /** The `BigInt64Array` of integer numbers: each element is BigInt(n) stored as a signed 64-bit integer. */
  function BigInts(numbers: seq<F64Bits>): (r: seq<I64>)
    requires forall k :: 0 <= k < |numbers| ==> IsIntegral(numbers[k])
    ensures |r| == |numbers|
    ensures forall k :: 0 <= k < |numbers| ==> r[k] == WrapI64(IntegralValue(numbers[k]))
  {
    seq(|numbers|, k requires 0 <= k < |numbers| => WrapI64(IntegralValue(numbers[k])))
  }

  /** Lines 34-53 of `attributeValueToWasi` once the entries are filtered and the first is a number. */
  function NumbersHanded(numbers: seq<F64Bits>): (r: Stringified)
  {
    if forall k :: 0 <= k < |numbers| ==> IsIntegral(numbers[k]) then BigInt64ArrayOf(BigInts(numbers))
    else Float64ArrayOf(numbers)
  }

  /** What `attributeValueToWasi` hands to `JSON.stringify` for each kind of value. */
  function Handed(v: Ts.AttributeValue): (r: Stringified)
  {
    match v
    case AString(s) => Plain(J.Str(s))
    case ABool(b) => Plain(J.Bool(b))
    case ANumber(f) => if IsIntegral(f) then BigIntOf(IntegralValue(f)) else Plain(NumberJson(f))
    case AStringArray(items) =>
      var filtered := Present(items);
      Plain(J.Array(seq(|filtered|, k requires 0 <= k < |filtered| => J.Str(filtered[k]))))
    case ABoolArray(items) =>
      var filtered := Present(items);
      Plain(J.Array(seq(|filtered|, k requires 0 <= k < |filtered| => J.Bool(filtered[k]))))
    case ANumberArray(items) =>
      var filtered := Present(items);
      if |filtered| == 0 then Plain(J.Array([])) else NumbersHanded(filtered)
    case AUndefined => Plain(J.Str(""))
  }

  /** Fills a fresh `BigInt64Array` element by element, as the `forEach` at lines 47-48 does. */
  method FillBigInt64Array(numbers: seq<F64Bits>) returns (a: array<I64>)
    requires forall k :: 0 <= k < |numbers| ==> IsIntegral(numbers[k])
    ensures fresh(a)
    ensures a[..] == BigInts(numbers)
  {
    a := new I64[|numbers|](_ => 0);
    for i := 0 to |numbers|
      invariant forall k :: 0 <= k < i ==> a[k] == WrapI64(IntegralValue(numbers[k]))
    {
      a[i] := WrapI64(IntegralValue(numbers[i]));
    }
  }

  /** The message of the `TypeError` that `JSON.stringify` throws when it meets a `BigInt`. */
  const BIGINT_TYPE_ERROR: string := "TypeError: Do not know how to serialize a BigInt"

  /** A `Float64Array` as `JSON.stringify` sees it: an object keyed by the indices "0", "1", ... */
  function Float64Json(floats: seq<F64Bits>): (j: J.Json)
  {
    J.Object(seq(|floats|, k requires 0 <= k < |floats| => (J.NatDigits(k), NumberJson(floats[k]))))
  }

  /**
   * `JSON.stringify` of each argument: a `BigInt`, alone or as an element of a `BigInt64Array`,
   * throws; everything else has its JSON text.
   */
  function Stringify(x: Stringified, ft: J.FloatFormatter): (r: Outcome<string>)
    ensures r.Abort? <==> x.BigIntOf? || (x.BigInt64ArrayOf? && |x.ints| > 0)
    ensures r.Abort? ==> r.reason == BIGINT_TYPE_ERROR
  {
    match x
    case Plain(j) => Ok(J.Render(j, J.Standard, ft))
    case BigIntOf(_) => Abort(BIGINT_TYPE_ERROR)
    case BigInt64ArrayOf(ints) => if |ints| == 0 then Ok(J.Render(J.Object([]), J.Standard, ft)) else Abort(BIGINT_TYPE_ERROR)
    case Float64ArrayOf(floats) => Ok(J.Render(Float64Json(floats), J.Standard, ft))
  }

  /** The values whose conversion meets a `BigInt`: an integer, or numbers whose present entries are all integers. */
  predicate MeetsBigInt(v: Ts.AttributeValue)
  {
    match v
    case ANumber(f) => IsIntegral(f)
    case ANumberArray(items) =>
      |Present(items)| > 0 && forall k :: 0 <= k < |Present(items)| ==> IsIntegral(Present(items)[k])
    case _ => false
  }

  /** What `attributeValueToWasi` returns: the JSON text, or the `TypeError` it throws. */
  function ValueText(v: Ts.AttributeValue, ft: J.FloatFormatter): (r: Outcome<string>)
    ensures r.Abort? <==> MeetsBigInt(v)
    ensures r.Abort? ==> r.reason == BIGINT_TYPE_ERROR
  {
    Stringify(Handed(v), ft)
  }

  /** `attributeValueToWasi`, the typed array filled by its loop included. */
  method AttributeValueToWasi(v: Ts.AttributeValue, ft: J.FloatFormatter) returns (r: Outcome<string>)
    ensures r == ValueText(v, ft)
  {
    match v {
      case ANumberArray(items) =>
        var filtered := Present(items);
        if |filtered| == 0 {
          return Ok(J.Render(J.Array([]), J.Standard, ft));
        }
        if forall k :: 0 <= k < |filtered| ==> IsIntegral(filtered[k]) {
          var a := FillBigInt64Array(filtered);
          return Stringify(BigInt64ArrayOf(a[..]), ft);
        }
        r := Stringify(Float64ArrayOf(filtered), ft);
      case _ =>
        r := Stringify(Handed(v), ft);
    }
  }

  /** Attributes whose conversion does not throw. */
  predicate Stringifiable(attrs: Ts.Attributes)
  {
    attrs.Some? ==> forall k :: 0 <= k < |attrs.value| ==> !MeetsBigInt(attrs.value[k].1)
  }

  /** One entry of `attributesToWasi`: the key and the value's text. */
  function KeyValueToWasi(entry: (string, Ts.AttributeValue), ft: J.FloatFormatter): (r: Outcome<W.KeyValue<string>>)
    ensures r.Ok? <==> !MeetsBigInt(entry.1)
    ensures r.Ok? ==> r.value == W.KeyValue(entry.0, ValueText(entry.1, ft).value)
    ensures r.Abort? ==> r.reason == BIGINT_TYPE_ERROR
  {
    var text :- ValueText(entry.1, ft);
    Ok(W.KeyValue(entry.0, text))
  }

  /**
   * `attributesToWasi`: no attributes for `undefined`, else one key-value per entry, in order;
   * the `TypeError` of any entry escapes.
   */
  function AttributesToWasi(attrs: Ts.Attributes, ft: J.FloatFormatter): (r: Outcome<seq<W.KeyValue<string>>>)
    ensures attrs.None? ==> r == Ok([])
    ensures r.Ok? <==> Stringifiable(attrs)
    ensures r.Ok? && attrs.Some? ==>
      |r.value| == |attrs.value| &&
      forall k :: 0 <= k < |attrs.value| ==> r.value[k] == W.KeyValue(attrs.value[k].0, ValueText(attrs.value[k].1, ft).value)
    ensures r.Abort? ==> r.reason == BIGINT_TYPE_ERROR
  {
    match attrs
    case None => Ok([])
    case Some(entries) =>
      Seqs.MapAll(entries, (e: (string, Ts.AttributeValue)) => KeyValueToWasi(e, ft))
  }

  // ---- properties of the attribute conversion ------------------------------------------------

  /** A string attribute is a JSON string literal that reads back as the string. */
  lemma StringAttribute(s: string, ft: J.FloatFormatter)
    ensures ValueText(Ts.AString(s), ft).Ok?
    ensures J.Unquote(ValueText(Ts.AString(s), ft).value) == Some(s)
  {
    J.UnquoteQuote(s, J.Standard);
  }

  /** Booleans are the JSON literals, and a missing value is the empty string literal. */
  lemma BoolAndDefaultAttributes(b: bool, ft: J.FloatFormatter)
    ensures ValueText(Ts.ABool(b), ft) == Ok(if b then "true" else "false")
    ensures ValueText(Ts.AUndefined, ft) == Ok("\"\"")
  {
    assert J.Escape("", J.Standard) == "";
    assert J.Quote("", J.Standard) == "\"\"";
  }

  /** A number takes the BigInt branch exactly when `Number.isInteger` holds, with its exact value. */
  lemma NumberBranch(f: F64Bits)
    ensures Handed(Ts.ANumber(f)).BigIntOf? <==> IsIntegral(f)
    ensures IsIntegral(f) ==> Handed(Ts.ANumber(f)) == BigIntOf(IntegralValue(f))
    ensures !IsIntegral(f) ==> Handed(Ts.ANumber(f)) == Plain(NumberJson(f))
  {
  }

  /** Arrays of any type: an array with no present entries is the empty JSON array. */
  lemma EmptyArrays(strings: seq<Option<string>>, bools: seq<Option<bool>>, numbers: seq<Option<F64Bits>>, ft: J.FloatFormatter)
    requires forall k :: 0 <= k < |strings| ==> strings[k].None?
    requires forall k :: 0 <= k < |bools| ==> bools[k].None?
    requires forall k :: 0 <= k < |numbers| ==> numbers[k].None?
    ensures ValueText(Ts.AStringArray(strings), ft) == Ok("[]")
    ensures ValueText(Ts.ABoolArray(bools), ft) == Ok("[]")
    ensures ValueText(Ts.ANumberArray(numbers), ft) == Ok("[]")
  {
    assert |Present(strings)| == 0 && |Present(bools)| == 0;
    assert |Handed(Ts.AStringArray(strings)).json.items| == 0;
    assert Handed(Ts.AStringArray(strings)) == Plain(J.Array([]));
    assert |Handed(Ts.ABoolArray(bools)).json.items| == 0;
    assert Handed(Ts.ABoolArray(bools)) == Plain(J.Array([]));
    assert Handed(Ts.ANumberArray(numbers)) == Plain(J.Array([]));
    assert J.Render(J.Array([]), J.Standard, ft) == "[]" by {
      assert J.Render(J.Array([]), J.Standard, ft) == "[" + Seqs.Join([], ',') + "]";
      assert Seqs.Join([], ',') == "";
    }
  }

  /** A string array keeps exactly its present entries, in order, as JSON strings. */
  lemma StringArrayEntries(items: seq<Option<string>>)
    ensures Handed(Ts.AStringArray(items)).Plain? && Handed(Ts.AStringArray(items)).json.Array?
    ensures |Handed(Ts.AStringArray(items)).json.items| == |Present(items)|
    ensures forall s :: J.Str(s) in Handed(Ts.AStringArray(items)).json.items <==> Some(s) in items
  {
    var filtered := Present(items);
    var r := Handed(Ts.AStringArray(items)).json.items;
    forall s
      ensures J.Str(s) in r <==> Some(s) in items
    {
      if J.Str(s) in r {
        var k :| 0 <= k < |r| && r[k] == J.Str(s);
        assert filtered[k] == s;
      }
      if Some(s) in items {
        assert s in filtered;
        var k :| 0 <= k < |filtered| && filtered[k] == s;
        assert r[k] == J.Str(s);
      }
    }
  }

  /**
   * A number array with no null entries: when all are integers, a `BigInt64Array` of their
   * wrapped values, whose text throws; otherwise a `Float64Array`, written as an index-keyed object.
   */
  lemma NumberArrayEntries(items: seq<Option<F64Bits>>, ft: J.FloatFormatter)
    requires |items| > 0 && forall k :: 0 <= k < |items| ==> items[k].Some?
    ensures (forall k :: 0 <= k < |items| ==> IsIntegral(items[k].value)) ==>
      Handed(Ts.ANumberArray(items)).BigInt64ArrayOf? &&
      Handed(Ts.ANumberArray(items)).ints == seq(|items|, k requires 0 <= k < |items| => WrapI64(IntegralValue(items[k].value))) &&
      ValueText(Ts.ANumberArray(items), ft) == Abort(BIGINT_TYPE_ERROR)
    ensures (exists k :: 0 <= k < |items| && !IsIntegral(items[k].value)) ==>
      Handed(Ts.ANumberArray(items)) == Float64ArrayOf(seq(|items|, k requires 0 <= k < |items| => items[k].value)) &&
      ValueText(Ts.ANumberArray(items), ft) == Ok(J.Render(Float64Json(seq(|items|, k requires 0 <= k < |items| => items[k].value)), J.Standard, ft))
  {
    var values := seq(|items|, k requires 0 <= k < |items| => items[k].value);
    assert Present(items) == values by {
      PresentAll(items);
    }
    assert Handed(Ts.ANumberArray(items)) == NumbersHanded(values);
  }

  /** The typed-array object has one member per number, keyed by its index in decimal. */
  lemma Float64JsonKeys(floats: seq<F64Bits>)
    ensures |Float64Json(floats).members| == |floats|
    ensures forall k :: 0 <= k < |floats| ==>
      J.ReadInteger(Float64Json(floats).members[k].0) == Some(k) && Float64Json(floats).members[k].1 == NumberJson(floats[k])
  {
    forall k | 0 <= k < |floats|
      ensures J.ReadInteger(Float64Json(floats).members[k].0) == Some(k)
    {
      J.ReadDecimal(k);
    }
  }

  /** An integer attribute such as `http.status_code = 200` makes the conversion of all the attributes throw. */
  lemma IntegerAttributeThrows(key: string, f: F64Bits, ft: J.FloatFormatter)
    requires IsIntegral(f)
    ensures AttributesToWasi(Some([(key, Ts.ANumber(f))]), ft) == Abort(BIGINT_TYPE_ERROR)
  {
    assert MeetsBigInt(Ts.ANumber(f));
  }

  /** So does an array of integers, nulls aside, such as `[1, null]`. */
  lemma IntegerArrayThrows(key: string, f: F64Bits, ft: J.FloatFormatter)
    requires IsIntegral(f)
    ensures AttributesToWasi(Some([(key, Ts.ANumberArray([Some(f), None]))]), ft) == Abort(BIGINT_TYPE_ERROR)
  {
    var items := [Some(f), None];
    assert Present(items) == [f] by {
      assert Present(items) == [f] + Present(items[1..]);
      assert Present(items[1..][1..]) == [];
    }
    assert MeetsBigInt(Ts.ANumberArray(items));
  }

  /**
   * The conversion as evidently intended: integers written as JSON integers, one alone or an
   * array of them, so nothing throws; every other value as `attributeValueToWasi` writes it.
   */
  function IntendedValueText(v: Ts.AttributeValue, ft: J.FloatFormatter): (r: string)
    ensures ValueText(v, ft).Ok? ==> r == ValueText(v, ft).value
    ensures v.ANumber? && IsIntegral(v.f) ==> J.ReadInteger(r) == Some(IntegralValue(v.f))
  {
    match v
    case ANumber(f) =>
      if IsIntegral(f) then
        J.ReadDecimal(IntegralValue(f));
        J.Render(J.Int(IntegralValue(f)), J.Standard, ft)
      else ValueText(v, ft).value
    case ANumberArray(items) =>
      if MeetsBigInt(v) then
        var numbers := Present(items);
        J.Render(J.Array(seq(|numbers|, k requires 0 <= k < |numbers| => J.Int(IntegralValue(numbers[k])))), J.Standard, ft)
      else ValueText(v, ft).value
    case _ => ValueText(v, ft).value
  }

  /** With the correction, an integer attribute within 2^53, such as 200, is sent as text that reads back as that integer. */
  lemma IntendedIntegers(i: I64, ft: J.FloatFormatter)
    requires -TWO_53 <= i <= TWO_53
    ensures J.ReadInteger(IntendedValueText(Ts.ANumber(IntegerBits(i)), ft)) == Some(i)
  {
    assert IntegralValue(IntegerBits(i)) == i;
  }

  // ---- time and scope ------------------------------------------------------------------------

  /** `dateTimeToWasi`: seconds from `time[0]`, nanoseconds from `time[1]`. */
  function DateTimeToWasi(t: Ts.HrTime): (r: W.Datetime)
  {
    W.Datetime(t.seconds, t.nanoseconds)
  }

  /** The conversion loses nothing: distinct times stay distinct. */
  lemma DateTimeInjective(a: Ts.HrTime, b: Ts.HrTime)
    ensures DateTimeToWasi(a) == DateTimeToWasi(b) <==> a == b
  {
  }

  /** `instrumentationScopeToWasi`: name, version and schema URL, and never any attributes. */
  function InstrumentationScopeToWasi<V>(scope: Ts.InstrumentationScope): (r: W.InstrumentationScope<V>)
    ensures r.attributes == []
    ensures (r.name, r.version, r.schemaUrl) == (scope.name, scope.version, scope.schemaUrl)
  {
    W.InstrumentationScope(scope.name, scope.version, scope.schemaUrl, [])
  }
}
