/**
 * The shared conversions of the Go guest for the `0.2.0-draft` world (go/types/conversions.go):
 * attribute values travel as the JSON text Go's `encoding/json` writes for them, which
 * escapes HTML characters and refuses NaN and the infinities.
 */
module GoTypes {
  import opened Wrappers
  import opened Numbers
  import Seqs
  import J = Json
  import Go = GoSdk
  import W = Schema

  /** `ToWasiOptStr`: the empty string is absent, anything else present. */
  function ToWasiOptStr(s: string): (r: Option<string>)
    ensures r.None? <==> s == ""
    ensures r.Some? ==> r.value == s
  {
    if s == "" then None else Some(s)
  }

  /** The string an optional string stands for: absence reads back as the empty string. */
  function OrEmpty(o: Option<string>): string
  {
    match o case None => "" case Some(s) => s
  }

  /** `ToWasiOptStr` loses nothing: Go's empty string and absence are the same value. */
  lemma OptStrRoundTrip(s: string)
    ensures OrEmpty(ToWasiOptStr(s)) == s
    ensures forall o: Option<string> :: o.Some? && o.value != "" ==> ToWasiOptStr(OrEmpty(o)) == o
  {
  }

  /**
   * `ToWasiTime`: `uint64(t.Unix())` and `t.Nanosecond()`. There is no check against the epoch:
   * an earlier time wraps around to a second count near 2^64.
   */
  function ToWasiTime(t: Go.Time): (r: W.Datetime)
    ensures r.nanoseconds == t.nanosecond
    ensures t.unix >= 0 ==> r.seconds == t.unix
    ensures t.unix < 0 ==> r.seconds == t.unix + TWO_64
  {
    W.Datetime(WrapU64(t.unix), t.nanosecond)
  }

  /** After the epoch the split is exact: seconds and nanoseconds add up to the instant. */
  lemma TimeSplit(t: Go.Time)
    requires t.unix >= 0
    ensures ToWasiTime(t).seconds * Go.NANOS_PER_SECOND + ToWasiTime(t).nanoseconds
         == t.unix * Go.NANOS_PER_SECOND + t.nanosecond
    ensures ToWasiTime(t).nanoseconds < Go.NANOS_PER_SECOND
  {
  }

  // ---- attribute values as JSON ---------------------------------------------------------------

  /** The tree `json.Marshal` is handed for each kind; `INVALID` panics. */
  function ValueTree(v: Go.Value): (r: Outcome<J.Json>)
    ensures r.Ok? <==> !v.Invalid?
  {
    match v
    case Bool(b) => Ok(J.Bool(b))
    case Int64(i) => Ok(J.Int(i))
    case Float64(f) => Ok(J.Float(f))
    case String(s) => Ok(J.Str(s))
    case BoolSlice(bs) => Ok(J.Array(Seqs.Map(bs, (b: bool) => J.Bool(b))))
    case Int64Slice(ns) => Ok(J.Array(Seqs.Map(ns, (i: I64) => J.Int(i))))
    case Float64Slice(fs) => Ok(J.Array(Seqs.Map(fs, (f: F64Bits) => J.Float(f))))
    case StringSlice(ss) => Ok(J.Array(Seqs.Map(ss, (s: string) => J.Str(s))))
    case Invalid => Abort("invalid type")
  }

  /** `json.Marshal` returns an error for a NaN or an infinity, anywhere in the value. */
  predicate MarshalFails(v: Go.Value)
  {
    match v
    case Float64(f) => NonFinite(f)
    case Float64Slice(fs) => exists i :: 0 <= i < |fs| && NonFinite(fs[i])
    case _ => false
  }

  /**
   * `otelValueToJson`: the JSON text of the value. The marshalling error is discarded, so a
   * value holding a NaN or an infinity becomes the empty string, which is not JSON.
   */
  function ValueToJson(v: Go.Value, ft: J.FloatFormatter): (r: Outcome<string>)
    ensures v.Invalid? <==> r.Abort?
    ensures r.Abort? ==> r.reason == "invalid type"
    ensures r.Ok? ==> (r.value == "" <==> MarshalFails(v))
  {
    var tree :- ValueTree(v);
    Ok(if MarshalFails(v) then "" else J.Render(tree, J.HtmlSafe, ft))
  }

  /** A string value's text is a JSON string literal that reads back as the string. */
  lemma StringText(s: string, ft: J.FloatFormatter)
    ensures ValueToJson(Go.Value.String(s), ft).Ok?
    ensures J.Unquote(ValueToJson(Go.Value.String(s), ft).value) == Some(s)
  {
    J.UnquoteQuote(s, J.HtmlSafe);
  }

  /** Booleans and integers are written as JSON literals and decimal numbers. */
  lemma ScalarTexts(b: bool, i: I64, ft: J.FloatFormatter)
    ensures ValueToJson(Go.Value.Bool(b), ft) == Ok(if b then "true" else "false")
    ensures ValueToJson(Go.Value.Int64(i), ft) == Ok(J.Decimal(i))
  {
  }

  /** `KeyValue` of one attribute: the key and the value's JSON text. */
  function KeyValueToWasi(kv: Go.KeyValue, ft: J.FloatFormatter): (r: Outcome<W.KeyValue<string>>)
    ensures r.Ok? <==> !kv.value.Invalid?
    ensures r.Ok? ==> r.value.key == kv.key && r.value.value == ValueToJson(kv.value, ft).value
  {
    var text :- ValueToJson(kv.value, ft);
    Ok(W.KeyValue(kv.key, text))
  }

  predicate AllValid(attrs: seq<Go.KeyValue>)
  {
    forall i :: 0 <= i < |attrs| ==> !attrs[i].value.Invalid?
  }

  /** The attributes converted one by one, in order; the first `INVALID` value panics. */
  function AttributesOf(attrs: seq<Go.KeyValue>, ft: J.FloatFormatter): (r: Outcome<seq<W.KeyValue<string>>>)
    ensures r.Ok? <==> AllValid(attrs)
    ensures r.Ok? ==> |r.value| == |attrs| && forall i :: 0 <= i < |attrs| ==>
      r.value[i].key == attrs[i].key && r.value[i].value == ValueToJson(attrs[i].value, ft).value
  {
    Seqs.MapAll(attrs, kv => KeyValueToWasi(kv, ft))
  }

  /** `ToWasiAttributes`: a slice of the input's length, filled index by index. */
  method ToWasiAttributes(attrs: seq<Go.KeyValue>, ft: J.FloatFormatter) returns (r: Outcome<seq<W.KeyValue<string>>>)
    ensures r.Ok? <==> AllValid(attrs)
    ensures r.Ok? ==> r == AttributesOf(attrs, ft)
  {
    var result := new W.KeyValue<string>[|attrs|](_ => W.KeyValue("", ""));
    for i := 0 to |attrs|
      invariant forall k :: 0 <= k < i ==> !attrs[k].value.Invalid?
      invariant forall k :: 0 <= k < i ==> result[k] == KeyValueToWasi(attrs[k], ft).value
    {
      var kv := KeyValueToWasi(attrs[i], ft);
      if kv.Abort? {
        return Abort(kv.reason);
      }
      result[i] := kv.value;
    }
    var expected := AttributesOf(attrs, ft);
    assert forall k :: 0 <= k < |attrs| ==> expected.value[k] == result[k];
    assert expected.value == result[..];
    r := Ok(result[..]);
  }

  /** `ToWasiResource`: the attributes, and the schema URL unless it is empty. */
  function ToWasiResource(res: Go.Resource, ft: J.FloatFormatter): (r: Outcome<W.Resource<string>>)
    ensures r.Ok? <==> AllValid(res.attributes)
    ensures r.Ok? ==> r.value.attributes == AttributesOf(res.attributes, ft).value
    ensures r.Ok? ==> r.value.schemaUrl == ToWasiOptStr(res.schemaUrl)
  {
    var attrs :- AttributesOf(res.attributes, ft);
    Ok(W.Resource(attrs, ToWasiOptStr(res.schemaUrl)))
  }

  /** `ToWasiInstrumentationScope`: the name, version and schema URL unless empty, the attributes. */
  function ToWasiInstrumentationScope(s: Go.Scope, ft: J.FloatFormatter): (r: Outcome<W.InstrumentationScope<string>>)
    ensures r.Ok? <==> AllValid(s.attributes)
    ensures r.Ok? ==> r.value.name == s.name
    ensures r.Ok? ==> r.value.version == ToWasiOptStr(s.version) && r.value.schemaUrl == ToWasiOptStr(s.schemaUrl)
    ensures r.Ok? ==> r.value.attributes == AttributesOf(s.attributes, ft).value
  {
    var attrs :- AttributesOf(s.attributes, ft);
    Ok(W.InstrumentationScope(s.name, ToWasiOptStr(s.version), ToWasiOptStr(s.schemaUrl), attrs))
  }
}
