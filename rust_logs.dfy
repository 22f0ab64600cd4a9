/**
 * Log conversion of the Rust guest for the `0.2.0-draft` world (rust/src/logs/conversion.rs):
 * a record becomes the all-optional boundary record, and every `AnyValue` (body and attribute
 * values) travels as JSON text written by serde_json.
 */
module RustLogs {
  import opened Wrappers
  import opened Numbers
  import Hex
  import Seqs
  import Base64
  import J = Json
  import Sdk = RustSdk
  import W = Schema
  import RustTypes
  import RustTracing

  // ---- the serialiser (`impl Serialize for AnyValueWrapper`) ------------------------------

  /** The values the serialiser handles; any other variant reaches `unimplemented!`. */
  predicate Serializable(v: Sdk.AnyValue)
    decreases v
  {
    match v
    case ListAny(items) => forall i :: 0 <= i < |items| ==> Serializable(items[i])
    case Map(entries) => forall i :: 0 <= i < |entries| ==> Serializable(entries[i].1)
    case OtherAny => false
    case _ => true
  }

  /**
   * The JSON tree the serialiser emits. serde_json writes a non-finite double as `null`; a
   * byte blob becomes a data-URL string; lists and maps keep their order (a map's order is its
   * iteration order).
   */
  function ToJson(v: Sdk.AnyValue): (r: Outcome<J.Json>)
    ensures r.Ok? <==> Serializable(v)
    ensures r.Abort? ==> r.reason == "not implemented"
    decreases v
  {
    match v
    case Boolean(b) => Ok(J.Bool(b))
    case Int(i) => Ok(J.Int(i))
    case Double(d) => Ok(if NonFinite(d) then J.Null else J.Float(d))
    case String(s) => Ok(J.Str(s))
    case Bytes(b) => Ok(J.Str(Base64.DataUrl(b)))
    case ListAny(items) =>
      if forall i :: 0 <= i < |items| ==> Serializable(items[i])
      then Ok(J.Array(seq(|items|, i requires 0 <= i < |items| => ToJson(items[i]).value)))
      else Abort("not implemented")
    case Map(entries) =>
      if forall i :: 0 <= i < |entries| ==> Serializable(entries[i].1)
      then Ok(J.Object(seq(|entries|, i requires 0 <= i < |entries| => (entries[i].0, ToJson(entries[i].1).value))))
      else Abort("not implemented")
    case OtherAny => Abort("not implemented")
  }

  /**
   * The map arm, as the source writes it: a map serialiser filled entry by entry in the map's
   * iteration order, each value serialised recursively; the first value that cannot be
   * serialised ends the loop.
   */
  method SerializeMap(entries: seq<(string, Sdk.AnyValue)>) returns (r: Outcome<J.Json>)
    ensures r == ToJson(Sdk.Map(entries))
  {
    var members: seq<(string, J.Json)> := [];
    var i := 0;
    while i < |entries|
      invariant 0 <= i <= |entries|
      invariant forall k :: 0 <= k < i ==> Serializable(entries[k].1)
      invariant |members| == i
      invariant forall k :: 0 <= k < i ==> members[k] == (entries[k].0, ToJson(entries[k].1).value)
    {
      var value := ToJson(entries[i].1);
      if value.Abort? {
        return Abort(value.reason);
      }
      members := members + [(entries[i].0, value.value)];
      i := i + 1;
    }
    assert members == seq(|entries|, k requires 0 <= k < |entries| => (entries[k].0, ToJson(entries[k].1).value));
    return Ok(J.Object(members));
  }

  /** Whatever the iteration order, each key is written once with its own value's JSON. */
  lemma MapMembers(entries: seq<(string, Sdk.AnyValue)>)
    requires ToJson(Sdk.Map(entries)).Ok?
    ensures |ToJson(Sdk.Map(entries)).value.members| == |entries|
    ensures forall i :: 0 <= i < |entries| ==>
      ToJson(Sdk.Map(entries)).value.members[i] == (entries[i].0, ToJson(entries[i].1).value)
  {
  }

  // ---- reading the tree back ------------------------------------------------------------

  /**
   * The value a JSON tree stands for: data-URL strings are byte blobs, numbers keep their
   * kind. `null` stands for no value (the serialiser writes it only for non-finite doubles).
   */
  function FromJson(j: J.Json): (r: Option<Sdk.AnyValue>)
    decreases j
  {
    match j
    case Null => None
    case Bool(b) => Some(Sdk.Boolean(b))
    case Int(i) => if -TWO_63 <= i < TWO_63 then Some(Sdk.Int(i)) else None
    case Float(f) => Some(Sdk.Double(f))
    case Str(s) =>
      (match Base64.DataUrlBytes(s)
       case Some(b) => Some(Sdk.Bytes(b))
       case None => Some(Sdk.AnyValue.String(s)))
    case Array(items) =>
      if forall i :: 0 <= i < |items| ==> FromJson(items[i]).Some?
      then Some(Sdk.ListAny(seq(|items|, i requires 0 <= i < |items| => FromJson(items[i]).value)))
      else None
    case Object(members) =>
      if forall i :: 0 <= i < |members| ==> FromJson(members[i].1).Some?
      then Some(Sdk.Map(seq(|members|, i requires 0 <= i < |members| => (members[i].0, FromJson(members[i].1).value))))
      else None
  }

  /** Values the JSON form keeps intact: finite doubles, and strings that are not data URLs. */
  predicate Plain(v: Sdk.AnyValue)
    decreases v
  {
    match v
    case Double(d) => !NonFinite(d)
    case String(s) => Base64.DataUrlBytes(s).None?
    case ListAny(items) => forall i :: 0 <= i < |items| ==> Plain(items[i])
    case Map(entries) => forall i :: 0 <= i < |entries| ==> Plain(entries[i].1)
    case OtherAny => false
    case _ => true
  }

  lemma {:induction false} PlainSerializable(v: Sdk.AnyValue)
    requires Plain(v)
    ensures Serializable(v)
    decreases v
  {
    match v
    case ListAny(items) =>
      forall i | 0 <= i < |items| ensures Serializable(items[i]) {
        PlainSerializable(items[i]);
      }
    case Map(entries) =>
      forall i | 0 <= i < |entries| ensures Serializable(entries[i].1) {
        PlainSerializable(entries[i].1);
      }
    case _ =>
  }

  /**
   * The serialiser loses nothing on plain values: reading the tree back gives the value,
   * nested lists and maps included, with every leaf intact.
   */
  lemma {:induction false} FromJsonToJson(v: Sdk.AnyValue)
    requires Plain(v)
    ensures ToJson(v).Ok? && FromJson(ToJson(v).value) == Some(v)
    decreases v
  {
    PlainSerializable(v);
    match v
    case Bytes(b) => Base64.DataUrlRoundTrip(b);
    case ListAny(items) =>
      var js := ToJson(v).value.items;
      forall i | 0 <= i < |items| ensures FromJson(js[i]) == Some(items[i]) {
        FromJsonToJson(items[i]);
      }
      assert seq(|js|, i requires 0 <= i < |js| => FromJson(js[i]).value) == items;
    case Map(entries) =>
      var ms := ToJson(v).value.members;
      forall i | 0 <= i < |entries| ensures FromJson(ms[i].1) == Some(entries[i].1) {
        FromJsonToJson(entries[i].1);
      }
      assert seq(|ms|, i requires 0 <= i < |ms| => (ms[i].0, FromJson(ms[i].1).value)) == entries;
    case _ =>
  }

  /** A non-finite double is written as `null`, so its value does not survive. */
  lemma NonFiniteIsNull(d: F64Bits)
    requires NonFinite(d)
    ensures ToJson(Sdk.Double(d)) == Ok(J.Null) && FromJson(J.Null).None?
  {
  }

  // ---- JSON text ------------------------------------------------------------------------

  /** `to_json`: the JSON text serde_json writes for the tree (no whitespace, standard escaping). */
  function JsonText(v: Sdk.AnyValue, ft: J.FloatFormatter): (r: Outcome<string>)
    ensures r.Ok? <==> Serializable(v)
    ensures r.Ok? ==> |r.value| >= 1
  {
    var j :- ToJson(v);
    Ok(J.Render(j, J.Standard, ft))
  }

  /** A byte blob's text is a JSON string literal that reads back as its data URL. */
  lemma BytesText(b: seq<U8>, ft: J.FloatFormatter)
    ensures JsonText(Sdk.Bytes(b), ft).Ok?
    ensures J.Unquote(JsonText(Sdk.Bytes(b), ft).value) == Some(Base64.DataUrl(b))
    ensures Base64.DataUrlBytes(Base64.DataUrl(b)) == Some(b)
  {
    J.UnquoteQuote(Base64.DataUrl(b), J.Standard);
    Base64.DataUrlRoundTrip(b);
  }

  /** "Hello, world!" is written as "data:application/octet-stream;base64,SGVsbG8sIHdvcmxkIQ==". */
  lemma HelloWorldBytes()
    ensures ToJson(Sdk.Bytes(Base64.HelloWorld()))
         == Ok(J.Str(Base64.DATA_URL_PREFIX + "SGVsbG8sIHdvcmxkIQ=="))
  {
    Base64.HelloWorldDataUrl();
  }

  /**
   * The map of the unit test at the end of rust/src/logs/conversion.rs, in one of its
   * iteration orders; `d` is the double 123.456.
   */
  function TestMap(d: F64Bits): Sdk.AnyValue
  {
    Sdk.Map([
      ("key1", Sdk.Boolean(false)),
      ("key2", Sdk.Double(d)),
      ("key3", Sdk.Int(41)),
      ("key4", Sdk.Bytes(Base64.HelloWorld())),
      ("key5", Sdk.AnyValue.String("This is a string")),
      ("key6", Sdk.ListAny([Sdk.Int(1), Sdk.Int(2), Sdk.Int(3)])),
      ("key7", Sdk.Map([("nestedkey1", Sdk.AnyValue.String("Hello, from within!"))]))])
  }

  /** A map serialises to the object whose members are its entries' keys and values' trees. */
  lemma MapToObject(entries: seq<(string, Sdk.AnyValue)>, members: seq<(string, J.Json)>)
    requires |members| == |entries|
    requires forall k :: 0 <= k < |entries| ==>
               members[k].0 == entries[k].0 && ToJson(entries[k].1) == Ok(members[k].1)
    ensures ToJson(Sdk.Map(entries)) == Ok(J.Object(members))
  {
    assert seq(|entries|, k requires 0 <= k < |entries| => (entries[k].0, ToJson(entries[k].1).value)) == members;
  }

  /** A list serialises to the array of its items' trees. */
  lemma ListToArray(items: seq<Sdk.AnyValue>, js: seq<J.Json>)
    requires |js| == |items|
    requires forall k :: 0 <= k < |items| ==> ToJson(items[k]) == Ok(js[k])
    ensures ToJson(Sdk.ListAny(items)) == Ok(J.Array(js))
  {
    assert seq(|items|, k requires 0 <= k < |items| => ToJson(items[k]).value) == js;
  }

  /** The unit test's map serialises to the expected object, leaf by leaf. */
  lemma TestMapJson(d: F64Bits)
    requires !NonFinite(d)
    ensures ToJson(TestMap(d)) == Ok(J.Object(TestMapMembers(d)))
  {
    var entries := TestMap(d).entries;
    var members := TestMapMembers(d);
    forall k | 0 <= k < |entries|
      ensures members[k].0 == entries[k].0 && ToJson(entries[k].1) == Ok(members[k].1)
    {
      if k == 3 {
        HelloWorldBytes();
      } else if k == 5 {
        var items := [Sdk.Int(1), Sdk.Int(2), Sdk.Int(3)];
        ListToArray(items, [J.Int(1), J.Int(2), J.Int(3)]);
      } else if k == 6 {
        var nested := [("nestedkey1", Sdk.AnyValue.String("Hello, from within!"))];
        MapToObject(nested, [("nestedkey1", J.Str("Hello, from within!"))]);
      }
    }
    MapToObject(entries, members);
  }

  /** The object the unit test parses back, leaf by leaf. */
  function TestMapMembers(d: F64Bits): seq<(string, J.Json)>
  {
    [("key1", J.Bool(false)),
     ("key2", J.Float(d)),
     ("key3", J.Int(41)),
     ("key4", J.Str(Base64.DATA_URL_PREFIX + "SGVsbG8sIHdvcmxkIQ==")),
     ("key5", J.Str("This is a string")),
     ("key6", J.Array([J.Int(1), J.Int(2), J.Int(3)])),
     ("key7", J.Object([("nestedkey1", J.Str("Hello, from within!"))]))]
  }

  // ---- the record -------------------------------------------------------------------------

  /** `From<&(Key, AnyValue)> for KeyValue`: the key and the value's JSON text. */
  function KeyValueToWasi(kv: (string, Sdk.AnyValue), ft: J.FloatFormatter): (r: Outcome<W.KeyValue<string>>)
    ensures r.Ok? <==> Serializable(kv.1)
    ensures r.Ok? ==> r.value.key == kv.0 && r.value.value == JsonText(kv.1, ft).value
  {
    var text :- JsonText(kv.1, ft);
    Ok(W.KeyValue(kv.0, text))
  }

  /**
   * Converters of the scope and the resource, defined outside rust/src/logs/conversion.rs. Like
   * every `From` of this crate they may panic on a value they do not support, which is an `Abort`.
   */
  type ScopeConversion = Sdk.InstrumentationScope -> Outcome<W.InstrumentationScope<string>>
  type ResourceConversion = Sdk.Resource -> Outcome<W.Resource<string>>

  /** The scope converts, and so does the resource when there is one. */
  predicate ContextConvertible(
    scope: Sdk.InstrumentationScope, resource: Option<Sdk.Resource>,
    convertScope: ScopeConversion, convertResource: ResourceConversion)
  {
    convertScope(scope).Ok? && (resource.Some? ==> convertResource(resource.value).Ok?)
  }

  /** Everything in a record that `to_wasi_log_record` converts without a panic. */
  predicate RecordConvertible(rec: Sdk.LogRecord)
  {
    && (rec.timestamp.Some? ==> rec.timestamp.value >= 0)
    && (rec.observedTimestamp.Some? ==> rec.observedTimestamp.value >= 0)
    && (rec.body.Some? ==> Serializable(rec.body.value))
    && forall i :: 0 <= i < |rec.attributes| ==> Serializable(rec.attributes[i].1)
  }

  function OptionalText(body: Option<Sdk.AnyValue>, ft: J.FloatFormatter): (r: Outcome<Option<string>>)
    ensures r.Ok? <==> (body.Some? ==> Serializable(body.value))
    ensures r.Ok? ==> (r.value.Some? <==> body.Some?)
    ensures r.Ok? && body.Some? ==> r.value.value == JsonText(body.value, ft).value
  {
    match body
    case None => Ok(None)
    case Some(v) =>
      var text :- JsonText(v, ft);
      Ok(Some(text))
  }

  function AttributesToWasi(attrs: seq<(string, Sdk.AnyValue)>, ft: J.FloatFormatter): (r: Outcome<seq<W.KeyValue<string>>>)
    ensures r.Ok? <==> forall i :: 0 <= i < |attrs| ==> Serializable(attrs[i].1)
    ensures r.Ok? ==> |r.value| == |attrs|
    ensures r.Ok? ==> forall i :: 0 <= i < |attrs| ==> r.value[i] == KeyValueToWasi(attrs[i], ft).value
  {
    Seqs.MapAll(attrs, kv => KeyValueToWasi(kv, ft))
  }

  /** The three trace fields: `{:x}` ids and mapped flags from the context, or all `None`. */
  function TraceFields(tc: Option<Sdk.TraceContext>): (r: (Option<string>, Option<string>, Option<U8>))
    ensures tc.None? ==> r == (None, None, None)
    ensures tc.Some? ==> r.0 == Some(Hex.LowerHex(tc.value.traceId)) && r.1 == Some(Hex.LowerHex(tc.value.spanId))
    ensures tc.Some? ==> (r.2.Some? <==> tc.value.traceFlags.Some?)
    ensures tc.Some? && r.2.Some? ==> W.IsSampled(r.2.value) == W.IsSampled(tc.value.traceFlags.value)
  {
    match tc
    case None => (None, None, None)
    case Some(c) =>
      (Some(Hex.LowerHex(c.traceId)), Some(Hex.LowerHex(c.spanId)),
       match c.traceFlags case None => None case Some(f) => Some(RustTracing.TraceFlagsToWasi(f)))
  }

  /** `to_wasi_log_record`. */
  function LogRecordToWasi(
    rec: Sdk.LogRecord,
    scope: Sdk.InstrumentationScope,
    resource: Option<Sdk.Resource>,
    convertScope: ScopeConversion,
    convertResource: ResourceConversion,
    ft: J.FloatFormatter): (r: Outcome<W.LogRecord>)
    ensures r.Ok? <==> RecordConvertible(rec) && ContextConvertible(scope, resource, convertScope, convertResource)
    ensures RecordConvertible(rec) && convertScope(scope).Abort? ==> r == Abort(convertScope(scope).reason)
    ensures RecordConvertible(rec) && convertScope(scope).Ok? && resource.Some? && convertResource(resource.value).Abort? ==>
      r == Abort(convertResource(resource.value).reason)
  {
    var ids := TraceFields(rec.traceContext);
    var timestamp :- RustTypes.OptionalTime(rec.timestamp);
    var body :- OptionalText(rec.body, ft);
    var observed :- RustTypes.OptionalTime(rec.observedTimestamp);
    var attributes :- AttributesToWasi(rec.attributes, ft);
    var wasiScope :- convertScope(scope);
    var wasiResource :- match resource
      case None => Ok(None)
      case Some(res) => (var converted :- convertResource(res); Ok(Some(converted)));
    Ok(W.LogRecord(
      timestamp,
      observed,
      rec.severityText,
      match rec.severityNumber case None => None case Some(s) => Some(s.Number()),
      body,
      Some(attributes),
      rec.eventName,
      wasiResource,
      Some(wasiScope),
      ids.0,
      ids.1,
      ids.2))
  }

  /** The times and the body keep `Some`/`None` with no defaulting, and carry the same instant and JSON text. */
  lemma LogRecordTimes(
    rec: Sdk.LogRecord, scope: Sdk.InstrumentationScope, resource: Option<Sdk.Resource>,
    convertScope: ScopeConversion, convertResource: ResourceConversion, ft: J.FloatFormatter,
    r: W.LogRecord)
    requires LogRecordToWasi(rec, scope, resource, convertScope, convertResource, ft) == Ok(r)
    ensures r.timestamp.Some? <==> rec.timestamp.Some?
    ensures r.timestamp.Some? ==> RustTypes.Instant(r.timestamp.value) == rec.timestamp.value
    ensures r.observedTimestamp.Some? <==> rec.observedTimestamp.Some?
    ensures r.observedTimestamp.Some? ==> RustTypes.Instant(r.observedTimestamp.value) == rec.observedTimestamp.value
    ensures r.body.Some? <==> rec.body.Some?
    ensures r.body.Some? ==> r.body.value == JsonText(rec.body.value, ft).value
  {
  }

  /**
   * The name and severity text are copied; the severity number is the level's discriminant,
   * present exactly when the level is; the scope is always present and the resource exactly
   * when given.
   */
  lemma LogRecordHeader(
    rec: Sdk.LogRecord, scope: Sdk.InstrumentationScope, resource: Option<Sdk.Resource>,
    convertScope: ScopeConversion, convertResource: ResourceConversion, ft: J.FloatFormatter,
    r: W.LogRecord)
    requires LogRecordToWasi(rec, scope, resource, convertScope, convertResource, ft) == Ok(r)
    ensures r.eventName == rec.eventName && r.severityText == rec.severityText
    ensures r.severityNumber.Some? <==> rec.severityNumber.Some?
    ensures rec.severityNumber.Some? ==> Sdk.SeverityOfNumber(r.severityNumber.value) == rec.severityNumber
    ensures r.instrumentationScope == Some(convertScope(scope).value)
    ensures r.resource.Some? <==> resource.Some?
    ensures resource.Some? ==> r.resource == Some(convertResource(resource.value).value)
  {
    if rec.severityNumber.Some? {
      Sdk.SeverityOfNumberOf(rec.severityNumber.value);
    }
  }

  /** Every attribute is kept, in order, with its value as JSON text; the list itself is always present. */
  lemma LogRecordAttributes(
    rec: Sdk.LogRecord, scope: Sdk.InstrumentationScope, resource: Option<Sdk.Resource>,
    convertScope: ScopeConversion, convertResource: ResourceConversion, ft: J.FloatFormatter,
    r: W.LogRecord)
    requires LogRecordToWasi(rec, scope, resource, convertScope, convertResource, ft) == Ok(r)
    ensures r.attributes.Some? && |r.attributes.value| == |rec.attributes|
    ensures forall i :: 0 <= i < |rec.attributes| ==>
      r.attributes.value[i].key == rec.attributes[i].0
      && r.attributes.value[i].value == JsonText(rec.attributes[i].1, ft).value
  {
  }

  /** With a trace context the ids are `{:x}` text and the flags mapped; without one all three are `None`. */
  lemma LogRecordTrace(
    rec: Sdk.LogRecord, scope: Sdk.InstrumentationScope, resource: Option<Sdk.Resource>,
    convertScope: ScopeConversion, convertResource: ResourceConversion, ft: J.FloatFormatter,
    r: W.LogRecord)
    requires LogRecordToWasi(rec, scope, resource, convertScope, convertResource, ft) == Ok(r)
    ensures rec.traceContext.None? ==> r.traceId.None? && r.spanId.None? && r.traceFlags.None?
    ensures rec.traceContext.Some? ==>
      Hex.ParseRadix16(r.traceId.value, TWO_128) == Some(rec.traceContext.value.traceId)
      && Hex.ParseRadix16(r.spanId.value, TWO_64) == Some(rec.traceContext.value.spanId)
    ensures rec.traceContext.Some? ==> (r.traceFlags.Some? <==> rec.traceContext.value.traceFlags.Some?)
  {
    if rec.traceContext.Some? {
      Hex.ParseLowerHex(rec.traceContext.value.traceId, TWO_128);
      Hex.ParseLowerHex(rec.traceContext.value.spanId, TWO_64);
    }
  }
}
