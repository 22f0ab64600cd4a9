/**
 * The TypeScript log processor and its conversions (ts/src/logs.ts): `logAnyValueToWasi` writes
 * JSON text by hand, recursively; the record conversion keeps a field only when it is truthy.
 */
module TsLogs {
  import opened Wrappers
  import opened Numbers
  import Seqs
  import Base64
  import J = Json
  import Ts = TsSdk
  import TsTypes
  import W = Schema
  import L = Lifecycle

  /** `String(v)` of a number: the shortest round-trip text `ft` when finite, else NaN or an infinity. */
  function NumberText(f: F64Bits, ft: J.FloatFormatter): (r: string)
    ensures !NonFinite(f) ==> r == ft(f)
  {
    if IsNaN(f) then "NaN"
    else if NonFinite(f) then (if f >= TWO_63 then "-Infinity" else "Infinity")
    else ft(f)
  }

  /** `logAnyValueToWasi`. */
  function LogAnyValueToWasi(v: Ts.AnyValue, ft: J.FloatFormatter): (r: string)
    decreases v
  {
    match v
    case Bytes(b) => J.Quote(Base64.DataUrl(b), J.Standard)
    case Null => "null"
    case Undefined => "null"
    case Str(s) => J.Quote(s, J.Standard)
    case Num(f) => NumberText(f, ft)
    case Boolean(b) => if b then "true" else "false"
    case List(items) =>
      "[" + Seqs.Join(seq(|items|, k requires 0 <= k < |items| => LogAnyValueToWasi(items[k], ft)), ',') + "]"
    case Map(entries) =>
      "{" + Seqs.Join(seq(|entries|, k requires 0 <= k < |entries| =>
                          J.Quote(entries[k].0, J.Standard) + ":" + LogAnyValueToWasi(entries[k].1, ft)), ',') + "}"
  }

  // ---- the text against a reference tree -----------------------------------------------------

  /** The JSON value a log value stands for: null for null and undefined, a data URL for bytes. */
  function Tree(v: Ts.AnyValue): (r: J.Json)
    decreases v
  {
    match v
    case Bytes(b) => J.Str(Base64.DataUrl(b))
    case Null => J.Null
    case Undefined => J.Null
    case Str(s) => J.Str(s)
    case Num(f) => J.Float(f)
    case Boolean(b) => J.Bool(b)
    case List(items) => J.Array(seq(|items|, k requires 0 <= k < |items| => Tree(items[k])))
    case Map(entries) => J.Object(seq(|entries|, k requires 0 <= k < |entries| => (entries[k].0, Tree(entries[k].1))))
  }

  /** No NaN and no infinity anywhere in the value. */
  predicate Finite(v: Ts.AnyValue)
    decreases v
  {
    match v
    case Num(f) => !NonFinite(f)
    case List(items) => forall k :: 0 <= k < |items| ==> Finite(items[k])
    case Map(entries) => forall k :: 0 <= k < |entries| ==> Finite(entries[k].1)
    case _ => true
  }

  /** The number formatter never yields the empty text. */
  predicate Formats(ft: J.FloatFormatter)
  {
    forall f :: |ft(f)| > 0
  }

  /**
   * With finite numbers, the hand-written text is exactly the JSON text of the reference tree,
   * members and items in order: what the test parses back is the tree.
   */
  lemma {:induction false} TextIsJson(v: Ts.AnyValue, ft: J.FloatFormatter)
    requires Finite(v) && Formats(ft)
    ensures LogAnyValueToWasi(v, ft) == J.Render(Tree(v), J.Standard, ft)
    decreases v
  {
    match v
    case Num(f) =>
      assert |ft(f)| > 0;
    case List(items) =>
      var texts := seq(|items|, k requires 0 <= k < |items| => LogAnyValueToWasi(items[k], ft));
      var trees := Tree(v).items;
      forall k | 0 <= k < |items|
        ensures texts[k] == J.Render(trees[k], J.Standard, ft)
      {
        TextIsJson(items[k], ft);
      }
      assert texts == seq(|trees|, k requires 0 <= k < |trees| => J.Render(trees[k], J.Standard, ft));
    case Map(entries) =>
      var texts := seq(|entries|, k requires 0 <= k < |entries| =>
                     J.Quote(entries[k].0, J.Standard) + ":" + LogAnyValueToWasi(entries[k].1, ft));
      var members := Tree(v).members;
      forall k | 0 <= k < |entries|
        ensures texts[k] == J.Quote(members[k].0, J.Standard) + ":" + J.Render(members[k].1, J.Standard, ft)
      {
        TextIsJson(entries[k].1, ft);
      }
      assert texts == seq(|members|, k requires 0 <= k < |members| =>
                        J.Quote(members[k].0, J.Standard) + ":" + J.Render(members[k].1, J.Standard, ft));
    case _ =>
  }

  /** A string is a JSON string literal that reads back as the string. */
  lemma StringText(s: string, ft: J.FloatFormatter)
    ensures J.Unquote(LogAnyValueToWasi(Ts.Str(s), ft)) == Some(s)
  {
    J.UnquoteQuote(s, J.Standard);
  }

  /** A byte array is a string literal holding its data URL, which carries exactly its bytes. */
  lemma BytesText(b: seq<U8>, ft: J.FloatFormatter)
    ensures J.Unquote(LogAnyValueToWasi(Ts.Bytes(b), ft)) == Some(Base64.DataUrl(b))
    ensures Base64.DataUrlBytes(Base64.DataUrl(b)) == Some(b)
  {
    J.UnquoteQuote(Base64.DataUrl(b), J.Standard);
    Base64.DataUrlRoundTrip(b);
  }

  /** Null and undefined are the JSON null; NaN and the infinities are written as bare words that are not JSON. */
  lemma ScalarTexts(f: F64Bits, ft: J.FloatFormatter)
    ensures LogAnyValueToWasi(Ts.Null, ft) == "null" && LogAnyValueToWasi(Ts.Undefined, ft) == "null"
    ensures IsNaN(f) ==> LogAnyValueToWasi(Ts.Num(f), ft) == "NaN"
    ensures NonFinite(f) && !IsNaN(f) ==>
      LogAnyValueToWasi(Ts.Num(f), ft) == (if f >= TWO_63 then "-Infinity" else "Infinity")
  {
  }

  /** The byte text the test at ts/src/logs.test.ts:32 expects. */
  function TestExpectedBytes(): (r: string)
    ensures |r| > 9 && r[..9] == "{base64}:"
  {
    "{base64}:SGVsbG8sIHdvcmxkIQ=="
  }

  /** The code writes the data-URL prefix for "Hello, world!", which is not the prefix the test expects. */
  lemma TestBytesDisagree(ft: J.FloatFormatter)
    ensures J.Unquote(LogAnyValueToWasi(Ts.Bytes(Base64.HelloWorld()), ft))
         == Some(Base64.DATA_URL_PREFIX + "SGVsbG8sIHdvcmxkIQ==")
    ensures Base64.DATA_URL_PREFIX + "SGVsbG8sIHdvcmxkIQ==" != TestExpectedBytes()
  {
    BytesText(Base64.HelloWorld(), ft);
    Base64.HelloWorldDataUrl();
    assert (Base64.DATA_URL_PREFIX + "SGVsbG8sIHdvcmxkIQ==")[0] != TestExpectedBytes()[0];
  }

  // ---- attributes and the record -------------------------------------------------------------

  /** The key-values of an attribute map: each key with its value's text, in entry order. */
  function Attributes(attrs: seq<(string, Ts.AnyValue)>, ft: J.FloatFormatter): (r: seq<W.KeyValue<string>>)
    ensures |r| == |attrs|
    ensures forall k :: 0 <= k < |attrs| ==> r[k].key == attrs[k].0 && r[k].value == LogAnyValueToWasi(attrs[k].1, ft)
  {
    seq(|attrs|, k requires 0 <= k < |attrs| => W.KeyValue(attrs[k].0, LogAnyValueToWasi(attrs[k].1, ft)))
  }

  /** `logAttributesToWasi`: pushes one key-value per entry onto `result`. */
  method LogAttributesToWasi(attrs: seq<(string, Ts.AnyValue)>, ft: J.FloatFormatter) returns (result: seq<W.KeyValue<string>>)
    ensures result == Attributes(attrs, ft)
  {
    result := [];
    for i := 0 to |attrs|
      invariant result == Attributes(attrs[..i], ft)
    {
      result := result + [W.KeyValue(attrs[i].0, LogAnyValueToWasi(attrs[i].1, ft))];
    }
    assert attrs[..|attrs|] == attrs;
  }

  /** The body as written (line 33): the text of a truthy body, and nothing for a falsy one. */
  function Body(body: Ts.AnyValue, ft: J.FloatFormatter): (r: Option<string>)
    ensures r.Some? <==> Ts.Truthy(body)
    ensures r.Some? ==> r.value == LogAnyValueToWasi(body, ft)
  {
    if Ts.Truthy(body) then Some(LogAnyValueToWasi(body, ft)) else None
  }

  /** `logRecordToWasi`. */
  function LogRecordToWasi(rec: Ts.SdkLogRecord, ft: J.FloatFormatter): (r: W.LogRecord)
  {
    W.LogRecord(
      timestamp := if rec.hrTime.Some? then Some(TsTypes.DateTimeToWasi(rec.hrTime.value)) else None,
      observedTimestamp := if rec.hrTimeObserved.Some? then Some(TsTypes.DateTimeToWasi(rec.hrTimeObserved.value)) else None,
      severityText := rec.severityText,
      severityNumber := rec.severityNumber,
      body := Body(rec.body, ft),
      attributes := if rec.attributes.Some? then Some(Attributes(rec.attributes.value, ft)) else None,
      eventName := rec.eventName,
      resource := Some(W.Resource(Attributes(rec.resource.attributes, ft), rec.resource.schemaUrl)),
      instrumentationScope := Some(TsTypes.InstrumentationScopeToWasi(rec.instrumentationScope)),
      traceId := None,
      spanId := None,
      traceFlags := None)
  }

  /** Present times are converted, absent ones stay absent; text, number and event name pass through. */
  lemma LogRecordHeader(rec: Ts.SdkLogRecord, ft: J.FloatFormatter)
    ensures LogRecordToWasi(rec, ft).timestamp.Some? <==> rec.hrTime.Some?
    ensures rec.hrTime.Some? ==> LogRecordToWasi(rec, ft).timestamp.value.seconds == rec.hrTime.value.seconds
    ensures LogRecordToWasi(rec, ft).observedTimestamp.Some? <==> rec.hrTimeObserved.Some?
    ensures rec.hrTimeObserved.Some? ==>
      LogRecordToWasi(rec, ft).observedTimestamp.value.nanoseconds == rec.hrTimeObserved.value.nanoseconds
    ensures LogRecordToWasi(rec, ft).severityText == rec.severityText
    ensures LogRecordToWasi(rec, ft).severityNumber == rec.severityNumber
    ensures LogRecordToWasi(rec, ft).eventName == rec.eventName
  {
  }

  /** Attributes, resource and scope: kept in order, the scope without attributes; no trace context ever. */
  lemma LogRecordParts(rec: Ts.SdkLogRecord, ft: J.FloatFormatter)
    ensures LogRecordToWasi(rec, ft).attributes.Some? <==> rec.attributes.Some?
    ensures rec.attributes.Some? ==> |LogRecordToWasi(rec, ft).attributes.value| == |rec.attributes.value|
    ensures LogRecordToWasi(rec, ft).resource.Some?
    ensures |LogRecordToWasi(rec, ft).resource.value.attributes| == |rec.resource.attributes|
    ensures LogRecordToWasi(rec, ft).instrumentationScope.Some?
    ensures LogRecordToWasi(rec, ft).instrumentationScope.value.attributes == []
    ensures LogRecordToWasi(rec, ft).instrumentationScope.value.name == rec.instrumentationScope.name
    ensures LogRecordToWasi(rec, ft).traceId.None? && LogRecordToWasi(rec, ft).spanId.None?
    ensures LogRecordToWasi(rec, ft).traceFlags.None?
  {
  }

  /** As written, a body of false, 0, NaN, "" or null is dropped, though each has JSON text. */
  lemma FalsyBodyDropped(rec: Ts.SdkLogRecord, ft: J.FloatFormatter)
    requires rec.body in {Ts.Boolean(false), Ts.Num(0), Ts.Str(""), Ts.Null}
    ensures LogRecordToWasi(rec, ft).body.None?
    ensures IntendedBody(rec.body, ft).Some?
  {
  }

  /** The body as evidently intended: dropped only when undefined, otherwise its text. */
  function IntendedBody(body: Ts.AnyValue, ft: J.FloatFormatter): (r: Option<string>)
    ensures r.Some? <==> !body.Undefined?
    ensures r.Some? ==> r.value == LogAnyValueToWasi(body, ft)
  {
    if body.Undefined? then None else Some(LogAnyValueToWasi(body, ft))
  }

  /** The two agree exactly on truthy bodies and on undefined. */
  lemma BodiesAgree(body: Ts.AnyValue, ft: J.FloatFormatter)
    ensures Body(body, ft) == IntendedBody(body, ft) <==> Ts.Truthy(body) || body.Undefined?
  {
  }

  // ---- the processor --------------------------------------------------------------------------

  /** `WasiLogProcessor`: no state; every record goes to the host, and flush and shutdown do nothing. */
  class WasiLogProcessor {
    constructor ()
    {
    }

    /** `onEmit`: the converted record, sent to the host. */
    method OnEmit(rec: Ts.SdkLogRecord, ft: J.FloatFormatter, host: L.Channel<W.LogRecord>)
      modifies host
      ensures host.sent == old(host.sent) + [LogRecordToWasi(rec, ft)]
    {
      host.Send(LogRecordToWasi(rec, ft));
    }

    /** `forceFlush`: resolves. */
    method ForceFlush() returns (r: Outcome<()>)
      ensures r == Ok(())
    {
      r := Ok(());
    }

    /** `shutdown`: resolves, and records still reach the host afterwards. */
    method Shutdown() returns (r: Outcome<()>)
      ensures r == Ok(())
    {
      r := Ok(());
    }
  }

  /** Shutdown is a no-op: a record emitted after two shutdowns is still delivered. */
  method EmitAfterShutdown(rec: Ts.SdkLogRecord, ft: J.FloatFormatter) returns (first: Outcome<()>, second: Outcome<()>, sent: seq<W.LogRecord>)
    ensures first == Ok(()) && second == Ok(())
    ensures sent == [LogRecordToWasi(rec, ft)]
  {
    var p := new WasiLogProcessor();
    var host := new L.Channel<W.LogRecord>();
    first := p.Shutdown();
    second := p.Shutdown();
    p.OnEmit(rec, ft, host);
    sent := host.sent;
  }
}
