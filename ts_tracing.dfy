/**
 * The TypeScript span processor (ts/src/tracing.ts). `onEnd` maps a finished span field by field
 * onto the WIT span data, unless an attribute's conversion throws; flush and shutdown are not
 * implemented and throw. The span-context
 * conversion it imports is not part of this model and is taken as the parameter `ctx`.
 */
module TsTracing {
  import opened Wrappers
  import opened Numbers
  import Ts = TsSdk
  import TsTypes
  import W = Schema
  import L = Lifecycle
  import J = Json
  import Seqs

  const NOT_IMPLEMENTED: string := "Method not implemented."

  /** The WIT span kinds in the order the JavaScript `SpanKind` numbers them (line 48). */
  const KINDS: seq<W.SpanKind> := [W.Internal, W.Server, W.Client, W.Producer, W.Consumer]

  /** `["internal", "server", "client", "producer", "consumer"][span.kind]`. */
  function SpanKindToWasi(k: Ts.SpanKind): (r: W.SpanKind)
  {
    KINDS[k.Ordinal()]
  }

  /** The kind map is one-to-one and onto, and keeps each kind's name. */
  lemma SpanKindBijective(a: Ts.SpanKind, b: Ts.SpanKind, w: W.SpanKind)
    ensures SpanKindToWasi(a) == SpanKindToWasi(b) ==> a == b
    ensures exists k: Ts.SpanKind :: SpanKindToWasi(k) == w
    ensures (a.INTERNAL? <==> SpanKindToWasi(a).Internal?) && (a.SERVER? <==> SpanKindToWasi(a).Server?)
    ensures (a.CLIENT? <==> SpanKindToWasi(a).Client?) && (a.PRODUCER? <==> SpanKindToWasi(a).Producer?)
  {
    match w
    case Internal => assert SpanKindToWasi(Ts.INTERNAL) == w;
    case Server => assert SpanKindToWasi(Ts.SERVER) == w;
    case Client => assert SpanKindToWasi(Ts.CLIENT) == w;
    case Producer => assert SpanKindToWasi(Ts.PRODUCER) == w;
    case Consumer => assert SpanKindToWasi(Ts.CONSUMER) == w;
  }

  /** The status of lines 60-62: code 0 unset, code 1 ok, any other code an error with the message or "". */
  function StatusToWasi(st: Ts.SpanStatus): (r: W.Status)
    ensures r.StatusUnset? <==> st.code == 0
    ensures r.StatusOk? <==> st.code == 1
    ensures r.StatusError? ==> r.description == (if st.message.Some? then st.message.value else "")
  {
    if st.code == 0 then W.StatusUnset
    else if st.code == 1 then W.StatusOk
    else W.StatusError(if st.message.Some? then st.message.value else "")
  }

  /** An event: name, time and attributes; the attributes' `TypeError` escapes. */
  function EventToWasi(e: Ts.TimedEvent, ft: J.FloatFormatter): (r: Outcome<W.Event<string>>)
    ensures r.Ok? <==> TsTypes.Stringifiable(e.attributes)
    ensures r.Ok? ==> r.value.name == e.name && r.value.attributes == TsTypes.AttributesToWasi(e.attributes, ft).value
  {
    var attributes :- TsTypes.AttributesToWasi(e.attributes, ft);
    Ok(W.Event(e.name, TsTypes.DateTimeToWasi(e.time), attributes))
  }

  /** A link: the converted context and the attributes; the attributes' `TypeError` escapes. */
  function LinkToWasi(link: Ts.Link, ctx: Ts.SpanContext -> W.SpanContext, ft: J.FloatFormatter): (r: Outcome<W.Link<string>>)
    ensures r.Ok? <==> TsTypes.Stringifiable(link.attributes)
    ensures r.Ok? ==> r.value.spanContext == ctx(link.context) && r.value.attributes == TsTypes.AttributesToWasi(link.attributes, ft).value
  {
    var attributes :- TsTypes.AttributesToWasi(link.attributes, ft);
    Ok(W.Link(ctx(link.context), attributes))
  }

  /** The spans whose conversion does not throw: no attribute of the span, its events or its links meets a `BigInt`. */
  predicate SpanStringifiable(span: Ts.ReadableSpan)
  {
    && TsTypes.Stringifiable(span.attributes)
    && (forall k :: 0 <= k < |span.events| ==> TsTypes.Stringifiable(span.events[k].attributes))
    && (forall k :: 0 <= k < |span.links| ==> TsTypes.Stringifiable(span.links[k].attributes))
  }

  /** The span data `onEnd` hands the host (lines 43-75), or the `TypeError` building it throws. */
  function SpanDataToWasi(span: Ts.ReadableSpan, ctx: Ts.SpanContext -> W.SpanContext, ft: J.FloatFormatter): (r: Outcome<W.SpanData<string>>)
  {
    var attributes :- TsTypes.AttributesToWasi(span.attributes, ft);
    var events :- Seqs.MapAll(span.events, (e: Ts.TimedEvent) => EventToWasi(e, ft));
    var links :- Seqs.MapAll(span.links, (link: Ts.Link) => LinkToWasi(link, ctx, ft));
    Ok(W.SpanData(
      spanContext := ctx(span.spanContext),
      parentSpanId := if span.parentSpanId.Some? then span.parentSpanId.value else "",
      spanKind := SpanKindToWasi(span.kind),
      name := span.name,
      startTime := TsTypes.DateTimeToWasi(span.startTime),
      endTime := TsTypes.DateTimeToWasi(span.endTime),
      attributes := attributes,
      events := events,
      links := links,
      status := StatusToWasi(span.status),
      instrumentationScope := TsTypes.InstrumentationScopeToWasi(span.instrumentationLibrary),
      droppedAttributes := span.droppedAttributesCount,
      droppedEvents := span.droppedEventsCount,
      droppedLinks := span.droppedLinksCount))
  }

  /** Names, times and counters are copied; a missing parent is the empty id; the scope has no attributes. */
  lemma SpanDataHeader(span: Ts.ReadableSpan, ctx: Ts.SpanContext -> W.SpanContext, ft: J.FloatFormatter)
    requires SpanDataToWasi(span, ctx, ft).Ok?
    ensures SpanDataToWasi(span, ctx, ft).value.name == span.name
    ensures SpanDataToWasi(span, ctx, ft).value.spanContext == ctx(span.spanContext)
    ensures SpanDataToWasi(span, ctx, ft).value.parentSpanId == (if span.parentSpanId.Some? then span.parentSpanId.value else "")
    ensures TsTypes.DateTimeToWasi(span.startTime) == SpanDataToWasi(span, ctx, ft).value.startTime
    ensures SpanDataToWasi(span, ctx, ft).value.endTime.seconds == span.endTime.seconds
    ensures SpanDataToWasi(span, ctx, ft).value.instrumentationScope.attributes == []
    ensures SpanDataToWasi(span, ctx, ft).value.instrumentationScope.name == span.instrumentationLibrary.name
    ensures SpanDataToWasi(span, ctx, ft).value.droppedAttributes == span.droppedAttributesCount
    ensures SpanDataToWasi(span, ctx, ft).value.droppedEvents == span.droppedEventsCount
    ensures SpanDataToWasi(span, ctx, ft).value.droppedLinks == span.droppedLinksCount
  {
  }

  /** The span data exists exactly when no attribute meets a `BigInt`; otherwise the `TypeError` escapes. */
  lemma SpanDataThrows(span: Ts.ReadableSpan, ctx: Ts.SpanContext -> W.SpanContext, ft: J.FloatFormatter)
    ensures SpanDataToWasi(span, ctx, ft).Ok? <==> SpanStringifiable(span)
    ensures SpanDataToWasi(span, ctx, ft).Abort? ==> SpanDataToWasi(span, ctx, ft).reason == TsTypes.BIGINT_TYPE_ERROR
  {
    var events := Seqs.MapAll(span.events, (e: Ts.TimedEvent) => EventToWasi(e, ft));
    var links := Seqs.MapAll(span.links, (link: Ts.Link) => LinkToWasi(link, ctx, ft));
    if events.Abort? {
      var i :| 0 <= i < |span.events| && EventToWasi(span.events[i], ft) == Abort(events.reason);
      assert !TsTypes.Stringifiable(span.events[i].attributes);
    }
    if links.Abort? {
      var i :| 0 <= i < |span.links| && LinkToWasi(span.links[i], ctx, ft) == Abort(links.reason);
      assert !TsTypes.Stringifiable(span.links[i].attributes);
    }
  }

  /** When the span data exists, attributes, events and links are converted one for one, in order. */
  lemma SpanDataLists(span: Ts.ReadableSpan, ctx: Ts.SpanContext -> W.SpanContext, ft: J.FloatFormatter)
    requires SpanDataToWasi(span, ctx, ft).Ok?
    ensures SpanDataToWasi(span, ctx, ft).value.attributes == TsTypes.AttributesToWasi(span.attributes, ft).value
    ensures |SpanDataToWasi(span, ctx, ft).value.events| == |span.events|
    ensures forall k :: 0 <= k < |span.events| ==>
      SpanDataToWasi(span, ctx, ft).value.events[k].name == span.events[k].name &&
      SpanDataToWasi(span, ctx, ft).value.events[k].attributes == TsTypes.AttributesToWasi(span.events[k].attributes, ft).value
    ensures |SpanDataToWasi(span, ctx, ft).value.links| == |span.links|
    ensures forall k :: 0 <= k < |span.links| ==>
      SpanDataToWasi(span, ctx, ft).value.links[k].spanContext == ctx(span.links[k].context) &&
      SpanDataToWasi(span, ctx, ft).value.links[k].attributes == TsTypes.AttributesToWasi(span.links[k].attributes, ft).value
  {
    var events := Seqs.MapAll(span.events, (e: Ts.TimedEvent) => EventToWasi(e, ft));
    var links := Seqs.MapAll(span.links, (link: Ts.Link) => LinkToWasi(link, ctx, ft));
    assert SpanDataToWasi(span, ctx, ft).value.events == events.value;
    assert SpanDataToWasi(span, ctx, ft).value.links == links.value;
  }

  /** A span with an integer attribute, such as `http.status_code = 200`, never reaches the host. */
  lemma IntegerAttributeLosesSpan(span: Ts.ReadableSpan, ctx: Ts.SpanContext -> W.SpanContext, ft: J.FloatFormatter, f: F64Bits)
    requires IsIntegral(f) && span.attributes == Some([("http.status_code", Ts.ANumber(f))])
    ensures SpanDataToWasi(span, ctx, ft) == Abort(TsTypes.BIGINT_TYPE_ERROR)
  {
    TsTypes.IntegerAttributeThrows("http.status_code", f, ft);
  }

  /** `WasiSpanProcessor`: no state; start and end go to the host, flush and shutdown throw. */
  class WasiSpanProcessor {
    constructor ()
    {
    }

    /** `onStart`: the span's converted context. */
    method OnStart(sc: Ts.SpanContext, ctx: Ts.SpanContext -> W.SpanContext, host: L.Channel<W.SpanContext>)
      modifies host
      ensures host.sent == old(host.sent) + [ctx(sc)]
    {
      host.Send(ctx(sc));
    }

    /**
     * `onEnd`: the converted span data goes to the host; when building it throws, the
     * `TypeError` escapes `onEnd` and the host receives nothing.
     */
    method OnEnd(span: Ts.ReadableSpan, ctx: Ts.SpanContext -> W.SpanContext, ft: J.FloatFormatter, host: L.Channel<W.SpanData<string>>)
      returns (r: Outcome<()>)
      modifies host
      ensures r.Ok? <==> SpanStringifiable(span)
      ensures r.Ok? ==> host.sent == old(host.sent) + [SpanDataToWasi(span, ctx, ft).value]
      ensures r.Abort? ==> r.reason == TsTypes.BIGINT_TYPE_ERROR && host.sent == old(host.sent)
    {
      SpanDataThrows(span, ctx, ft);
      var data := SpanDataToWasi(span, ctx, ft);
      if data.Abort? {
        return Abort(data.reason);
      }
      host.Send(data.value);
      r := Ok(());
    }

    /** `forceFlush`: throws. */
    method ForceFlush() returns (r: Outcome<()>)
      ensures r == Abort(NOT_IMPLEMENTED)
    {
      r := Abort(NOT_IMPLEMENTED);
    }

    /** `shutdown`: throws, and changes nothing. */
    method Shutdown() returns (r: Outcome<()>)
      ensures r == Abort(NOT_IMPLEMENTED)
    {
      r := Abort(NOT_IMPLEMENTED);
    }
  }
}
