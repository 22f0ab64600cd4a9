/**
 * The span processor of the Go guest at the repository root (go/processor.go). The flag is the
 * `atomic.Bool`, loaded and swapped by single-threaded calls through a pointer receiver, so a
 * shutdown latches. Its conversions are the `cm`-list helpers of the `wasip2` revision; the host
 * imports are channels that record what the host reads.
 */
module GoProcessor {
  import opened Wrappers
  import opened Numbers
  import Hex
  import Go = GoSdk
  import GoTracing
  import P2 = GoWasip2Conversion
  import W = Schema
  import L = Lifecycle

  const ALREADY_SHUTDOWN: SdkError := Other("processor already shutdown")

  /** The span data `OnEnd` writes, lists unread. */
  function SpanDataOf(s: Go.ReadOnlySpan): (r: P2.SpanData)
    ensures r.spanKind == WrapU8(s.kind)
    ensures r.startTime.seconds < 60 && r.endTime.seconds < 60
    ensures r.droppedAttributes == WrapU32(s.droppedAttributes) && r.droppedEvents == WrapU32(s.droppedEvents)
    ensures r.droppedLinks == WrapU32(s.droppedLinks)
  {
    P2.SpanData(
      P2.SpanContextToWasi(s.spanContext), Hex.EncodeBytes(s.parent.spanId), WrapU8(s.kind), s.name,
      P2.DateTimeToWasi(s.startTime), P2.DateTimeToWasi(s.endTime), P2.AttributesList(s.attributes),
      P2.LastOnlyList(s.events, P2.EventToWasi), P2.LastOnlyList(s.links, P2.LinkToWasi),
      P2.StatusToWasi(s.status), P2.ScopeToWasi(s.scope),
      WrapU32(s.droppedAttributes), WrapU32(s.droppedEvents), WrapU32(s.droppedLinks))
  }

  /** Events the host can read: at most one, with at most one attribute. */
  predicate EventsReadable(events: seq<Go.Event>)
  {
    |events| <= 1 && forall i :: 0 <= i < |events| ==> |events[i].attributes| <= 1
  }

  /** Links the host can read: at most one, with no trace state and at most one attribute. */
  predicate LinksReadable(links: seq<Go.Link>)
  {
    |links| <= 1 && forall i :: 0 <= i < |links| ==> |links[i].spanContext.traceState| == 0 && |links[i].attributes| <= 1
  }

  /**
   * The spans whose data the host can read: a kind the cast maps to a discriminant, no trace
   * state anywhere, and at most one element in every list.
   */
  predicate Readable(s: Go.ReadOnlySpan)
  {
    GoTracing.KindCast(s.kind).Some? && |s.spanContext.traceState| == 0
    && |s.attributes| <= 1 && |s.scope.attributes| <= 1
    && EventsReadable(s.events) && LinksReadable(s.links)
  }

  lemma EventsRead(events: seq<Go.Event>)
    ensures var l := P2.Elements(P2.LastOnlyList(events, P2.EventToWasi));
      (l.Ok? && forall i :: 0 <= i < |l.value| ==> P2.ReadEvent(l.value[i]).Ok?) <==> EventsReadable(events)
  {
    if |events| == 1 {
      assert P2.Elements(P2.LastOnlyList(events, P2.EventToWasi)).value == [P2.EventToWasi(events[0])];
    }
  }

  lemma LinksRead(links: seq<Go.Link>)
    ensures var l := P2.Elements(P2.LastOnlyList(links, P2.LinkToWasi));
      (l.Ok? && forall i :: 0 <= i < |l.value| ==> P2.ReadLink(l.value[i]).Ok?) <==> LinksReadable(links)
  {
    if |links| == 1 {
      assert P2.Elements(P2.LastOnlyList(links, P2.LinkToWasi)).value == [P2.LinkToWasi(links[0])];
    }
  }

  /** The host reads the span data exactly when the span is readable. */
  lemma ReadableSpans(s: Go.ReadOnlySpan)
    ensures P2.ReadSpanData(SpanDataOf(s)).Ok? <==> Readable(s)
  {
    var d := SpanDataOf(s);
    EventsRead(s.events);
    LinksRead(s.links);
    assert P2.ReadSpanContext(d.spanContext).Ok? <==> |s.spanContext.traceState| == 0;
    assert W.SpanKindOfTag(d.spanKind).Some? <==> GoTracing.KindCast(s.kind).Some?;
    assert P2.Elements(d.attributes).Ok? <==> |s.attributes| <= 1;
    assert P2.ReadScope(d.scope).Ok? <==> |s.scope.attributes| <= 1;
  }

  /** What the host reads at the end of a span: the span data, when every list is readable. */
  function Delivered(s: Go.ReadOnlySpan): (r: Outcome<W.SpanData<W.Value>>)
    ensures r.Ok? <==> Readable(s)
    ensures r.Ok? ==> W.SpanKindOfTag(WrapU8(s.kind)) == Some(r.value.spanKind) && r.value.name == s.name
    ensures r.Ok? ==> r.value.parentSpanId == Hex.EncodeBytes(s.parent.spanId)
    ensures r.Ok? ==> r.value.spanContext.traceState == [] && |r.value.attributes| == |s.attributes|
    ensures r.Ok? ==> r.value.startTime == P2.DateTimeToWasi(s.startTime) && r.value.endTime == P2.DateTimeToWasi(s.endTime)
  {
    ReadableSpans(s);
    P2.ReadSpanData(SpanDataOf(s))
  }

  /** A span with two attributes, or any trace state, never reaches the host in a readable form. */
  lemma TwoAttributesUnreadable(s: Go.ReadOnlySpan)
    requires |s.attributes| >= 2 || |s.spanContext.traceState| > 0
    ensures Delivered(s).Abort?
  {
  }

  class WasiProcessor {
    var isShutdown: bool

    constructor ()
      ensures !isShutdown
    {
      isShutdown := false;
    }

    /** `OnStart`: the span's context, unless shut down; a trace state leaves the host reading past its list. */
    method OnStart(sc: Go.SpanContext, host: L.Channel<W.SpanContext>) returns (r: Outcome<()>)
      modifies host
      ensures isShutdown ==> r == Ok(()) && host.sent == old(host.sent)
      ensures !isShutdown ==> (r.Ok? <==> |sc.traceState| == 0)
      ensures !isShutdown && r.Ok? ==>
        host.sent == old(host.sent) + [W.SpanContext(Hex.EncodeBytes(sc.traceId), Hex.EncodeBytes(sc.spanId), sc.traceFlags, sc.remote, [])]
      ensures r.Abort? ==> host.sent == old(host.sent)
    {
      if isShutdown {
        return Ok(());
      }
      var read :- P2.ReadSpanContext(P2.SpanContextToWasi(sc));
      host.Send(read);
      r := Ok(());
    }

    /** `OnEnd`: the span data, unless shut down. */
    method OnEnd(s: Go.ReadOnlySpan, host: L.Channel<W.SpanData<W.Value>>) returns (r: Outcome<()>)
      modifies host
      ensures isShutdown ==> r == Ok(()) && host.sent == old(host.sent)
      ensures !isShutdown ==> (r.Ok? <==> Readable(s))
      ensures !isShutdown && r.Ok? ==> host.sent == old(host.sent) + [Delivered(s).value]
      ensures r.Abort? ==> host.sent == old(host.sent)
    {
      if isShutdown {
        return Ok(());
      }
      var read :- Delivered(s);
      host.Send(read);
      r := Ok(());
    }

    method ForceFlush() returns (r: SdkResult)
      ensures r == L.FlushReply(isShutdown, ALREADY_SHUTDOWN)
    {
      if isShutdown {
        return Failure(ALREADY_SHUTDOWN);
      }
      r := Success;
    }

    /** `Shutdown`: flushes, then swaps the flag; a second shutdown returns the flush error. */
    method Shutdown() returns (r: SdkResult)
      modifies this
      ensures isShutdown == L.Next(old(isShutdown), L.Stop)
      ensures L.Answered(r) == L.ReplyTo(old(isShutdown), L.Stop, ALREADY_SHUTDOWN)
    {
      var err := ForceFlush();
      var was := isShutdown;
      isShutdown := true;
      if was {
        return err;
      }
      r := Success;
    }
  }

  /** A new processor: the first shutdown succeeds, a second fails, and so does a later flush. */
  method ShutdownTwice() returns (first: SdkResult, second: SdkResult, flush: SdkResult)
    ensures first == Success && second == Failure(ALREADY_SHUTDOWN) && flush == Failure(ALREADY_SHUTDOWN)
  {
    var p := new WasiProcessor();
    first := p.Shutdown();
    second := p.Shutdown();
    flush := p.ForceFlush();
  }
}

/**
 * The cgo span processor with an atomic flag (go/wasip1/tracing/processor.go): pointer receivers,
 * so shutdown latches. Its conversion helpers are taken to be those of go/wasip1/traces.
 */
module GoWasip1Tracing {
  import opened Wrappers
  import opened Numbers
  import Hex
  import Go = GoSdk
  import GoTracing
  import U = GoWasip1Utils
  import W = Schema
  import L = Lifecycle

  const ALREADY_SHUTDOWN: SdkError := Other("processor already shutdown")

  /**
   * The span data both cgo processors write: the span context with its flags and trace state,
   * the kind cast to the C enum, times split at the epoch, every list element by element, and
   * no dropped counts. A kind without a discriminant traps the host.
   */
  function SpanDataToOtel(s: Go.ReadOnlySpan): (r: Outcome<W.SpanData<W.Value>>)
    ensures r.Ok? <==> GoTracing.KindCast(s.kind).Some?
    ensures r.Abort? ==> r.reason == "invalid span-kind discriminant"
    ensures r.Ok? ==> r.value.spanKind == GoTracing.KindCast(s.kind).value
    ensures r.Ok? ==> r.value.spanContext == U.SpanContextToOtel(s.spanContext)
    ensures r.Ok? ==> r.value.parentSpanId == Hex.EncodeBytes(s.parent.spanId)
    ensures r.Ok? ==> r.value.startTime == U.TimeToOtel(s.startTime) && r.value.endTime == U.TimeToOtel(s.endTime)
    ensures r.Ok? ==> r.value.attributes == U.AttributesToOtel(s.attributes)
    ensures r.Ok? ==> |r.value.events| == |s.events| && forall i :: 0 <= i < |s.events| ==> r.value.events[i] == U.EventToOtel(s.events[i])
    ensures r.Ok? ==> |r.value.links| == |s.links| && forall i :: 0 <= i < |s.links| ==> r.value.links[i] == U.LinkToOtel(s.links[i])
    ensures r.Ok? ==> r.value.status == U.StatusToOtel(s.status) && r.value.instrumentationScope == U.ScopeToOtel(s.scope)
    ensures r.Ok? ==> r.value.droppedAttributes == 0 && r.value.droppedEvents == 0 && r.value.droppedLinks == 0
  {
    match GoTracing.KindCast(s.kind)
    case None => Abort("invalid span-kind discriminant")
    case Some(kind) =>
      Ok(W.SpanData(
        U.SpanContextToOtel(s.spanContext), Hex.EncodeBytes(s.parent.spanId), kind, s.name,
        U.TimeToOtel(s.startTime), U.TimeToOtel(s.endTime), U.AttributesToOtel(s.attributes),
        Seqs.Map(s.events, U.EventToOtel), Seqs.Map(s.links, U.LinkToOtel),
        U.StatusToOtel(s.status), U.ScopeToOtel(s.scope), 0, 0, 0))
  }

  import Seqs

  /** The span context written field by field, its trace state by the array loop. */
  method WriteSpanContext(sc: Go.SpanContext) returns (r: W.SpanContext)
    ensures r == U.SpanContextToOtel(sc)
  {
    var traceState := U.FillList(sc.traceState, (m: (string, string)) => m);
    assert traceState == sc.traceState;
    r := W.SpanContext(Hex.EncodeBytes(sc.traceId), Hex.EncodeBytes(sc.spanId), sc.traceFlags, sc.remote, traceState);
  }

  /** The span data written field by field, each list by the array loop. */
  method WriteSpanData(s: Go.ReadOnlySpan) returns (r: Outcome<W.SpanData<W.Value>>)
    ensures r == SpanDataToOtel(s)
  {
    var spanContext := WriteSpanContext(s.spanContext);
    var attributes := U.FillList(s.attributes, U.KeyValueToOtel);
    var events := U.FillList(s.events, U.EventToOtel);
    var links := U.FillList(s.links, U.LinkToOtel);
    var kind := GoTracing.KindCast(s.kind);
    if kind.None? {
      return Abort("invalid span-kind discriminant");
    }
    r := Ok(W.SpanData(
      spanContext, Hex.EncodeBytes(s.parent.spanId), kind.value, s.name,
      U.TimeToOtel(s.startTime), U.TimeToOtel(s.endTime), attributes, events, links,
      U.StatusToOtel(s.status), U.ScopeToOtel(s.scope), 0, 0, 0));
  }

  class WasiProcessor {
    var isShutdown: bool

    constructor ()
      ensures !isShutdown
    {
      isShutdown := false;
    }

    /** `OnStart`: the span's context with its flags and whole trace state, unless shut down. */
    method OnStart(sc: Go.SpanContext, host: L.Channel<W.SpanContext>)
      modifies host
      ensures isShutdown ==> host.sent == old(host.sent)
      ensures !isShutdown ==> host.sent == old(host.sent) + [U.SpanContextToOtel(sc)]
    {
      if isShutdown {
        return;
      }
      var converted := WriteSpanContext(sc);
      host.Send(converted);
    }

    /** `OnEnd`: the span data, unless shut down; a kind without a discriminant traps the host. */
    method OnEnd(s: Go.ReadOnlySpan, host: L.Channel<W.SpanData<W.Value>>) returns (r: Outcome<()>)
      modifies host
      ensures isShutdown ==> r == Ok(()) && host.sent == old(host.sent)
      ensures !isShutdown ==> (r.Ok? <==> GoTracing.KindCast(s.kind).Some?)
      ensures !isShutdown && r.Ok? ==> host.sent == old(host.sent) + [SpanDataToOtel(s).value]
      ensures r.Abort? ==> host.sent == old(host.sent)
    {
      if isShutdown {
        return Ok(());
      }
      var data := WriteSpanData(s);
      var written :- data;
      host.Send(written);
      r := Ok(());
    }

    method ForceFlush() returns (r: SdkResult)
      ensures r == L.FlushReply(isShutdown, ALREADY_SHUTDOWN)
    {
      if isShutdown {
        return Failure(ALREADY_SHUTDOWN);
      }
      r := Success;
    }

    /** `Shutdown`: flushes, then swaps the flag; a second shutdown returns the flush error. */
    method Shutdown() returns (r: SdkResult)
      modifies this
      ensures isShutdown == L.Next(old(isShutdown), L.Stop)
      ensures L.Answered(r) == L.ReplyTo(old(isShutdown), L.Stop, ALREADY_SHUTDOWN)
    {
      var err := ForceFlush();
      var was := isShutdown;
      isShutdown := true;
      if was {
        return err;
      }
      r := Success;
    }
  }

  method ShutdownTwice() returns (first: SdkResult, second: SdkResult)
    ensures first == Success && second == Failure(ALREADY_SHUTDOWN)
  {
    var p := new WasiProcessor();
    first := p.Shutdown();
    second := p.Shutdown();
  }
}

/**
 * The cgo span processor with a plain flag (go/wasip1/traces/processor.go). Every method has a
 * value receiver, so each works on a copy: none writes the flag, and `Shutdown` is `ForceFlush`.
 */
module GoWasip1Traces {
  import opened Wrappers
  import Go = GoSdk
  import GoTracing
  import U = GoWasip1Utils
  import T = GoWasip1Tracing
  import W = Schema
  import L = Lifecycle

  const ALREADY_SHUTDOWN: SdkError := Other("processor already shutdown")

  class WasiProcessor {
    var isShutdown: bool

    constructor ()
      ensures !isShutdown
    {
      isShutdown := false;
    }

    method OnStart(sc: Go.SpanContext, host: L.Channel<W.SpanContext>)
      modifies host
      ensures isShutdown ==> host.sent == old(host.sent)
      ensures !isShutdown ==> host.sent == old(host.sent) + [U.SpanContextToOtel(sc)]
    {
      if isShutdown {
        return;
      }
      var converted := T.WriteSpanContext(sc);
      host.Send(converted);
    }

    method OnEnd(s: Go.ReadOnlySpan, host: L.Channel<W.SpanData<W.Value>>) returns (r: Outcome<()>)
      modifies host
      ensures isShutdown ==> r == Ok(()) && host.sent == old(host.sent)
      ensures !isShutdown ==> (r.Ok? <==> GoTracing.KindCast(s.kind).Some?)
      ensures !isShutdown && r.Ok? ==> host.sent == old(host.sent) + [T.SpanDataToOtel(s).value]
      ensures r.Abort? ==> host.sent == old(host.sent)
    {
      if isShutdown {
        return Ok(());
      }
      var data := T.WriteSpanData(s);
      var written :- data;
      host.Send(written);
      r := Ok(());
    }

    method ForceFlush() returns (r: SdkResult)
      ensures r == L.FlushReply(isShutdown, ALREADY_SHUTDOWN)
    {
      if isShutdown {
        return Failure(ALREADY_SHUTDOWN);
      }
      r := Success;
    }

    /** `Shutdown`: the flush result, with the flag left as it was. */
    method Shutdown() returns (r: SdkResult)
      ensures L.Answered(r) == L.ReplyTo(isShutdown, L.Stop, ALREADY_SHUTDOWN)
    {
      r := ForceFlush();
    }
  }

  /**
   * A new processor never shuts down: every shutdown and every flush succeeds, and spans keep
   * reaching the host; the latching machine would refuse the second call.
   */
  method RepeatedShutdowns() returns (first: SdkResult, second: SdkResult, flush: SdkResult)
    ensures first == Success && second == Success && flush == Success
    ensures [L.Answered(first), L.Answered(second)] == L.StuckReplies(false, [L.Stop, L.Stop], ALREADY_SHUTDOWN)
    ensures L.Replies(false, [L.Stop, L.Stop], ALREADY_SHUTDOWN)[1] == L.Answered(Failure(ALREADY_SHUTDOWN))
  {
    var p := new WasiProcessor();
    first := p.Shutdown();
    second := p.Shutdown();
    flush := p.ForceFlush();
    L.StuckDiffers([L.Stop, L.Stop], ALREADY_SHUTDOWN, 0);
  }
}

/**
 * The `wasip2` span processor (go/wasip2/processor.go): value receivers as in the cgo one, an
 * `OnStart` that builds the trace-state list itself, and an `OnEnd` that fills in only the
 * parent span id, kind, name and times.
 */
module GoWasip2Processor {
  import opened Wrappers
  import opened Numbers
  import Hex
  import Go = GoSdk
  import GoTracing
  import P2 = GoWasip2Conversion
  import W = Schema
  import L = Lifecycle

  const ALREADY_SHUTDOWN: SdkError := Other("processor already shutdown")

  /** The placeholder span data: zero values for everything but the parent, kind, name and times. */
  function PlaceholderOf(s: Go.ReadOnlySpan): (r: P2.SpanData)
    ensures P2.Elements(r.attributes) == Ok([]) && P2.Elements(r.events) == Ok([]) && P2.Elements(r.links) == Ok([])
    ensures r.droppedAttributes == 0 && r.droppedEvents == 0 && r.droppedLinks == 0
  {
    P2.SpanData(
      P2.SpanContext("", "", 0, false, P2.EmptyList()), Hex.EncodeBytes(s.parent.spanId), WrapU8(s.kind), s.name,
      P2.DateTimeToWasi(s.startTime), P2.DateTimeToWasi(s.endTime),
      P2.EmptyList(), P2.EmptyList(), P2.EmptyList(), W.StatusUnset,
      P2.Scope("", None, None, P2.EmptyList()), 0, 0, 0)
  }

  class WasiProcessor {
    var isShutdown: bool

    constructor ()
      ensures !isShutdown
    {
      isShutdown := false;
    }

    /**
     * `OnStart`: the loop replaces the trace-state list with one claiming two pairs for each
     * member, so the host can read the span context only when there is no trace state.
     */
    method OnStart(sc: Go.SpanContext, host: L.Channel<W.SpanContext>) returns (r: Outcome<()>)
      modifies host
      ensures isShutdown ==> r == Ok(()) && host.sent == old(host.sent)
      ensures !isShutdown ==> (r.Ok? <==> |sc.traceState| == 0)
      ensures !isShutdown && r.Ok? ==>
        host.sent == old(host.sent) + [W.SpanContext(Hex.EncodeBytes(sc.traceId), Hex.EncodeBytes(sc.spanId), sc.traceFlags, sc.remote, [])]
      ensures r.Abort? ==> host.sent == old(host.sent)
    {
      if isShutdown {
        return Ok(());
      }
      var traceStateList: P2.CmList<(string, string)> := P2.EmptyList();
      for i := 0 to |sc.traceState|
        invariant traceStateList == P2.TraceStateList(sc.traceState[..i])
      {
        traceStateList := P2.CmList([sc.traceState[i]], 2);
      }
      assert sc.traceState[..|sc.traceState|] == sc.traceState;
      var converted := P2.SpanContext(Hex.EncodeBytes(sc.traceId), Hex.EncodeBytes(sc.spanId), sc.traceFlags, sc.remote, traceStateList);
      var read :- P2.ReadSpanContext(converted);
      host.Send(read);
      r := Ok(());
    }

    /** `OnEnd`: the placeholder span data, unless shut down; a kind without a discriminant traps the host. */
    method OnEnd(s: Go.ReadOnlySpan, host: L.Channel<W.SpanData<W.Value>>) returns (r: Outcome<()>)
      modifies host
      ensures isShutdown ==> r == Ok(()) && host.sent == old(host.sent)
      ensures !isShutdown ==> (r.Ok? <==> GoTracing.KindCast(s.kind).Some?)
      ensures !isShutdown && r.Ok? ==> host.sent == old(host.sent) + [W.SpanData(
        W.SpanContext("", "", 0, false, []), Hex.EncodeBytes(s.parent.spanId), GoTracing.KindCast(s.kind).value, s.name,
        P2.DateTimeToWasi(s.startTime), P2.DateTimeToWasi(s.endTime), [], [], [], W.StatusUnset,
        W.InstrumentationScope("", None, None, []), 0, 0, 0)]
      ensures r.Abort? ==> host.sent == old(host.sent)
    {
      if isShutdown {
        return Ok(());
      }
      var read :- P2.ReadSpanData(PlaceholderOf(s));
      host.Send(read);
      r := Ok(());
    }

    method ForceFlush() returns (r: SdkResult)
      ensures r == L.FlushReply(isShutdown, ALREADY_SHUTDOWN)
    {
      if isShutdown {
        return Failure(ALREADY_SHUTDOWN);
      }
      r := Success;
    }

    /** `Shutdown`: the flush result, with the flag left as it was. */
    method Shutdown() returns (r: SdkResult)
      ensures L.Answered(r) == L.ReplyTo(isShutdown, L.Stop, ALREADY_SHUTDOWN)
    {
      r := ForceFlush();
    }
  }

  /**
   * A new processor answers every shutdown and flush with success, so it never stops forwarding
   * spans; the latching machine would refuse the second call.
   */
  method RepeatedShutdowns() returns (first: SdkResult, second: SdkResult, flush: SdkResult)
    ensures first == Success && second == Success && flush == Success
    ensures [L.Answered(first), L.Answered(second)] == L.StuckReplies(false, [L.Stop, L.Stop], ALREADY_SHUTDOWN)
    ensures L.Replies(false, [L.Stop, L.Stop], ALREADY_SHUTDOWN)[1] == L.Answered(Failure(ALREADY_SHUTDOWN))
  {
    var p := new WasiProcessor();
    first := p.Shutdown();
    second := p.Shutdown();
    flush := p.ForceFlush();
    L.StuckDiffers([L.Stop, L.Stop], ALREADY_SHUTDOWN, 0);
  }
}
