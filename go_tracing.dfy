/**
 * The Go span conversions of the `0.2.0-draft` world (go/tracing/conversions.go): a finished
 * `ReadOnlySpan` becomes the host's `span-data`, and a host span context becomes an SDK one.
 */
module GoTracing {
  import opened Wrappers
  import opened Numbers
  import Seqs
  import Hex
  import TraceState
  import J = Json
  import Go = GoSdk
  import GoTypes
  import W = Schema

  // ---- status and kind --------------------------------------------------------------------------

  /** `toWasiStatus`: the three known codes map to their variants; any other code reads as unset. */
  function StatusToWasi(s: Go.Status): (r: W.Status)
    ensures r.StatusError? <==> s.code == Go.CODE_ERROR
    ensures r.StatusOk? <==> s.code == Go.CODE_OK
    ensures r.StatusError? ==> r.description == s.description
  {
    if s.code == Go.CODE_UNSET then W.StatusUnset
    else if s.code == Go.CODE_ERROR then W.StatusError(s.description)
    else if s.code == Go.CODE_OK then W.StatusOk
    else W.StatusUnset
  }

  /** The code a host status stands for. */
  function CodeOf(s: W.Status): U32
  {
    match s
    case StatusUnset => Go.CODE_UNSET
    case StatusError(_) => Go.CODE_ERROR
    case StatusOk => Go.CODE_OK
  }

  /** On the three codes `codes` defines, the status map loses neither the code nor an error's description. */
  lemma StatusRoundTrip(s: Go.Status)
    requires s.code <= Go.CODE_OK
    ensures CodeOf(StatusToWasi(s)) == s.code
    ensures s.code == Go.CODE_ERROR ==> StatusToWasi(s) == W.StatusError(s.description)
  {
  }

  /** `toWasiSpanKind`: the five kinds map one for one; `Unspecified` and unknown kinds panic. */
  function SpanKindToWasi(k: int): (r: Outcome<W.SpanKind>)
    ensures r.Ok? <==> Go.SPAN_KIND_INTERNAL <= k <= Go.SPAN_KIND_CONSUMER
    ensures k == Go.SPAN_KIND_UNSPECIFIED ==> r == Abort("SpanKindUnspecified is not implemented")
    ensures r.Abort? && k != Go.SPAN_KIND_UNSPECIFIED ==> r.reason == "unimplemented type"
  {
    if k == Go.SPAN_KIND_CLIENT then Ok(W.Client)
    else if k == Go.SPAN_KIND_CONSUMER then Ok(W.Consumer)
    else if k == Go.SPAN_KIND_INTERNAL then Ok(W.Internal)
    else if k == Go.SPAN_KIND_PRODUCER then Ok(W.Producer)
    else if k == Go.SPAN_KIND_SERVER then Ok(W.Server)
    else if k == Go.SPAN_KIND_UNSPECIFIED then Abort("SpanKindUnspecified is not implemented")
    else Abort("unimplemented type")
  }

  /** The Go kind a host kind stands for. */
  function GoKindOf(k: W.SpanKind): int
  {
    match k
    case Client => Go.SPAN_KIND_CLIENT
    case Server => Go.SPAN_KIND_SERVER
    case Producer => Go.SPAN_KIND_PRODUCER
    case Consumer => Go.SPAN_KIND_CONSUMER
    case Internal => Go.SPAN_KIND_INTERNAL
  }

  /** The kind map is a bijection between the five Go kinds and the five host kinds. */
  lemma SpanKindBijective(k: int, h: W.SpanKind)
    ensures SpanKindToWasi(GoKindOf(h)) == Ok(h)
    ensures SpanKindToWasi(k).Ok? ==> GoKindOf(SpanKindToWasi(k).value) == k
  {
  }

  /**
   * The numeric cast `SpanKind(s.SpanKind())` the processors use instead of the switch: the Go
   * kind is written, wrapped to a byte, as the discriminant of the host's enum.
   */
  function KindCast(k: int): (r: Option<W.SpanKind>)
    ensures r.Some? <==> 0 <= WrapU8(k) < 5
    ensures r.Some? ==> r.value.Tag() == WrapU8(k)
  {
    W.SpanKindOfTag(WrapU8(k))
  }

  /**
   * The cast puts every Go kind on the wrong host kind, internal spans on `server`, and has no
   * host kind for consumer spans.
   */
  lemma KindCastMisplaces(k: int)
    requires Go.SPAN_KIND_INTERNAL <= k <= Go.SPAN_KIND_CONSUMER
    ensures KindCast(k) != Some(SpanKindToWasi(k).value)
    ensures k == Go.SPAN_KIND_INTERNAL ==> KindCast(k) == Some(W.Server)
    ensures k == Go.SPAN_KIND_CONSUMER ==> KindCast(k).None?
  {
  }

  // ---- SDK span context to host ------------------------------------------------------------------

  /**
   * `toWasiSpanContext` as written: the slice is made with length `Len()` and then appended to,
   * so `Len()` empty pairs precede the members walked in order. Ids are the lower-case hex of
   * their bytes and the flags always carry `sampled`.
   */
  function SpanContextAsWritten(sc: Go.SpanContext): (r: W.SpanContext)
    ensures |r.traceState| == 2 * |sc.traceState|
    ensures r.traceState[|sc.traceState|..] == sc.traceState
    ensures forall i :: 0 <= i < |sc.traceState| ==> r.traceState[i] == ("", "")
    ensures r.traceId == Hex.EncodeBytes(sc.traceId) && |r.traceId| == 32
    ensures r.spanId == Hex.EncodeBytes(sc.spanId) && |r.spanId| == 16
    ensures r.traceFlags == W.SAMPLED && r.isRemote == sc.remote
  {
    var pad := seq(|sc.traceState|, _ => ("", ""));
    assert (pad + sc.traceState)[|sc.traceState|..] == sc.traceState;
    W.SpanContext(Hex.EncodeBytes(sc.traceId), Hex.EncodeBytes(sc.spanId), W.SAMPLED, sc.remote, pad + sc.traceState)
  }

  /** `toWasiSpanContext`: the pre-sized slice, then one append per member in `Walk` order. */
  method ToWasiSpanContext(sc: Go.SpanContext) returns (r: W.SpanContext)
    ensures r == SpanContextAsWritten(sc)
  {
    var traceState: seq<(string, string)> := seq(|sc.traceState|, _ => ("", ""));
    for i := 0 to |sc.traceState|
      invariant traceState == seq(|sc.traceState|, _ => ("", "")) + sc.traceState[..i]
    {
      traceState := traceState + [sc.traceState[i]];
    }
    assert sc.traceState[..|sc.traceState|] == sc.traceState;
    r := W.SpanContext(Hex.EncodeBytes(sc.traceId), Hex.EncodeBytes(sc.spanId), W.SAMPLED, sc.remote, traceState);
  }

  /** The span context with the slice made empty, as the append loop evidently intends. */
  function SpanContextToWasi(sc: Go.SpanContext): (r: W.SpanContext)
    ensures r.traceState == sc.traceState
    ensures r.traceId == Hex.EncodeBytes(sc.traceId) && r.spanId == Hex.EncodeBytes(sc.spanId)
    ensures r.traceFlags == W.SAMPLED && r.isRemote == sc.remote
  {
    W.SpanContext(Hex.EncodeBytes(sc.traceId), Hex.EncodeBytes(sc.spanId), W.SAMPLED, sc.remote, sc.traceState)
  }

  // ---- host span context to SDK ------------------------------------------------------------------

  /** Inserts the members one after another, each to the front; the first malformed one panics. */
  function InsertAll(ts: Go.GoTraceState, pairs: seq<(string, string)>): (r: Outcome<Go.GoTraceState>)
    ensures r.Ok? <==> TraceState.Valid(pairs)
    ensures r.Abort? ==> r.reason == "invalid trace state entry"
    decreases |pairs|
  {
    if |pairs| == 0 then Ok(ts)
    else
      var next :- Go.Insert(ts, pairs[0].0, pairs[0].1);
      assert forall i :: 1 <= i < |pairs| ==> pairs[i] == pairs[1..][i - 1];
      InsertAll(next, pairs[1..])
  }

  function Reversed<T>(s: seq<T>): (r: seq<T>)
    ensures |r| == |s| && forall i :: 0 <= i < |s| ==> r[i] == s[|s| - 1 - i]
  {
    seq(|s|, i requires 0 <= i < |s| => s[|s| - 1 - i])
  }

  /**
   * Inserting distinct members into a list that has room for them yields them in reverse order
   * in front of it: the host's first member ends up last.
   */
  lemma {:induction false} InsertAllReverses(ts: Go.GoTraceState, pairs: seq<(string, string)>)
    requires TraceState.Valid(pairs) && Go.DistinctKeys(pairs)
    requires forall i, j :: 0 <= i < |pairs| && 0 <= j < |ts| ==> pairs[i].0 != ts[j].0
    requires |ts| + |pairs| <= Go.MAX_LIST_MEMBERS
    ensures InsertAll(ts, pairs).Ok? && InsertAll(ts, pairs).value == Reversed(pairs) + ts
    decreases |pairs|
  {
    if |pairs| > 0 {
      var next := Go.Insert(ts, pairs[0].0, pairs[0].1).value;
      assert next == [pairs[0]] + ts;
      var rest := pairs[1..];
      forall i, j | 0 <= i < |rest| && 0 <= j < |next| ensures rest[i].0 != next[j].0 {
        if j > 0 {
          assert next[j] == ts[j - 1];
        }
      }
      InsertAllReverses(next, rest);
      assert Reversed(pairs) == Reversed(rest) + [pairs[0]];
    }
  }

  /** `hex.DecodeString` of an id and its length check, with the two panics. */
  function DecodeId(s: string, size: nat, badHex: string, badLength: string): (r: Outcome<seq<U8>>)
    ensures r.Ok? <==> Hex.DecodeBytes(s).Some? && |Hex.DecodeBytes(s).value| == size
    ensures r.Ok? ==> r.value == Hex.DecodeBytes(s).value && |r.value| == size
    ensures r.Abort? ==> r.reason == (if Hex.DecodeBytes(s).None? then badHex else badLength)
  {
    match Hex.DecodeBytes(s)
    case None => Abort(badHex)
    case Some(id) => if |id| != size then Abort(badLength) else Ok(id)
  }

  predicate Decodable(ctx: W.SpanContext)
  {
    DecodeId(ctx.traceId, 16, "", "").Ok? && DecodeId(ctx.spanId, 8, "", "").Ok?
  }

  /**
   * `toOtelSpanContext`: both ids must be hex of the right size and every member well formed,
   * or the guest panics; the flags are always `FlagsSampled` and `Remote` is copied.
   */
  function SpanContextOf(ctx: W.SpanContext): (r: Outcome<Go.SpanContext>)
    ensures r.Ok? <==> Decodable(ctx) && TraceState.Valid(ctx.traceState)
    ensures r.Ok? ==> Hex.DecodeBytes(ctx.traceId) == Some(r.value.traceId)
    ensures r.Ok? ==> Hex.DecodeBytes(ctx.spanId) == Some(r.value.spanId)
    ensures r.Ok? ==> r.value.traceFlags == W.SAMPLED && r.value.remote == ctx.isRemote
    ensures r.Ok? ==> Ok(r.value.traceState) == InsertAll([], ctx.traceState)
  {
    var tid :- DecodeId(ctx.traceId, 16, "invalid trace ID", "trace ID must be 16 bytes");
    var sid :- DecodeId(ctx.spanId, 8, "invalid span ID", "span id must be 8 bytes");
    var traceState :- InsertAll([], ctx.traceState);
    Ok(Go.SpanContext(tid, sid, W.SAMPLED, traceState, ctx.isRemote))
  }

  /** `toOtelSpanContext`: the ids, then the trace state rebuilt member by member. */
  method ToOtelSpanContext(ctx: W.SpanContext) returns (r: Outcome<Go.SpanContext>)
    ensures r.Ok? <==> SpanContextOf(ctx).Ok?
    ensures r.Ok? ==> r == SpanContextOf(ctx)
  {
    var tid :- DecodeId(ctx.traceId, 16, "invalid trace ID", "trace ID must be 16 bytes");
    var sid :- DecodeId(ctx.spanId, 8, "invalid span ID", "span id must be 8 bytes");
    var traceState: Go.GoTraceState := [];
    for i := 0 to |ctx.traceState|
      invariant InsertAll(traceState, ctx.traceState[i..]) == InsertAll([], ctx.traceState)
      invariant TraceState.Valid(ctx.traceState[..i])
    {
      var inserted := Go.Insert(traceState, ctx.traceState[i].0, ctx.traceState[i].1);
      if inserted.Abort? {
        assert !TraceState.Valid(ctx.traceState);
        return Abort(inserted.reason);
      }
      assert ctx.traceState[i..][1..] == ctx.traceState[i + 1..];
      assert ctx.traceState[..i + 1] == ctx.traceState[..i] + [ctx.traceState[i]];
      traceState := inserted.value;
    }
    assert ctx.traceState[..|ctx.traceState|] == ctx.traceState;
    r := Ok(Go.SpanContext(tid, sid, W.SAMPLED, traceState, ctx.isRemote));
  }

  /**
   * With the slice made empty, the host's span context reads back as the original one, except
   * that the flags become `sampled` and the trace state comes back in reverse order.
   */
  lemma SpanContextRoundTrip(sc: Go.SpanContext)
    ensures SpanContextOf(SpanContextToWasi(sc)).Ok?
    ensures SpanContextOf(SpanContextToWasi(sc)).value
         == Go.SpanContext(sc.traceId, sc.spanId, W.SAMPLED, SpanContextOf(SpanContextToWasi(sc)).value.traceState, sc.remote)
    ensures SpanContextOf(SpanContextToWasi(sc)).value.traceState == Reversed(sc.traceState)
  {
    Hex.DecodeEncodeBytes(sc.traceId);
    Hex.DecodeEncodeBytes(sc.spanId);
    InsertAllReverses([], sc.traceState);
    assert Reversed(sc.traceState) + [] == Reversed(sc.traceState);
  }

  /** The pre-sized slice as written: any non-empty trace state makes the host's copy unreadable. */
  lemma PaddedTraceStateRejected(sc: Go.SpanContext)
    requires |sc.traceState| > 0
    ensures SpanContextAsWritten(sc).traceState[0] == ("", "")
    ensures !TraceState.ValidMember(("", ""))
    ensures SpanContextOf(SpanContextAsWritten(sc)).Abort?
  {
    assert !TraceState.ValidMember(SpanContextAsWritten(sc).traceState[0]);
  }

  // ---- events, links and span data -------------------------------------------------------------

  /** `Event` of one span event: its name, time and attributes. */
  function EventToWasi(e: Go.Event, ft: J.FloatFormatter): (r: Outcome<W.Event<string>>)
    ensures r.Ok? <==> GoTypes.AllValid(e.attributes)
    ensures r.Ok? ==> r.value == W.Event(e.name, GoTypes.ToWasiTime(e.time), GoTypes.AttributesOf(e.attributes, ft).value)
  {
    var attrs :- GoTypes.AttributesOf(e.attributes, ft);
    Ok(W.Event(e.name, GoTypes.ToWasiTime(e.time), attrs))
  }

  /** `Link` of one span link: its span context, as written, and attributes. */
  function LinkToWasi(l: Go.Link, ft: J.FloatFormatter): (r: Outcome<W.Link<string>>)
    ensures r.Ok? <==> GoTypes.AllValid(l.attributes)
    ensures r.Ok? ==> r.value == W.Link(SpanContextAsWritten(l.spanContext), GoTypes.AttributesOf(l.attributes, ft).value)
  {
    var attrs :- GoTypes.AttributesOf(l.attributes, ft);
    Ok(W.Link(SpanContextAsWritten(l.spanContext), attrs))
  }

  predicate EventsValid(events: seq<Go.Event>)
  {
    forall i :: 0 <= i < |events| ==> GoTypes.AllValid(events[i].attributes)
  }

  predicate LinksValid(links: seq<Go.Link>)
  {
    forall i :: 0 <= i < |links| ==> GoTypes.AllValid(links[i].attributes)
  }

  /** The events converted one for one, in order. */
  function EventsOf(events: seq<Go.Event>, ft: J.FloatFormatter): (r: Outcome<seq<W.Event<string>>>)
    ensures r.Ok? <==> EventsValid(events)
    ensures r.Ok? ==> |r.value| == |events| && forall i :: 0 <= i < |events| ==> r.value[i] == EventToWasi(events[i], ft).value
  {
    Seqs.MapAll(events, e => EventToWasi(e, ft))
  }

  /** `toWasiEvents`: a slice of the input's length, element `i` written at index `i`. */
  method ToWasiEvents(events: seq<Go.Event>, ft: J.FloatFormatter) returns (r: Outcome<seq<W.Event<string>>>)
    ensures r.Ok? <==> EventsValid(events)
    ensures r.Ok? ==> r == EventsOf(events, ft)
  {
    var result := new W.Event<string>[|events|](_ => W.Event("", W.Datetime(0, 0), []));
    for i := 0 to |events|
      invariant forall k :: 0 <= k < i ==> GoTypes.AllValid(events[k].attributes)
      invariant forall k :: 0 <= k < i ==> result[k] == EventToWasi(events[k], ft).value
    {
      var e := EventToWasi(events[i], ft);
      if e.Abort? {
        return Abort(e.reason);
      }
      result[i] := e.value;
    }
    assert result[..] == EventsOf(events, ft).value;
    r := Ok(result[..]);
  }

  /** The links converted one for one, in order. */
  function LinksOf(links: seq<Go.Link>, ft: J.FloatFormatter): (r: Outcome<seq<W.Link<string>>>)
    ensures r.Ok? <==> LinksValid(links)
    ensures r.Ok? ==> |r.value| == |links| && forall i :: 0 <= i < |links| ==> r.value[i] == LinkToWasi(links[i], ft).value
  {
    Seqs.MapAll(links, l => LinkToWasi(l, ft))
  }

  /** `toWasiLinks`: a slice of the input's length, element `i` written at index `i`. */
  method ToWasiLinks(links: seq<Go.Link>, ft: J.FloatFormatter) returns (r: Outcome<seq<W.Link<string>>>)
    ensures r.Ok? <==> LinksValid(links)
    ensures r.Ok? ==> r == LinksOf(links, ft)
  {
    var result := new W.Link<string>[|links|](_ => W.Link(W.SpanContext("", "", 0, false, []), []));
    for i := 0 to |links|
      invariant forall k :: 0 <= k < i ==> GoTypes.AllValid(links[k].attributes)
      invariant forall k :: 0 <= k < i ==> result[k] == LinkToWasi(links[k], ft).value
    {
      var l := LinkToWasi(links[i], ft);
      if l.Abort? {
        return Abort(l.reason);
      }
      result[i] := l.value;
    }
    assert result[..] == LinksOf(links, ft).value;
    r := Ok(result[..]);
  }

  /** Every value a span conversion reads is convertible: a known kind and no `INVALID` attribute. */
  predicate Convertible(s: Go.ReadOnlySpan)
  {
    Go.SPAN_KIND_INTERNAL <= s.kind <= Go.SPAN_KIND_CONSUMER
    && GoTypes.AllValid(s.attributes) && EventsValid(s.events) && LinksValid(s.links)
    && GoTypes.AllValid(s.scope.attributes)
  }

  /**
   * `toWasiSpanData`: the span context as written, the parent's span id as 16 hex digits, the
   * kind, name, times, attributes, events, links, status and scope converted, and the three
   * dropped counters narrowed to `uint32`.
   */
  function SpanDataToWasi(s: Go.ReadOnlySpan, ft: J.FloatFormatter): (r: Outcome<W.SpanData<string>>)
    ensures r.Ok? <==> Convertible(s)
    ensures r.Ok? ==> r.value.spanContext == SpanContextAsWritten(s.spanContext)
    ensures r.Ok? ==> r.value.parentSpanId == Hex.EncodeBytes(s.parent.spanId) && |r.value.parentSpanId| == 16
    ensures r.Ok? ==> r.value.spanKind == SpanKindToWasi(s.kind).value && GoKindOf(r.value.spanKind) == s.kind
    ensures r.Ok? ==> r.value.name == s.name
    ensures r.Ok? ==> r.value.startTime == GoTypes.ToWasiTime(s.startTime) && r.value.endTime == GoTypes.ToWasiTime(s.endTime)
    ensures r.Ok? ==> r.value.attributes == GoTypes.AttributesOf(s.attributes, ft).value
    ensures r.Ok? ==> r.value.events == EventsOf(s.events, ft).value && r.value.links == LinksOf(s.links, ft).value
    ensures r.Ok? ==> r.value.status == StatusToWasi(s.status)
    ensures r.Ok? ==> r.value.instrumentationScope == GoTypes.ToWasiInstrumentationScope(s.scope, ft).value
    ensures r.Ok? ==> r.value.droppedAttributes == WrapU32(s.droppedAttributes)
    ensures r.Ok? ==> r.value.droppedEvents == WrapU32(s.droppedEvents)
    ensures r.Ok? ==> r.value.droppedLinks == WrapU32(s.droppedLinks)
  {
    var kind :- SpanKindToWasi(s.kind);
    SpanKindBijective(s.kind, kind);
    var attrs :- GoTypes.AttributesOf(s.attributes, ft);
    var events :- EventsOf(s.events, ft);
    var links :- LinksOf(s.links, ft);
    var scope :- GoTypes.ToWasiInstrumentationScope(s.scope, ft);
    Ok(W.SpanData(
      SpanContextAsWritten(s.spanContext), Hex.EncodeBytes(s.parent.spanId), kind, s.name,
      GoTypes.ToWasiTime(s.startTime), GoTypes.ToWasiTime(s.endTime), attrs, events, links,
      StatusToWasi(s.status), scope,
      WrapU32(s.droppedAttributes), WrapU32(s.droppedEvents), WrapU32(s.droppedLinks)))
  }

  /** Dropped counts below 2^32 cross unchanged; a larger count wraps. */
  lemma DroppedCounts(s: Go.ReadOnlySpan, ft: J.FloatFormatter)
    requires Convertible(s)
    requires 0 <= s.droppedAttributes < TWO_32 && 0 <= s.droppedEvents < TWO_32 && 0 <= s.droppedLinks < TWO_32
    ensures SpanDataToWasi(s, ft).value.droppedAttributes == s.droppedAttributes
    ensures SpanDataToWasi(s, ft).value.droppedEvents == s.droppedEvents
    ensures SpanDataToWasi(s, ft).value.droppedLinks == s.droppedLinks
  {
  }
}
