/**
 * The conversions of the Go `wasip2` guest (go/wasip2/conversion.go), which talks to the older
 * WIT revision with tagged attribute values through `go.bytecodealliance.org/cm` lists.
 *
 * A `cm.List` is a pointer and a length. `cm.NewList(&x, n)` points at the single value `x`
 * while claiming `n` elements; the host reads `n` elements from there. A list is modelled as
 * its backing values and its claimed length, and the host's reading of it is defined only
 * when the length does not exceed the backing.
 */
module GoWasip2Conversion {
  import opened Wrappers
  import opened Numbers
  import Seqs
  import TraceState
  import Hex
  import Go = GoSdk
  import GoTypes
  import GoTracing
  import W = Schema

  const LIST_OVERRUN: string := "list length exceeds its backing array"

  /** `cm.List[T]`: what the pointer reaches, and the length the list claims. */
  datatype CmList<T> = CmList(backing: seq<T>, len: nat)

  function EmptyList<T>(): (r: CmList<T>)
    ensures Elements(r) == Ok([])
  {
    CmList([], 0)
  }

  /** The elements the host reads from a list; reading past the backing is undefined. */
  function Elements<T>(l: CmList<T>): (r: Outcome<seq<T>>)
    ensures r.Ok? <==> l.len <= |l.backing|
    ensures r.Ok? ==> |r.value| == l.len && forall i :: 0 <= i < l.len ==> r.value[i] == l.backing[i]
    ensures r.Abort? ==> r.reason == LIST_OVERRUN
  {
    if l.len <= |l.backing| then Ok(l.backing[..l.len]) else Abort(LIST_OVERRUN)
  }

  // ---- list builders ----------------------------------------------------------------------------

  /**
   * The builders as written: each iteration replaces the list with one pointing at the current
   * element alone but claiming the input's length, so only the last element is backed.
   */
  function LastOnlyList<A, B>(input: seq<A>, f: A -> B): (r: CmList<B>)
    ensures r.len == |input|
    ensures |input| > 0 ==> r.backing == [f(input[|input| - 1])]
    ensures Elements(r).Ok? <==> |input| <= 1
    ensures |input| <= 1 ==> Elements(r) == Ok(Seqs.Map(input, f))
  {
    if |input| == 0 then CmList([], 0)
    else
      var r := CmList([f(input[|input| - 1])], |input|);
      assert |input| == 1 ==> Elements(r).value == Seqs.Map(input, f);
      r
  }

  /** `toWasiAttributes`, `toWasiEvents`, `toWasiLinks`: the loop that rebuilds `result` per element. */
  method BuildList<A, B>(input: seq<A>, f: A -> B) returns (result: CmList<B>)
    ensures result == LastOnlyList(input, f)
  {
    result := CmList([], 0);
    for i := 0 to |input|
      invariant i == 0 ==> result == CmList([], 0)
      invariant i > 0 ==> result == CmList([f(input[i - 1])], |input|)
    {
      result := CmList([f(input[i])], |input|);
    }
  }

  /** A list of every converted element, as the builders evidently intend. */
  function FullList<A, B>(input: seq<A>, f: A -> B): (r: CmList<B>)
    ensures Elements(r) == Ok(Seqs.Map(input, f))
  {
    var m := Seqs.Map(input, f);
    assert m[..|input|] == m;
    CmList(m, |input|)
  }

  /** Two or more elements make the host read past the single backed element. */
  lemma LastOnlyOverruns<A, B>(input: seq<A>, f: A -> B)
    requires |input| >= 2
    ensures Elements(LastOnlyList(input, f)) == Abort(LIST_OVERRUN)
    ensures Elements(FullList(input, f)).Ok?
  {
  }

  /**
   * `toWasiTraceState` as written: each member replaces the list with one pointing at that
   * member and claiming two elements, so a non-empty trace state is never readable.
   */
  function TraceStateList(ts: seq<TraceState.Member>): (r: CmList<(string, string)>)
    ensures Elements(r).Ok? <==> |ts| == 0
    ensures |ts| == 0 ==> Elements(r) == Ok([])
    ensures |ts| > 0 ==> r.backing == [ts[|ts| - 1]] && r.len == 2
  {
    if |ts| == 0 then CmList([], 0) else CmList([ts[|ts| - 1]], 2)
  }

  /** `toWasiTraceState`: the `Walk` callback rebuilds the list for every member. */
  method ToWasiTraceState(ts: seq<TraceState.Member>) returns (result: CmList<(string, string)>)
    ensures result == TraceStateList(ts)
  {
    result := CmList([], 0);
    for i := 0 to |ts|
      invariant result == TraceStateList(ts[..i])
    {
      result := CmList([ts[i]], 2);
    }
    assert ts[..|ts|] == ts;
  }

  /** The trace state with every member, in `Walk` order. */
  function TraceStateFull(ts: seq<TraceState.Member>): (r: CmList<(string, string)>)
    ensures Elements(r) == Ok(ts)
  {
    assert ts[..|ts|] == ts;
    CmList(ts, |ts|)
  }

  // ---- values, times, status, options -----------------------------------------------------------

  /** `toWasiValue`: the eight known kinds keep their tag; anything else is `String(AsString())`. */
  function ValueToWasi(v: Go.Value): (r: W.Value)
    ensures v.Invalid? ==> r == W.String("")
  {
    match v
    case String(s) => W.String(s)
    case Bool(b) => W.Bool(b)
    case Float64(f) => W.F64(f)
    case Int64(i) => W.S64(i)
    case StringSlice(ss) => W.StringArray(ss)
    case BoolSlice(bs) => W.BoolArray(bs)
    case Float64Slice(fs) => W.F64Array(fs)
    case Int64Slice(ns) => W.S64Array(ns)
    case Invalid => W.String(v.AsString())
  }

  /** The Go value a host value stands for. */
  function ValueOfWasi(w: W.Value): Go.Value
  {
    match w
    case String(s) => Go.Value.String(s)
    case Bool(b) => Go.Value.Bool(b)
    case F64(f) => Go.Value.Float64(f)
    case S64(i) => Go.Value.Int64(i)
    case StringArray(ss) => Go.StringSlice(ss)
    case BoolArray(bs) => Go.BoolSlice(bs)
    case F64Array(fs) => Go.Float64Slice(fs)
    case S64Array(ns) => Go.Int64Slice(ns)
  }

  /** The value map is one for one on the eight kinds, and every host value is reached. */
  lemma ValueRoundTrip(v: Go.Value, w: W.Value)
    ensures !v.Invalid? ==> ValueOfWasi(ValueToWasi(v)) == v
    ensures ValueToWasi(ValueOfWasi(w)) == w
  {
  }

  function KeyValueToWasi(kv: Go.KeyValue): (r: W.KeyValue<W.Value>)
    ensures r.key == kv.key && r.value == ValueToWasi(kv.value)
  {
    W.KeyValue(kv.key, ValueToWasi(kv.value))
  }

  /**
   * `toWasiDateTime` as written: `Second()` is the second within the minute, not the seconds
   * since the epoch.
   */
  function DateTimeToWasi(t: Go.Time): (r: W.Datetime)
    ensures r.seconds < 60 && r.seconds == t.unix % 60
    ensures r.nanoseconds == t.nanosecond
  {
    W.Datetime(t.Second(), t.nanosecond)
  }

  /** Times a whole minute apart cross the boundary as the same datetime; the epoch split tells them apart. */
  lemma DateTimeLosesMinutes()
    ensures DateTimeToWasi(Go.Time(0, 0)) == DateTimeToWasi(Go.Time(60, 0))
    ensures GoTypes.ToWasiTime(Go.Time(0, 0)) != GoTypes.ToWasiTime(Go.Time(60, 0))
  {
  }

  /** `toWasiStatus`: `Error` carries its description, `Ok` is OK, anything else is unset. */
  function StatusToWasi(s: Go.Status): (r: W.Status)
    ensures r.StatusError? <==> s.code == Go.CODE_ERROR
    ensures r.StatusOk? <==> s.code == Go.CODE_OK
    ensures r.StatusError? ==> r.description == s.description
  {
    if s.code == Go.CODE_ERROR then W.StatusError(s.description)
    else if s.code == Go.CODE_OK then W.StatusOk
    else W.StatusUnset
  }

  /** The switch without an `Unset` case agrees with the one that has it, on every code. */
  lemma StatusAgrees(s: Go.Status)
    ensures StatusToWasi(s) == GoTracing.StatusToWasi(s)
  {
  }

  /** `getOption`: none exactly for the type's zero value. */
  function GetOption<T(==)>(v: T, zero: T): (r: Option<T>)
    ensures r.None? <==> v == zero
    ensures r.Some? ==> r.value == v
  {
    if v == zero then None else Some(v)
  }

  /** On strings `getOption` and the `0.2.0-draft` guest's `ToWasiOptStr` are the same map. */
  lemma GetOptionString(s: string)
    ensures GetOption(s, "") == GoTypes.ToWasiOptStr(s)
  {
  }

  // ---- records ----------------------------------------------------------------------------------

  /** The records of this WIT revision as the guest builds them, lists unread. */
  datatype SpanContext = SpanContext(
    traceId: string, spanId: string, traceFlags: U8, isRemote: bool, traceState: CmList<(string, string)>)

  datatype Event = Event(name: string, time: W.Datetime, attributes: CmList<W.KeyValue<W.Value>>)

  datatype Link = Link(spanContext: SpanContext, attributes: CmList<W.KeyValue<W.Value>>)

  datatype Scope = Scope(
    name: string, version: Option<string>, schemaUrl: Option<string>, attributes: CmList<W.KeyValue<W.Value>>)

  /** `span-data`, with the span kind as the raw `uint8` discriminant the guest writes. */
  datatype SpanData = SpanData(
    spanContext: SpanContext,
    parentSpanId: string,
    spanKind: U8,
    name: string,
    startTime: W.Datetime,
    endTime: W.Datetime,
    attributes: CmList<W.KeyValue<W.Value>>,
    events: CmList<Event>,
    links: CmList<Link>,
    status: W.Status,
    scope: Scope,
    droppedAttributes: U32,
    droppedEvents: U32,
    droppedLinks: U32)

  /** The attribute list as written. */
  function AttributesList(attrs: seq<Go.KeyValue>): (r: CmList<W.KeyValue<W.Value>>)
    ensures r == LastOnlyList(attrs, KeyValueToWasi)
    ensures Elements(r).Ok? <==> |attrs| <= 1
  {
    LastOnlyList(attrs, KeyValueToWasi)
  }

  /** `toWasiSpanContext`: hex ids, the flags copied, the trace state as written. */
  function SpanContextToWasi(sc: Go.SpanContext): (r: SpanContext)
    ensures r.traceId == Hex.EncodeBytes(sc.traceId) && r.spanId == Hex.EncodeBytes(sc.spanId)
    ensures r.traceFlags == sc.traceFlags && r.isRemote == sc.remote
    ensures r.traceState == TraceStateList(sc.traceState)
  {
    SpanContext(Hex.EncodeBytes(sc.traceId), Hex.EncodeBytes(sc.spanId), sc.traceFlags, sc.remote, TraceStateList(sc.traceState))
  }

  function EventToWasi(e: Go.Event): (r: Event)
    ensures r.name == e.name && r.time == DateTimeToWasi(e.time) && r.attributes == AttributesList(e.attributes)
  {
    Event(e.name, DateTimeToWasi(e.time), AttributesList(e.attributes))
  }

  function LinkToWasi(l: Go.Link): (r: Link)
    ensures r.spanContext == SpanContextToWasi(l.spanContext) && r.attributes == AttributesList(l.attributes)
  {
    Link(SpanContextToWasi(l.spanContext), AttributesList(l.attributes))
  }

  /** `toWasiInstrumentationScope`: the name, version and schema URL unless empty, the attributes. */
  function ScopeToWasi(s: Go.Scope): (r: Scope)
    ensures r.name == s.name
    ensures r.version == GoTypes.ToWasiOptStr(s.version) && r.schemaUrl == GoTypes.ToWasiOptStr(s.schemaUrl)
    ensures r.attributes == AttributesList(s.attributes)
  {
    Scope(s.name, GetOption(s.version, ""), GetOption(s.schemaUrl, ""), AttributesList(s.attributes))
  }

  // ---- what the host reads ----------------------------------------------------------------------

  function ReadSpanContext(sc: SpanContext): (r: Outcome<W.SpanContext>)
    ensures r.Ok? <==> Elements(sc.traceState).Ok?
    ensures r.Ok? ==> r.value == W.SpanContext(sc.traceId, sc.spanId, sc.traceFlags, sc.isRemote, Elements(sc.traceState).value)
  {
    var ts :- Elements(sc.traceState);
    Ok(W.SpanContext(sc.traceId, sc.spanId, sc.traceFlags, sc.isRemote, ts))
  }

  function ReadEvent(e: Event): (r: Outcome<W.Event<W.Value>>)
    ensures r.Ok? <==> Elements(e.attributes).Ok?
    ensures r.Ok? ==> r.value == W.Event(e.name, e.time, Elements(e.attributes).value)
  {
    var attrs :- Elements(e.attributes);
    Ok(W.Event(e.name, e.time, attrs))
  }

  function ReadLink(l: Link): (r: Outcome<W.Link<W.Value>>)
    ensures r.Ok? <==> ReadSpanContext(l.spanContext).Ok? && Elements(l.attributes).Ok?
    ensures r.Ok? ==> r.value == W.Link(ReadSpanContext(l.spanContext).value, Elements(l.attributes).value)
  {
    var sc :- ReadSpanContext(l.spanContext);
    var attrs :- Elements(l.attributes);
    Ok(W.Link(sc, attrs))
  }

  function ReadScope(s: Scope): (r: Outcome<W.InstrumentationScope<W.Value>>)
    ensures r.Ok? <==> Elements(s.attributes).Ok?
    ensures r.Ok? ==> r.value == W.InstrumentationScope(s.name, s.version, s.schemaUrl, Elements(s.attributes).value)
  {
    var attrs :- Elements(s.attributes);
    Ok(W.InstrumentationScope(s.name, s.version, s.schemaUrl, attrs))
  }

  /** The span data the host reads: every list within its backing and a defined span-kind discriminant. */
  function ReadSpanData(d: SpanData): (r: Outcome<W.SpanData<W.Value>>)
    ensures r.Ok? ==> W.SpanKindOfTag(d.spanKind) == Some(r.value.spanKind)
    ensures r.Ok? ==> r.value.name == d.name && r.value.parentSpanId == d.parentSpanId
    ensures r.Ok? ==> r.value.startTime == d.startTime && r.value.endTime == d.endTime
    ensures r.Ok? ==> r.value.status == d.status
    ensures r.Ok? ==> r.value.droppedAttributes == d.droppedAttributes
    ensures r.Ok? ==> r.value.droppedEvents == d.droppedEvents && r.value.droppedLinks == d.droppedLinks
    ensures r.Ok? <==>
      ReadSpanContext(d.spanContext).Ok? && W.SpanKindOfTag(d.spanKind).Some? && Elements(d.attributes).Ok?
      && Elements(d.events).Ok? && (forall i :: 0 <= i < |Elements(d.events).value| ==> ReadEvent(Elements(d.events).value[i]).Ok?)
      && Elements(d.links).Ok? && (forall i :: 0 <= i < |Elements(d.links).value| ==> ReadLink(Elements(d.links).value[i]).Ok?)
      && ReadScope(d.scope).Ok?
  {
    var sc :- ReadSpanContext(d.spanContext);
    var kind :- (match W.SpanKindOfTag(d.spanKind) case Some(k) => Ok(k) case None => Abort("invalid span-kind discriminant"));
    var attrs :- Elements(d.attributes);
    var evs :- Elements(d.events);
    var events :- Seqs.MapAll(evs, ReadEvent);
    var ls :- Elements(d.links);
    var links :- Seqs.MapAll(ls, ReadLink);
    var scope :- ReadScope(d.scope);
    Ok(W.SpanData(sc, d.parentSpanId, kind, d.name, d.startTime, d.endTime, attrs, events, links,
                  d.status, scope, d.droppedAttributes, d.droppedEvents, d.droppedLinks))
  }
}
