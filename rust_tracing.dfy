/**
 * Span conversions of the Rust guest: rust/src/tracing/conversion.rs and its copy
 * rust/crates/tracing/src/conversion.rs. The two files convert spans identically; the crate
 * copy also holds the attribute, time and scope conversions that RustTypes models.
 */
module RustTracing {
  import opened Wrappers
  import opened Numbers
  import opened Seqs
  import Hex
  import TraceState
  import Sdk = RustSdk
  import W = Schema
  import opened RustTypes

  // ---- trace flags (W3C Trace Context, section 3.2.2.5) ---------------------------------

  /** `From<TraceFlags> for TraceFlags`: `SAMPLED` when the sampled bit is set, else empty. */
  function TraceFlagsToWasi(f: U8): (r: U8)
    ensures r == W.SAMPLED || r == 0
    ensures W.IsSampled(r) <==> W.IsSampled(f)
  {
    if f % 2 == 1 then W.SAMPLED else 0
  }

  /**
   * The sampled bit survives the trip out and back (`TraceFlags::new(bits)` takes the bits as
   * they are) while every other bit is cleared; boundary flags the forward map can produce
   * come back unchanged.
   */
  lemma TraceFlagsRoundTrip(f: U8, b: U8)
    ensures TraceFlagsToWasi(f) == f % 2
    ensures b <= 1 ==> TraceFlagsToWasi(b) == b
  {
  }

  // ---- span context ---------------------------------------------------------------------

  /**
   * `From<SpanContext> for SpanContext`: ids as `{:x}` text, the sampled bit, and the trace
   * state header split on ',' with each piece split at its first '=' (pieces without one
   * dropped).
   */
  function SpanContextToWasi(sc: Sdk.SpanContext): (r: W.SpanContext)
    ensures r.traceId == Hex.LowerHex(sc.traceId) && r.spanId == Hex.LowerHex(sc.spanId)
    ensures r.traceState == sc.traceState
    ensures r.traceFlags == TraceFlagsToWasi(sc.traceFlags) && r.isRemote == sc.isRemote
  {
    TraceState.ValidSeparatorFree(sc.traceState);
    TraceState.HeaderRoundTrip(sc.traceState);
    W.SpanContext(
      Hex.LowerHex(sc.traceId),
      Hex.LowerHex(sc.spanId),
      TraceFlagsToWasi(sc.traceFlags),
      sc.isRemote,
      TraceState.PairsOf(Split(TraceState.Header(sc.traceState), ',')))
  }

  /** `TraceId::from_hex(..).unwrap_or(TraceId::INVALID)`. */
  function TraceIdFromHex(s: string): (id: U128)
    ensures Hex.ParseRadix16(s, TWO_128).Some? ==> id == Hex.ParseRadix16(s, TWO_128).value
    ensures Hex.ParseRadix16(s, TWO_128).None? ==> id == 0
  {
    match Hex.ParseRadix16(s, TWO_128)
    case Some(n) => n
    case None => 0
  }

  /** `SpanId::from_hex(..).unwrap_or(SpanId::INVALID)`. */
  function SpanIdFromHex(s: string): (id: U64)
    ensures Hex.ParseRadix16(s, TWO_64).Some? ==> id == Hex.ParseRadix16(s, TWO_64).value
    ensures Hex.ParseRadix16(s, TWO_64).None? ==> id == 0
  {
    match Hex.ParseRadix16(s, TWO_64)
    case Some(n) => n
    case None => 0
  }

  /**
   * `From<SpanContext> for opentelemetry::trace::SpanContext`: never fails. An id that does
   * not parse becomes INVALID (zero) and a trace state `from_key_value` rejects becomes the
   * empty default; flags and `is_remote` are copied.
   */
  function SpanContextFromWasi(w: W.SpanContext): (sc: Sdk.SpanContext)
    ensures TraceState.Valid(w.traceState) ==> sc.traceState == w.traceState
    ensures !TraceState.Valid(w.traceState) ==> sc.traceState == []
    ensures sc.traceFlags == w.traceFlags && sc.isRemote == w.isRemote
  {
    var ts: Sdk.SdkTraceState :=
      match TraceState.FromKeyValue(w.traceState)
      case Some(t) => t
      case None => [];
    Sdk.SpanContext(TraceIdFromHex(w.traceId), SpanIdFromHex(w.spanId), w.traceFlags, w.isRemote, ts)
  }

  /** Out and back: the same context, with only the sampled bit left of the flags. */
  lemma SpanContextRoundTrip(sc: Sdk.SpanContext)
    ensures SpanContextFromWasi(SpanContextToWasi(sc)) == sc.(traceFlags := sc.traceFlags % 2)
  {
    Hex.ParseLowerHex(sc.traceId, TWO_128);
    Hex.ParseLowerHex(sc.spanId, TWO_64);
  }

  /** Back and out: a boundary context in the form the forward map writes is reproduced. */
  lemma SpanContextFromWasiRoundTrip(w: W.SpanContext, traceId: nat, spanId: nat)
    requires traceId < TWO_128 && w.traceId == Hex.LowerHex(traceId)
    requires spanId < TWO_64 && w.spanId == Hex.LowerHex(spanId)
    requires w.traceFlags <= 1 && TraceState.Valid(w.traceState)
    ensures SpanContextToWasi(SpanContextFromWasi(w)) == w
  {
    var sc := SpanContextFromWasi(w);
    assert sc.traceId == traceId by {
      Hex.ParseLowerHex(traceId, TWO_128);
    }
    assert sc.spanId == spanId by {
      Hex.ParseLowerHex(spanId, TWO_64);
    }
    var r := SpanContextToWasi(sc);
    assert r.traceFlags == w.traceFlags by {
      TraceFlagsRoundTrip(w.traceFlags, w.traceFlags);
    }
    assert r.traceId == w.traceId && r.spanId == w.spanId;
    assert r.traceState == w.traceState && r.isRemote == w.isRemote;
  }

  /** The reverse map also reads zero-padded ids, such as those the Go guests write. */
  lemma SpanContextFromWasiPadded(w: W.SpanContext, traceId: nat, spanId: nat)
    requires traceId < TWO_128 && w.traceId == Hex.PaddedHex(traceId, 32)
    requires spanId < TWO_64 && w.spanId == Hex.PaddedHex(spanId, 16)
    ensures SpanContextFromWasi(w).traceId == traceId && SpanContextFromWasi(w).spanId == spanId
  {
    Hex.ParsePaddedHex(traceId, 32, TWO_128);
    Hex.ParsePaddedHex(spanId, 16, TWO_64);
  }

  /** A malformed trace state is replaced as a whole, not member by member. */
  lemma SpanContextFromWasiRejectsState(w: W.SpanContext, i: nat)
    requires i < |w.traceState| && !TraceState.ValidMember(w.traceState[i])
    ensures SpanContextFromWasi(w).traceState == []
  {
  }

  /** Text that is not hexadecimal gives the INVALID ids. */
  lemma SpanContextFromWasiInvalidIds(w: W.SpanContext)
    requires w.traceId == "" && w.spanId == "not-hex"
    ensures SpanContextFromWasi(w).traceId == 0 && SpanContextFromWasi(w).spanId == 0
  {
    assert Hex.DigitValue(w.spanId[0]).None?;
  }

  // ---- the evidently intended ids: W3C Trace Context section 3.2.2.3 and 3.2.2.4 ---------

  /**
   * The span context with ids in the fixed-width form of W3C Trace Context (32 and 16
   * lower-case hex digits), as the parent span id of the same record already is.
   */
  function SpanContextToWasiPadded(sc: Sdk.SpanContext): (r: W.SpanContext)
    ensures |r.traceId| == 32 && |r.spanId| == 16
    ensures SpanContextFromWasi(r) == sc.(traceFlags := sc.traceFlags % 2)
  {
    Hex.Pow16Widths();
    Hex.LowerHexFits(sc.traceId, 32);
    Hex.LowerHexFits(sc.spanId, 16);
    SpanContextFromWasiPadded(SpanContextToWasi(sc).(traceId := Hex.PaddedHex(sc.traceId, 32), spanId := Hex.PaddedHex(sc.spanId, 16)), sc.traceId, sc.spanId);
    SpanContextToWasi(sc).(traceId := Hex.PaddedHex(sc.traceId, 32), spanId := Hex.PaddedHex(sc.spanId, 16))
  }

  /** As written, the all-zero trace id and the span id of eight 0x01 bytes lose their width. */
  lemma UnpaddedIds(sc: Sdk.SpanContext)
    requires sc.traceId == 0 && sc.spanId == 0x0101_0101_0101_0101
    ensures SpanContextToWasi(sc).traceId == "0"
    ensures SpanContextToWasi(sc).spanId == "101010101010101"
    ensures |SpanContextToWasi(sc).traceId| != 32 && |SpanContextToWasi(sc).spanId| != 16
  {
    OnesSpanIdText();
  }

  lemma OnesSpanIdText()
    ensures Hex.LowerHex(0x0101_0101_0101_0101) == "101010101010101"
  {
    assert Hex.HexDigit(0) == '0' && Hex.HexDigit(1) == '1';
    assert Hex.LowerHex(0x1) == "1";
    Hex.AppendByte(0x1, 1, "1");
    Hex.AppendByte(0x101, 1, "101");
    Hex.AppendByte(0x10101, 1, "10101");
    Hex.AppendByte(0x1010101, 1, "1010101");
    Hex.AppendByte(0x101010101, 1, "101010101");
    Hex.AppendByte(0x10101010101, 1, "10101010101");
    Hex.AppendByte(0x1010101010101, 1, "1010101010101");
  }

  // ---- enums ----------------------------------------------------------------------------

  function SpanKindToWasi(k: Sdk.SpanKind): W.SpanKind
  {
    match k
    case Client => W.Client
    case Server => W.Server
    case Producer => W.Producer
    case Consumer => W.Consumer
    case Internal => W.Internal
  }

  function SpanKindFromWasi(k: W.SpanKind): Sdk.SpanKind
  {
    match k
    case Client => Sdk.Client
    case Server => Sdk.Server
    case Producer => Sdk.Producer
    case Consumer => Sdk.Consumer
    case Internal => Sdk.Internal
  }

  /** The span kind map is a bijection between the five kinds. */
  lemma SpanKindBijective(k: Sdk.SpanKind, w: W.SpanKind)
    ensures SpanKindFromWasi(SpanKindToWasi(k)) == k
    ensures SpanKindToWasi(SpanKindFromWasi(w)) == w
  {
  }

  function StatusToWasi(s: Sdk.Status): W.Status
  {
    match s
    case Unset => W.StatusUnset
    case Error(d) => W.StatusError(d)
    case Ok => W.StatusOk
  }

  function StatusFromWasi(s: W.Status): Sdk.Status
  {
    match s
    case StatusUnset => Sdk.Unset
    case StatusError(d) => Sdk.Status.Error(d)
    case StatusOk => Sdk.Status.Ok
  }

  /** The status map is a bijection that keeps an error's description. */
  lemma StatusBijective(s: Sdk.Status, w: W.Status)
    ensures StatusFromWasi(StatusToWasi(s)) == s
    ensures StatusToWasi(StatusFromWasi(w)) == w
    ensures s.Error? <==> StatusToWasi(s).StatusError?
    ensures s.Error? ==> StatusToWasi(s).description == s.description
  {
  }

  // ---- events, links, scope, span data -----------------------------------------------------

  predicate EventConvertible(e: Sdk.Event)
  {
    e.timestamp >= 0 && AllSupported(e.attributes)
  }

  /** `From<Event>`: name, time and attributes; aborts where the time or attribute map does. */
  function EventToWasi(e: Sdk.Event): (r: Outcome<W.Event<W.Value>>)
    ensures r.Ok? <==> EventConvertible(e)
    ensures r.Ok? ==> r.value.name == e.name && Instant(r.value.time) == e.timestamp
    ensures r.Ok? ==> r.value.attributes == AttributesToWasi(e.attributes).value
  {
    var time :- DatetimeOf(e.timestamp);
    var attributes :- AttributesToWasi(e.attributes);
    Ok(W.Event(e.name, time, attributes))
  }

  /** `From<Link>`: the converted span context and attributes. */
  function LinkToWasi(l: Sdk.Link): (r: Outcome<W.Link<W.Value>>)
    ensures r.Ok? <==> AllSupported(l.attributes)
    ensures r.Ok? ==> r.value.spanContext == SpanContextToWasi(l.spanContext)
    ensures r.Ok? ==> r.value.attributes == AttributesToWasi(l.attributes).value
  {
    var attributes :- AttributesToWasi(l.attributes);
    Ok(W.Link(SpanContextToWasi(l.spanContext), attributes))
  }

  /**
   * `From<InstrumentationScope>` (rust/crates/tracing/src/conversion.rs): name copied, version
   * and schema URL kept `Some`/`None`, attributes mapped in order.
   */
  function ScopeToWasi(s: Sdk.InstrumentationScope): (r: Outcome<W.InstrumentationScope<W.Value>>)
    ensures r.Ok? <==> AllSupported(s.attributes)
    ensures r.Ok? ==> r.value.name == s.name && r.value.version == s.version && r.value.schemaUrl == s.schemaUrl
    ensures r.Ok? ==> r.value.attributes == AttributesToWasi(s.attributes).value
  {
    var attributes :- AttributesToWasi(s.attributes);
    Ok(W.InstrumentationScope(s.name, s.version, s.schemaUrl, attributes))
  }

  /** `SpanId`'s `Display`: sixteen lower-case hex digits, zero-padded. */
  function ParentSpanIdText(p: U64): (r: string)
    ensures |r| == 16
    ensures Hex.ParseRadix16(r, TWO_64) == Some(p)
  {
    Hex.Pow16Widths();
    Hex.LowerHexFits(p, 16);
    Hex.ParsePaddedHex(p, 16, TWO_64);
    Hex.PaddedHex(p, 16)
  }

  /** Everything a span carries converts without a panic. */
  predicate Convertible(sd: Sdk.SpanData)
  {
    && sd.startTime >= 0 && sd.endTime >= 0
    && AllSupported(sd.attributes)
    && (forall i :: 0 <= i < |sd.events| ==> EventConvertible(sd.events[i]))
    && (forall i :: 0 <= i < |sd.links| ==> AllSupported(sd.links[i].attributes))
    && AllSupported(sd.instrumentationScope.attributes)
  }

  /**
   * `From<SpanData> for SpanData`, fields in declaration order. The dropped counters come from
   * three separate sources: the span's attribute counter, the event list's and the link list's.
   */
  function SpanDataToWasi(sd: Sdk.SpanData): (r: Outcome<W.SpanData<W.Value>>)
    ensures r.Ok? <==> Convertible(sd)
  {
    var startTime :- DatetimeOf(sd.startTime);
    var endTime :- DatetimeOf(sd.endTime);
    var attributes :- AttributesToWasi(sd.attributes);
    var events :- MapAll(sd.events, EventToWasi);
    var links :- MapAll(sd.links, LinkToWasi);
    var scope :- ScopeToWasi(sd.instrumentationScope);
    Ok(W.SpanData(
      SpanContextToWasi(sd.spanContext),
      ParentSpanIdText(sd.parentSpanId),
      SpanKindToWasi(sd.spanKind),
      sd.name,
      startTime,
      endTime,
      attributes,
      events,
      links,
      StatusToWasi(sd.status),
      scope,
      sd.droppedAttributesCount,
      sd.eventsDroppedCount,
      sd.linksDroppedCount))
  }

  /** A converted span keeps its name and carries the mapped kind and status. */
  lemma SpanDataHeader(sd: Sdk.SpanData, r: W.SpanData<W.Value>)
    requires SpanDataToWasi(sd) == Ok(r)
    ensures r.spanKind == SpanKindToWasi(sd.spanKind) && r.status == StatusToWasi(sd.status)
    ensures r.name == sd.name
  {
  }

  /** The three dropped counters come from three separate sources. */
  lemma SpanDataDropped(sd: Sdk.SpanData, r: W.SpanData<W.Value>)
    requires SpanDataToWasi(sd) == Ok(r)
    ensures r.droppedAttributes == sd.droppedAttributesCount
    ensures r.droppedEvents == sd.eventsDroppedCount
    ensures r.droppedLinks == sd.linksDroppedCount
  {
  }

  /** The span's own context is converted like any other. */
  lemma SpanDataContext(sd: Sdk.SpanData, r: W.SpanData<W.Value>)
    requires SpanDataToWasi(sd) == Ok(r)
    ensures r.spanContext == SpanContextToWasi(sd.spanContext)
  {
  }

  /** The parent span id is sixteen digits that read back as the parent. */
  lemma SpanDataParent(sd: Sdk.SpanData, r: W.SpanData<W.Value>)
    requires SpanDataToWasi(sd) == Ok(r)
    ensures r.parentSpanId == ParentSpanIdText(sd.parentSpanId)
    ensures |r.parentSpanId| == 16 && Hex.ParseRadix16(r.parentSpanId, TWO_64) == Some(sd.parentSpanId)
  {
  }

  /** The start and end times denote the span's instants; attributes and scope are converted. */
  lemma SpanDataTimes(sd: Sdk.SpanData, r: W.SpanData<W.Value>)
    requires SpanDataToWasi(sd) == Ok(r)
    ensures Instant(r.startTime) == sd.startTime && Instant(r.endTime) == sd.endTime
    ensures r.attributes == AttributesToWasi(sd.attributes).value
    ensures r.instrumentationScope == ScopeToWasi(sd.instrumentationScope).value
  {
  }

  /** Events and links are converted element by element, count and order kept. */
  lemma SpanDataLists(sd: Sdk.SpanData, r: W.SpanData<W.Value>)
    requires SpanDataToWasi(sd) == Ok(r)
    ensures |r.events| == |sd.events|
    ensures forall i :: 0 <= i < |sd.events| ==> r.events[i] == EventToWasi(sd.events[i]).value
    ensures |r.links| == |sd.links|
    ensures forall i :: 0 <= i < |sd.links| ==> r.links[i] == LinkToWasi(sd.links[i]).value
  {
  }

  /** A span whose start time is before the epoch aborts with the `expect` message. */
  lemma SpanDataBeforeEpoch(sd: Sdk.SpanData)
    requires sd.startTime < 0
    ensures SpanDataToWasi(sd) == Abort("SystemTime should be after UNIX EPOCH")
  {
  }

  lemma TwosText(p: nat)
    requires p == 0x0202_0202_0202_0202
    ensures Hex.LowerHex(p) == "202020202020202"
  {
    assert Hex.HexDigit(0) == '0' && Hex.HexDigit(2) == '2';
    assert Hex.LowerHex(0x2) == "2";
    Hex.AppendByte(0x2, 2, "2");
    Hex.AppendByte(0x202, 2, "202");
    Hex.AppendByte(0x20202, 2, "20202");
    Hex.AppendByte(0x2020202, 2, "2020202");
    Hex.AppendByte(0x202020202, 2, "202020202");
    Hex.AppendByte(0x20202020202, 2, "20202020202");
    Hex.AppendByte(0x2020202020202, 2, "2020202020202");
    assert 256 * 0x2020202020202 + 2 == p;
  }

  /** The parent span id of the unit test keeps its leading zero. */
  lemma ParentSpanIdTwos(p: U64, s: string)
    requires Hex.LowerHex(p) == s && s == "202020202020202"
    ensures ParentSpanIdText(p) == "0202020202020202"
  {
    PadFifteen(p, s);
    ZeroThenTwos();
  }

  lemma ZeroThenTwos()
    ensures "0" + "202020202020202" == "0202020202020202"
  {
  }

  lemma PadFifteen(n: nat, s: string)
    requires Hex.LowerHex(n) == s && |s| == 15
    ensures Hex.PaddedHex(n, 16) == "0" + s
  {
    assert Hex.Zeros(1) == "0";
  }

  /** The span built by the unit test at the end of rust/src/tracing/conversion.rs. */
  predicate TestSpan(sd: Sdk.SpanData)
  {
    && sd.attributes == [Sdk.KeyValue("foo", Sdk.Value.String("bar"))]
    && sd.droppedAttributesCount == 6
    && sd.endTime == 1234567890 * Sdk.NANOS_PER_SECOND
    && sd.startTime == 9876543210 * Sdk.NANOS_PER_SECOND
    && sd.events == [] && sd.links == []
    && sd.instrumentationScope == Sdk.InstrumentationScope("tst-scp", None, None, [])
    && sd.name == "test-name" && sd.parentSpanId == 0x0202_0202_0202_0202
    && sd.spanContext == Sdk.SpanContext(0, 0x0101_0101_0101_0101, 1, true, [])
    && sd.spanKind == Sdk.Internal && sd.status == Sdk.Status.Ok
  }

  /** The unit test's span converts, with the name, kind, status, counters and attributes it asserts. */
  lemma TestSpanConverts(sd: Sdk.SpanData)
    requires TestSpan(sd)
    ensures SpanDataToWasi(sd).Ok?
    ensures SpanDataToWasi(sd).value.droppedAttributes == 6
    ensures SpanDataToWasi(sd).value.name == "test-name"
    ensures SpanDataToWasi(sd).value.spanKind == W.Internal
    ensures SpanDataToWasi(sd).value.status == W.StatusOk
  {
    assert Convertible(sd) by {
      assert Supported(sd.attributes[0].value);
      assert AllSupported(sd.attributes);
      assert AllSupported(sd.instrumentationScope.attributes);
    }
    var r := SpanDataToWasi(sd).value;
    SpanDataHeader(sd, r);
    SpanDataDropped(sd, r);
  }

  /** The unit test's single attribute arrives as the string value it asserts; so does the scope name. */
  lemma TestSpanAttributes(sd: Sdk.SpanData)
    requires TestSpan(sd) && SpanDataToWasi(sd).Ok?
    ensures SpanDataToWasi(sd).value.attributes == [W.KeyValue("foo", W.String("bar"))]
    ensures SpanDataToWasi(sd).value.instrumentationScope.name == "tst-scp"
  {
    var r := SpanDataToWasi(sd).value;
    SpanDataTimes(sd, r);
  }

  /** The unit test's ids: "0" and "101010101010101" unpadded, the parent "0202020202020202". */
  lemma TestSpanIds(sd: Sdk.SpanData)
    requires TestSpan(sd) && SpanDataToWasi(sd).Ok?
    ensures SpanDataToWasi(sd).value.spanContext.traceId == "0"
    ensures SpanDataToWasi(sd).value.spanContext.spanId == "101010101010101"
    ensures SpanDataToWasi(sd).value.spanContext.traceFlags == W.SAMPLED
    ensures SpanDataToWasi(sd).value.spanContext.isRemote
    ensures SpanDataToWasi(sd).value.parentSpanId == "0202020202020202"
  {
    var r := SpanDataToWasi(sd).value;
    SpanDataContext(sd, r);
    SpanDataParent(sd, r);
    UnpaddedIds(sd.spanContext);
    TwosText(sd.parentSpanId);
    ParentSpanIdTwos(sd.parentSpanId, "202020202020202");
  }

  /** The unit test's times: 9876543210 and 1234567890 whole seconds. */
  lemma TestSpanTimes(sd: Sdk.SpanData)
    requires TestSpan(sd) && SpanDataToWasi(sd).Ok?
    ensures SpanDataToWasi(sd).value.startTime.seconds == 9876543210
    ensures SpanDataToWasi(sd).value.endTime.seconds == 1234567890
  {
    var r := SpanDataToWasi(sd).value;
    SpanDataTimes(sd, r);
    DatetimeRoundTrip(W.Datetime(1234567890, 0));
    DatetimeRoundTrip(W.Datetime(9876543210, 0));
  }
}
