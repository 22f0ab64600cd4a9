/**
 * The values the Go OpenTelemetry packages (`go.opentelemetry.io/otel/...`) hand to the Go
 * conversions. Only the fields the conversions read are kept.
 */
module GoSdk {
  import opened Wrappers
  import opened Numbers
  import TraceState

  const NANOS_PER_SECOND: int := 1_000_000_000

  /** `time.Time{}`: January 1 of year 1, UTC, whose `Unix()` is this many seconds. */
  const ZERO_UNIX: int := -62_135_596_800

  type Nanosecond = n: int | 0 <= n < NANOS_PER_SECOND

  /** `time.Time` in UTC: `Unix()` and `Nanosecond()`. */
  datatype Time = Time(unix: I64, nanosecond: Nanosecond)
  {
    predicate IsZero()
    {
      unix == ZERO_UNIX && nanosecond == 0
    }

    /** `Second()`: the second within the minute, 0 to 59. */
    function Second(): (s: int)
      ensures 0 <= s < 60
    {
      unix % 60
    }
  }

  const ZERO_TIME: Time := Time(ZERO_UNIX, 0)

  /** `attribute.Value`; its kind is one of these nine, `INVALID` being the zero value's. */
  datatype Value =
    | Bool(b: bool)
    | Int64(i: I64)
    | Float64(f: F64Bits)
    | String(s: string)
    | BoolSlice(bools: seq<bool>)
    | Int64Slice(ints: seq<I64>)
    | Float64Slice(floats: seq<F64Bits>)
    | StringSlice(strings: seq<string>)
    | Invalid
  {
    /** `AsString()`: the string of a `STRING` value, empty for every other kind. */
    function AsString(): string
    {
      if String? then s else ""
    }
  }

  datatype KeyValue = KeyValue(key: string, value: Value)

  predicate DistinctKeys(ts: seq<TraceState.Member>)
  {
    forall i, j :: 0 <= i < j < |ts| ==> ts[i].0 != ts[j].0
  }

  const MAX_LIST_MEMBERS: nat := 32

  /** `trace.TraceState`: well-formed members, keys distinct, at most 32 of them. */
  type GoTraceState = ts: seq<TraceState.Member>
    | TraceState.Valid(ts) && DistinctKeys(ts) && |ts| <= MAX_LIST_MEMBERS
    witness []

  /** The members whose key is not `key`, in order. */
  function Without(ts: seq<TraceState.Member>, key: string): (r: seq<TraceState.Member>)
    ensures |r| <= |ts|
    ensures forall i :: 0 <= i < |r| ==> r[i].0 != key && r[i] in ts
    ensures (forall i :: 0 <= i < |ts| ==> ts[i].0 != key) ==> r == ts
  {
    if |ts| == 0 then []
    else if ts[0].0 == key then Without(ts[1..], key)
    else [ts[0]] + Without(ts[1..], key)
  }

  lemma {:induction false} WithoutKeeps(ts: seq<TraceState.Member>, key: string)
    requires TraceState.Valid(ts) && DistinctKeys(ts)
    ensures TraceState.Valid(Without(ts, key)) && DistinctKeys(Without(ts, key))
  {
    if |ts| > 0 {
      WithoutKeeps(ts[1..], key);
      var rest := Without(ts[1..], key);
      forall i | 0 <= i < |rest| ensures rest[i].0 != ts[0].0 {
        assert rest[i] in ts[1..];
      }
    }
  }

  /**
   * `TraceState.Insert`: a malformed member is refused; otherwise the member goes to the front,
   * replacing any member with its key, and a full list drops its last member.
   */
  function Insert(ts: GoTraceState, key: string, value: string): (r: Outcome<GoTraceState>)
    ensures r.Ok? <==> TraceState.ValidMember((key, value))
    ensures r.Ok? ==> |r.value| >= 1 && r.value[0] == (key, value)
    ensures r.Ok? && (forall i :: 0 <= i < |ts| ==> ts[i].0 != key) && |ts| < MAX_LIST_MEMBERS ==>
      r.value == [(key, value)] + ts
  {
    if !TraceState.ValidMember((key, value)) then Abort("invalid trace state entry")
    else
      var rest := Without(ts, key);
      WithoutKeeps(ts, key);
      var kept := if |rest| == MAX_LIST_MEMBERS then rest[..|rest| - 1] else rest;
      assert forall i :: 0 <= i < |kept| ==> kept[i] == rest[i];
      Ok([(key, value)] + kept)
  }

  type TraceId = s: seq<U8> | |s| == 16 witness seq(16, _ => 0)
  type SpanId = s: seq<U8> | |s| == 8 witness seq(8, _ => 0)

  datatype SpanContext = SpanContext(
    traceId: TraceId,
    spanId: SpanId,
    traceFlags: U8,
    traceState: GoTraceState,
    remote: bool)

  /** `trace.SpanKind`, an `int`: Unspecified 0, Internal 1, Server 2, Client 3, Producer 4, Consumer 5. */
  const SPAN_KIND_UNSPECIFIED: int := 0
  const SPAN_KIND_INTERNAL: int := 1
  const SPAN_KIND_SERVER: int := 2
  const SPAN_KIND_CLIENT: int := 3
  const SPAN_KIND_PRODUCER: int := 4
  const SPAN_KIND_CONSUMER: int := 5

  /** `codes.Code`: Unset 0, Error 1, Ok 2. */
  const CODE_UNSET: U32 := 0
  const CODE_ERROR: U32 := 1
  const CODE_OK: U32 := 2

  datatype Status = Status(code: U32, description: string)

  datatype Event = Event(name: string, time: Time, attributes: seq<KeyValue>)

  datatype Link = Link(spanContext: SpanContext, attributes: seq<KeyValue>)

  datatype Scope = Scope(name: string, version: string, schemaUrl: string, attributes: seq<KeyValue>)

  datatype Resource = Resource(attributes: seq<KeyValue>, schemaUrl: string)

  /** `trace.ReadOnlySpan`; the dropped counters are Go `int`s. */
  datatype ReadOnlySpan = ReadOnlySpan(
    spanContext: SpanContext,
    parent: SpanContext,
    kind: int,
    name: string,
    startTime: Time,
    endTime: Time,
    attributes: seq<KeyValue>,
    events: seq<Event>,
    links: seq<Link>,
    status: Status,
    scope: Scope,
    droppedAttributes: int,
    droppedEvents: int,
    droppedLinks: int)

  // ---- metricdata ------------------------------------------------------------------------

  datatype Exemplar<T> = Exemplar(
    filteredAttributes: seq<KeyValue>, time: Time, value: T, spanId: seq<U8>, traceId: seq<U8>)

  datatype DataPoint<T> = DataPoint(
    attributes: seq<KeyValue>, startTime: Time, time: Time, value: T, exemplars: seq<Exemplar<T>>)

  datatype HistogramDataPoint<T> = HistogramDataPoint(
    attributes: seq<KeyValue>,
    startTime: Time,
    time: Time,
    count: U64,
    bounds: seq<F64Bits>,
    bucketCounts: seq<U64>,
    min: Option<T>,
    max: Option<T>,
    sum: T,
    exemplars: seq<Exemplar<T>>)

  datatype ExponentialBucket = ExponentialBucket(offset: I32, counts: seq<U64>)

  datatype ExponentialHistogramDataPoint<T> = ExponentialHistogramDataPoint(
    attributes: seq<KeyValue>,
    startTime: Time,
    time: Time,
    count: U64,
    min: Option<T>,
    max: Option<T>,
    sum: T,
    scale: I32,
    zeroCount: U64,
    positiveBucket: ExponentialBucket,
    negativeBucket: ExponentialBucket,
    zeroThreshold: F64Bits,
    exemplars: seq<Exemplar<T>>)

  /** `metricdata.Temporality`; its zero value is the undefined temporality. */
  datatype Temporality = UndefinedTemporality | CumulativeTemporality | DeltaTemporality

  /** The aggregations of one number type `T` (`int64` or `float64`). */
  datatype AggregationOf<T> =
    | Gauge(points: seq<DataPoint<T>>)
    | Sum(points: seq<DataPoint<T>>, temporality: Temporality, isMonotonic: bool)
    | Histogram(histogramPoints: seq<HistogramDataPoint<T>>, temporality: Temporality)
    | ExponentialHistogram(exponentialPoints: seq<ExponentialHistogramDataPoint<T>>, temporality: Temporality)

  /** `metricdata.Aggregation`: the eight generic instances, `Summary`, or a type of another package. */
  datatype Aggregation =
    | Int64Aggregation(i: AggregationOf<I64>)
    | Float64Aggregation(f: AggregationOf<F64Bits>)
    | Summary
    | OtherAggregation

  datatype Metrics = Metrics(name: string, description: string, unit: string, data: Aggregation)

  datatype ScopeMetrics = ScopeMetrics(scope: Scope, metrics: seq<Metrics>)

  datatype ResourceMetrics = ResourceMetrics(resource: Option<Resource>, scopeMetrics: seq<ScopeMetrics>)

  // ---- logs ---------------------------------------------------------------------------------

  /** `log.Value`; a map lists its key-value pairs in order, keys not necessarily distinct. */
  datatype LogValue =
    | Empty
    | Bool(b: bool)
    | Float64(f: F64Bits)
    | Int64(i: I64)
    | String(s: string)
    | Bytes(bytes: seq<U8>)
    | Slice(items: seq<LogValue>)
    | Map(pairs: seq<(string, LogValue)>)

  /** `log.Severity`, an `int`; 0 is `SeverityUndefined`. */
  const SEVERITY_UNDEFINED: int := 0

  /** `sdk/log.Record`. */
  datatype Record = Record(
    timestamp: Time,
    observedTimestamp: Time,
    severity: int,
    severityText: string,
    body: LogValue,
    attributes: seq<(string, LogValue)>,
    eventName: string,
    resource: Option<Resource>,
    scope: Scope,
    traceId: TraceId,
    spanId: SpanId,
    traceFlags: U8)
}
