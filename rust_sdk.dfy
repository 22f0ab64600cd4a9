/**
 * The values the Rust `opentelemetry` and `opentelemetry_sdk` crates hand to the conversions.
 * Only the fields the conversions read are kept. Enums the crates mark non-exhaustive carry an
 * extra variant standing for every variant the conversions do not name.
 */
module RustSdk {
  import opened Wrappers
  import opened Numbers
  import TraceState

  const NANOS_PER_SECOND: int := 1_000_000_000

  /**
   * `std::time::SystemTime`, as signed nanoseconds from the UNIX epoch. A time after the epoch
   * is at most a `Duration` away from it, whose whole seconds fit in a `u64`.
   */
  type SystemTime = t: int | t < TWO_64 * NANOS_PER_SECOND

  datatype Array =
    | BoolItems(bools: seq<bool>)
    | I64Items(ints: seq<I64>)
    | F64Items(floats: seq<F64Bits>)
    | StringItems(strings: seq<string>)
    | OtherItems

  /** `opentelemetry::Value`. */
  datatype Value =
    | Bool(b: bool)
    | I64(i: I64)
    | F64(f: F64Bits)
    | String(s: string)
    | Array(items: Array)
    | OtherValue

  datatype KeyValue = KeyValue(key: string, value: Value)

  /** A trace state the SDK built: its constructors accept only well-formed members. */
  type SdkTraceState = ts: seq<TraceState.Member> | TraceState.Valid(ts)

  /** `opentelemetry::trace::SpanContext`: a 128-bit trace id, a 64-bit span id, the flags byte. */
  datatype SpanContext = SpanContext(
    traceId: U128,
    spanId: U64,
    traceFlags: U8,
    isRemote: bool,
    traceState: SdkTraceState)

  datatype SpanKind = Client | Server | Producer | Consumer | Internal

  datatype Status = Unset | Error(description: string) | Ok

  datatype Event = Event(name: string, timestamp: SystemTime, attributes: seq<KeyValue>)

  datatype Link = Link(spanContext: SpanContext, attributes: seq<KeyValue>)

  datatype InstrumentationScope = InstrumentationScope(
    name: string,
    version: Option<string>,
    schemaUrl: Option<string>,
    attributes: seq<KeyValue>)

  /** `opentelemetry_sdk::trace::SpanData`; events and links come with their dropped counters. */
  datatype SpanData = SpanData(
    spanContext: SpanContext,
    parentSpanId: U64,
    spanKind: SpanKind,
    name: string,
    startTime: SystemTime,
    endTime: SystemTime,
    attributes: seq<KeyValue>,
    droppedAttributesCount: U32,
    events: seq<Event>,
    eventsDroppedCount: U32,
    links: seq<Link>,
    linksDroppedCount: U32,
    status: Status,
    instrumentationScope: InstrumentationScope)

  /** `opentelemetry::logs::AnyValue`; a map is listed in its iteration order, keys distinct. */
  datatype AnyValue =
    | Int(i: I64)
    | Double(d: F64Bits)
    | String(s: string)
    | Boolean(b: bool)
    | Bytes(bytes: seq<U8>)
    | ListAny(items: seq<AnyValue>)
    | Map(entries: seq<(string, AnyValue)>)
    | OtherAny

  /** `opentelemetry::logs::Severity`, whose discriminants run from 1 (Trace) to 24 (Fatal4). */
  datatype Severity =
    | Trace | Trace2 | Trace3 | Trace4
    | Debug | Debug2 | Debug3 | Debug4
    | Info | Info2 | Info3 | Info4
    | Warn | Warn2 | Warn3 | Warn4
    | Error | Error2 | Error3 | Error4
    | Fatal | Fatal2 | Fatal3 | Fatal4
  {
    /** The discriminant, which `as u8` reads. */
    function Number(): (n: U8)
      ensures 1 <= n <= 24
    {
      match this
      case Trace => 1 case Trace2 => 2 case Trace3 => 3 case Trace4 => 4
      case Debug => 5 case Debug2 => 6 case Debug3 => 7 case Debug4 => 8
      case Info => 9 case Info2 => 10 case Info3 => 11 case Info4 => 12
      case Warn => 13 case Warn2 => 14 case Warn3 => 15 case Warn4 => 16
      case Error => 17 case Error2 => 18 case Error3 => 19 case Error4 => 20
      case Fatal => 21 case Fatal2 => 22 case Fatal3 => 23 case Fatal4 => 24
    }
  }

  /** The level whose discriminant is `n`; `None` outside 1..24. */
  function SeverityOfNumber(n: int): (s: Option<Severity>)
    ensures s.Some? <==> 1 <= n <= 24
    ensures s.Some? ==> s.value.Number() == n
  {
    if n < 1 || n > 24 then None
    else Some([Trace, Trace2, Trace3, Trace4, Debug, Debug2, Debug3, Debug4,
               Info, Info2, Info3, Info4, Warn, Warn2, Warn3, Warn4,
               Severity.Error, Error2, Error3, Error4, Fatal, Fatal2, Fatal3, Fatal4][n - 1])
  }

  /** Every level is recovered from its discriminant. */
  lemma SeverityOfNumberOf(s: Severity)
    ensures SeverityOfNumber(s.Number()) == Some(s)
  {
  }

  /** `opentelemetry_sdk::metrics::Temporality`. */
  datatype Temporality = Cumulative | Delta | LowMemory | OtherTemporality

  /** The trace context a log record may carry. */
  datatype TraceContext = TraceContext(traceId: U128, spanId: U64, traceFlags: Option<U8>)

  /** `opentelemetry_sdk::logs::SdkLogRecord`, attributes in insertion order. */
  datatype LogRecord = LogRecord(
    eventName: Option<string>,
    timestamp: Option<SystemTime>,
    observedTimestamp: Option<SystemTime>,
    traceContext: Option<TraceContext>,
    severityText: Option<string>,
    severityNumber: Option<Severity>,
    body: Option<AnyValue>,
    attributes: seq<(string, AnyValue)>)

  /** `opentelemetry_sdk::Resource`: its attributes in iteration order and an optional schema URL. */
  datatype Resource = Resource(attributes: seq<KeyValue>, schemaUrl: Option<string>)

  // ---- metrics (`opentelemetry_sdk::metrics::data`), generic in the measured number type ----

  /** An exemplar: its trace and span ids are the raw id bytes (16 and 8 of them). */
  datatype Exemplar<T> = Exemplar(
    filteredAttributes: seq<KeyValue>, time: SystemTime, value: T, spanId: seq<U8>, traceId: seq<U8>)

  datatype GaugeDataPoint<T> = GaugeDataPoint(attributes: seq<KeyValue>, value: T, exemplars: seq<Exemplar<T>>)

  datatype Gauge<T> = Gauge(dataPoints: seq<GaugeDataPoint<T>>, startTime: Option<SystemTime>, time: SystemTime)

  datatype SumDataPoint<T> = SumDataPoint(attributes: seq<KeyValue>, value: T, exemplars: seq<Exemplar<T>>)

  datatype Sum<T> = Sum(
    dataPoints: seq<SumDataPoint<T>>,
    startTime: SystemTime,
    time: SystemTime,
    temporality: Temporality,
    isMonotonic: bool)

  datatype HistogramDataPoint<T> = HistogramDataPoint(
    attributes: seq<KeyValue>,
    count: U64,
    bounds: seq<F64Bits>,
    bucketCounts: seq<U64>,
    min: Option<T>,
    max: Option<T>,
    sum: T,
    exemplars: seq<Exemplar<T>>)

  datatype Histogram<T> = Histogram(
    dataPoints: seq<HistogramDataPoint<T>>, startTime: SystemTime, time: SystemTime, temporality: Temporality)

  datatype ExponentialBucket = ExponentialBucket(offset: I32, counts: seq<U64>)

  /** `count` is a `usize`, 32 bits wide on the wasm32 targets the guest is built for. */
  datatype ExponentialHistogramDataPoint<T> = ExponentialHistogramDataPoint(
    attributes: seq<KeyValue>,
    count: U32,
    min: Option<T>,
    max: Option<T>,
    sum: T,
    scale: I8,
    zeroCount: U64,
    positiveBucket: ExponentialBucket,
    negativeBucket: ExponentialBucket,
    zeroThreshold: F64Bits,
    exemplars: seq<Exemplar<T>>)

  datatype ExponentialHistogram<T> = ExponentialHistogram(
    dataPoints: seq<ExponentialHistogramDataPoint<T>>,
    startTime: SystemTime,
    time: SystemTime,
    temporality: Temporality)

  datatype MetricData<T> =
    | GaugeData(gauge: Gauge<T>)
    | SumData(sum: Sum<T>)
    | HistogramData(histogram: Histogram<T>)
    | ExponentialHistogramData(exponentialHistogram: ExponentialHistogram<T>)

  /** `AggregatedMetrics`: the metric data at one of the three widths. */
  datatype AggregatedMetrics = F64Metrics(f: MetricData<F64Bits>) | U64Metrics(u: MetricData<U64>) | I64Metrics(i: MetricData<I64>)

  datatype Metric = Metric(name: string, description: string, unit: string, data: AggregatedMetrics)

  datatype ScopeMetrics = ScopeMetrics(scope: InstrumentationScope, metrics: seq<Metric>)

  datatype ResourceMetrics = ResourceMetrics(resource: Resource, scopeMetrics: seq<ScopeMetrics>)
}
