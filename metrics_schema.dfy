/**
 * The `wasi:otel/metrics` records of the `0.2.0-draft` world. A metric's data is one of twelve
 * variants: each of the four aggregation kinds at each of the three numeric widths. Exemplar
 * ids are WIT strings, carried here as their UTF-8 bytes.
 */
module MetricsSchema {
  import opened Wrappers
  import opened Numbers
  import W = Schema

  datatype MetricNumber = F64(f: F64Bits) | S64(s: I64) | U64(u: U64)

  /** The numeric width of a metric: the tag every number inside it carries. */
  datatype Width = F64Width | S64Width | U64Width

  predicate HasWidth(n: MetricNumber, w: Width)
  {
    match w
    case F64Width => n.F64?
    case S64Width => n.S64?
    case U64Width => n.U64?
  }

  datatype Temporality = Cumulative | Delta | LowMemory

  datatype Exemplar<V> = Exemplar(
    filteredAttributes: seq<W.KeyValue<V>>,
    time: W.Datetime,
    value: MetricNumber,
    spanId: seq<U8>,
    traceId: seq<U8>)

  datatype GaugeDataPoint<V> = GaugeDataPoint(
    attributes: seq<W.KeyValue<V>>, value: MetricNumber, exemplars: seq<Exemplar<V>>)

  datatype Gauge<V> = Gauge(dataPoints: seq<GaugeDataPoint<V>>, startTime: Option<W.Datetime>, time: W.Datetime)

  datatype SumDataPoint<V> = SumDataPoint(
    attributes: seq<W.KeyValue<V>>, value: MetricNumber, exemplars: seq<Exemplar<V>>)

  datatype Sum<V> = Sum(
    dataPoints: seq<SumDataPoint<V>>,
    startTime: W.Datetime,
    time: W.Datetime,
    temporality: Temporality,
    isMonotonic: bool)

  datatype HistogramDataPoint<V> = HistogramDataPoint(
    attributes: seq<W.KeyValue<V>>,
    count: U64,
    bounds: seq<F64Bits>,
    bucketCounts: seq<U64>,
    min: Option<MetricNumber>,
    max: Option<MetricNumber>,
    sum: MetricNumber,
    exemplars: seq<Exemplar<V>>)

  datatype Histogram<V> = Histogram(
    dataPoints: seq<HistogramDataPoint<V>>,
    startTime: W.Datetime,
    time: W.Datetime,
    temporality: Temporality)

  datatype ExponentialBucket = ExponentialBucket(offset: I32, counts: seq<U64>)

  datatype ExponentialHistogramDataPoint<V> = ExponentialHistogramDataPoint(
    attributes: seq<W.KeyValue<V>>,
    count: U64,
    min: Option<MetricNumber>,
    max: Option<MetricNumber>,
    sum: MetricNumber,
    scale: I8,
    zeroCount: U64,
    positiveBucket: ExponentialBucket,
    negativeBucket: ExponentialBucket,
    zeroThreshold: F64Bits,
    exemplars: seq<Exemplar<V>>)

  datatype ExponentialHistogram<V> = ExponentialHistogram(
    dataPoints: seq<ExponentialHistogramDataPoint<V>>,
    startTime: W.Datetime,
    time: W.Datetime,
    temporality: Temporality)

  /** The aggregation kind of a metric, whatever its width. */
  datatype Kind = GaugeKind | SumKind | HistogramKind | ExponentialHistogramKind

  datatype MetricData<V> =
    | F64Gauge(gauge: Gauge<V>)
    | F64Sum(sum: Sum<V>)
    | F64Histogram(histogram: Histogram<V>)
    | F64ExponentialHistogram(exponentialHistogram: ExponentialHistogram<V>)
    | U64Gauge(gauge: Gauge<V>)
    | U64Sum(sum: Sum<V>)
    | U64Histogram(histogram: Histogram<V>)
    | U64ExponentialHistogram(exponentialHistogram: ExponentialHistogram<V>)
    | S64Gauge(gauge: Gauge<V>)
    | S64Sum(sum: Sum<V>)
    | S64Histogram(histogram: Histogram<V>)
    | S64ExponentialHistogram(exponentialHistogram: ExponentialHistogram<V>)
  {
    function WidthOf(): Width
    {
      if F64Gauge? || F64Sum? || F64Histogram? || F64ExponentialHistogram? then F64Width
      else if U64Gauge? || U64Sum? || U64Histogram? || U64ExponentialHistogram? then U64Width
      else S64Width
    }

    function KindOf(): Kind
    {
      if F64Gauge? || U64Gauge? || S64Gauge? then GaugeKind
      else if F64Sum? || U64Sum? || S64Sum? then SumKind
      else if F64Histogram? || U64Histogram? || S64Histogram? then HistogramKind
      else ExponentialHistogramKind
    }
  }

  /** The variant of the given width that carries a gauge. */
  function GaugeData<V>(w: Width, g: Gauge<V>): (d: MetricData<V>)
    ensures d.WidthOf() == w && d.KindOf() == GaugeKind && d.gauge == g
  {
    match w
    case F64Width => F64Gauge(g)
    case U64Width => U64Gauge(g)
    case S64Width => S64Gauge(g)
  }

  function SumData<V>(w: Width, s: Sum<V>): (d: MetricData<V>)
    ensures d.WidthOf() == w && d.KindOf() == SumKind && d.sum == s
  {
    match w
    case F64Width => F64Sum(s)
    case U64Width => U64Sum(s)
    case S64Width => S64Sum(s)
  }

  function HistogramData<V>(w: Width, h: Histogram<V>): (d: MetricData<V>)
    ensures d.WidthOf() == w && d.KindOf() == HistogramKind && d.histogram == h
  {
    match w
    case F64Width => F64Histogram(h)
    case U64Width => U64Histogram(h)
    case S64Width => S64Histogram(h)
  }

  function ExponentialHistogramData<V>(w: Width, h: ExponentialHistogram<V>): (d: MetricData<V>)
    ensures d.WidthOf() == w && d.KindOf() == ExponentialHistogramKind && d.exponentialHistogram == h
  {
    match w
    case F64Width => F64ExponentialHistogram(h)
    case U64Width => U64ExponentialHistogram(h)
    case S64Width => S64ExponentialHistogram(h)
  }

  /** The conversion of one number type into a metric number (`Into<MetricNumber>`, `toWasiMetricNumber`). */
  type Tag<!T> = T -> MetricNumber

  /** An `f64` as a metric number. */
  function F64Number(x: F64Bits): (n: MetricNumber)
    ensures HasWidth(n, F64Width) && n.f == x
  {
    F64(x)
  }

  /** A `u64` as a metric number. */
  function U64Number(x: U64): (n: MetricNumber)
    ensures HasWidth(n, U64Width) && n.u == x
  {
    U64(x)
  }

  /** An `i64` as a metric number. */
  function I64Number(x: I64): (n: MetricNumber)
    ensures HasWidth(n, S64Width) && n.s == x
  {
    S64(x)
  }

  ghost predicate TagsWidth<T(!new)>(tag: Tag<T>, w: Width)
  {
    forall x :: HasWidth(tag(x), w)
  }

  function TagOption<T>(tag: Tag<T>, o: Option<T>): (r: Option<MetricNumber>)
    ensures r.Some? <==> o.Some?
    ensures r.Some? ==> r.value == tag(o.value)
  {
    match o case None => None case Some(x) => Some(tag(x))
  }

  // ---- every number keeps the width ----

  predicate ExemplarsTagged<V>(es: seq<Exemplar<V>>, w: Width)
  {
    forall i :: 0 <= i < |es| ==> HasWidth(es[i].value, w)
  }

  predicate OptionTagged(o: Option<MetricNumber>, w: Width)
  {
    o.Some? ==> HasWidth(o.value, w)
  }

  predicate GaugeTagged<V>(g: Gauge<V>, w: Width)
  {
    forall i :: 0 <= i < |g.dataPoints| ==>
      HasWidth(g.dataPoints[i].value, w) && ExemplarsTagged(g.dataPoints[i].exemplars, w)
  }

  predicate SumTagged<V>(s: Sum<V>, w: Width)
  {
    forall i :: 0 <= i < |s.dataPoints| ==>
      HasWidth(s.dataPoints[i].value, w) && ExemplarsTagged(s.dataPoints[i].exemplars, w)
  }

  predicate HistogramTagged<V>(h: Histogram<V>, w: Width)
  {
    forall i :: 0 <= i < |h.dataPoints| ==>
      && HasWidth(h.dataPoints[i].sum, w) && OptionTagged(h.dataPoints[i].min, w)
      && OptionTagged(h.dataPoints[i].max, w) && ExemplarsTagged(h.dataPoints[i].exemplars, w)
  }

  predicate ExponentialHistogramTagged<V>(h: ExponentialHistogram<V>, w: Width)
  {
    forall i :: 0 <= i < |h.dataPoints| ==>
      && HasWidth(h.dataPoints[i].sum, w) && OptionTagged(h.dataPoints[i].min, w)
      && OptionTagged(h.dataPoints[i].max, w) && ExemplarsTagged(h.dataPoints[i].exemplars, w)
  }

  /** Every number in the metric data (values, sums, minima, maxima, exemplar values) carries the width `w`. */
  predicate NumbersTagged<V>(d: MetricData<V>, w: Width)
  {
    match d.KindOf()
    case GaugeKind => GaugeTagged(d.gauge, w)
    case SumKind => SumTagged(d.sum, w)
    case HistogramKind => HistogramTagged(d.histogram, w)
    case ExponentialHistogramKind => ExponentialHistogramTagged(d.exponentialHistogram, w)
  }

  datatype Metric<V> = Metric(name: string, description: string, unit: string, data: MetricData<V>)

  datatype ScopeMetrics<V> = ScopeMetrics(scope: W.InstrumentationScope<V>, metrics: seq<Metric<V>>)

  datatype ResourceMetrics<V> = ResourceMetrics(resource: W.Resource<V>, scopeMetrics: seq<ScopeMetrics<V>>)
}
