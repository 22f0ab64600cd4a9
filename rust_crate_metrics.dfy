/**
 * Metric conversion of the earlier Rust guest crate (rust/crates/metrics/src/conversion.rs),
 * written against the SDK whose aggregations sit behind `Box<dyn Aggregation>` and are told
 * apart by downcasting. The boundary of that world has three aggregations without a width;
 * the width survives only in the tag of every number.
 */
module RustCrateMetrics {
  import opened Wrappers
  import opened Numbers
  import Seqs
  import Sdk = RustSdk
  import W = Schema
  import M = MetricsSchema
  import RustTypes
  import RustTracing
  import RustMetrics

  // ---- the SDK side --------------------------------------------------------------------------

  datatype DataPoint<T> = DataPoint(
    attributes: seq<Sdk.KeyValue>,
    startTime: Option<Sdk.SystemTime>,
    time: Option<Sdk.SystemTime>,
    value: T,
    exemplars: seq<Sdk.Exemplar<T>>)

  datatype HistogramDataPoint<T> = HistogramDataPoint(
    attributes: seq<Sdk.KeyValue>,
    startTime: Sdk.SystemTime,
    time: Sdk.SystemTime,
    count: U64,
    bounds: seq<F64Bits>,
    bucketCounts: seq<U64>,
    min: Option<T>,
    max: Option<T>,
    sum: T,
    exemplars: seq<Sdk.Exemplar<T>>)

  datatype Gauge<T> = Gauge(dataPoints: seq<DataPoint<T>>)

  datatype Sum<T> = Sum(dataPoints: seq<DataPoint<T>>, temporality: Sdk.Temporality, isMonotonic: bool)

  datatype Histogram<T> = Histogram(dataPoints: seq<HistogramDataPoint<T>>, temporality: Sdk.Temporality)

  /** One concrete aggregation type at one width; exponential histograms are never looked into. */
  datatype AggregationOf<T> =
    | GaugeOf(gauge: Gauge<T>)
    | SumOf(sum: Sum<T>)
    | HistogramOf(histogram: Histogram<T>)
    | ExponentialHistogramOf

  /** What a `Box<dyn Aggregation>` holds: a known aggregation at a width, or any other implementation. */
  datatype Aggregation =
    | F64Aggregation(f: AggregationOf<F64Bits>)
    | I64Aggregation(i: AggregationOf<I64>)
    | U64Aggregation(u: AggregationOf<U64>)
    | OtherAggregation

  datatype Metric = Metric(name: string, description: string, unit: string, data: Aggregation)

  datatype ScopeMetrics = ScopeMetrics(scope: Sdk.InstrumentationScope, metrics: seq<Metric>)

  datatype ResourceMetrics = ResourceMetrics(resource: Sdk.Resource, scopeMetrics: seq<ScopeMetrics>)

  // ---- the boundary side ---------------------------------------------------------------------

  datatype WasiDataPoint = WasiDataPoint(
    attributes: seq<W.KeyValue<W.Value>>,
    startTime: Option<W.Datetime>,
    time: Option<W.Datetime>,
    value: M.MetricNumber,
    exemplars: seq<M.Exemplar<W.Value>>)

  datatype WasiHistogramDataPoint = WasiHistogramDataPoint(
    attributes: seq<W.KeyValue<W.Value>>,
    startTime: W.Datetime,
    time: W.Datetime,
    count: U64,
    bounds: seq<F64Bits>,
    bucketCounts: seq<U64>,
    min: Option<M.MetricNumber>,
    max: Option<M.MetricNumber>,
    sum: M.MetricNumber,
    exemplars: seq<M.Exemplar<W.Value>>)

  datatype WasiAggregation =
    | WasiGauge(dataPoints: seq<WasiDataPoint>)
    | WasiSum(dataPoints: seq<WasiDataPoint>, temporality: M.Temporality, isMonotonic: bool)
    | WasiHistogram(histogramPoints: seq<WasiHistogramDataPoint>, temporality: M.Temporality)

  datatype ResourceInner = ResourceInner(attrs: seq<W.KeyValue<W.Value>>, schemaUrl: Option<string>)

  datatype WasiResource = WasiResource(inner: ResourceInner)

  datatype WasiMetric = WasiMetric(name: string, description: string, unit: string, data: WasiAggregation)

  datatype WasiScopeMetrics = WasiScopeMetrics(scope: W.InstrumentationScope<W.Value>, metrics: seq<WasiMetric>)

  datatype WasiResourceMetrics = WasiResourceMetrics(resource: WasiResource, scopeMetrics: seq<WasiScopeMetrics>)

  // ---- resource ------------------------------------------------------------------------------

  /**
   * The resource the conversion produces: its attributes converted in iteration order, its schema URL kept.
   * This is the specification of the loop in `ResourceToWasi` below, which implements it.
   */
  function ResourceOf(res: Sdk.Resource): (r: Outcome<WasiResource>)
    ensures r.Ok? <==> RustTypes.AllSupported(res.attributes)
    ensures r.Ok? ==> r.value.inner.schemaUrl == res.schemaUrl && |r.value.inner.attrs| == |res.attributes|
    ensures r.Ok? ==> forall i :: 0 <= i < |res.attributes| ==>
      r.value.inner.attrs[i].key == res.attributes[i].key
      && RustTypes.ValueFromWasi(r.value.inner.attrs[i].value) == res.attributes[i].value
  {
    var attrs :- RustTypes.AttributesToWasi(res.attributes);
    Ok(WasiResource(ResourceInner(attrs, res.schemaUrl)))
  }

  /** `From<&Resource>`: one `KeyValue` pushed per entry, then the schema URL; specified by `ResourceOf`. */
  method ResourceToWasi(res: Sdk.Resource) returns (r: Outcome<WasiResource>)
    ensures r.Ok? <==> RustTypes.AllSupported(res.attributes)
    ensures r.Ok? ==> r == ResourceOf(res)
  {
    var attrs: seq<W.KeyValue<W.Value>> := [];
    var i := 0;
    while i < |res.attributes|
      invariant 0 <= i <= |res.attributes|
      invariant RustTypes.AllSupported(res.attributes[..i])
      invariant |attrs| == i
      invariant forall k :: 0 <= k < i ==> attrs[k] == RustTypes.KeyValueToWasi(res.attributes[k]).value
    {
      var kv :- RustTypes.KeyValueToWasi(res.attributes[i]);
      attrs := attrs + [kv];
      i := i + 1;
    }
    assert res.attributes[..i] == res.attributes;
    r := Ok(WasiResource(ResourceInner(attrs, res.schemaUrl)));
    assert attrs == RustTypes.AttributesToWasi(res.attributes).value;
  }

  // ---- temporality and data points -----------------------------------------------------------

  /** `From<Temporality> for TemporalityT`: Cumulative and Delta keep their name; any other becomes `LowMemory`. */
  function TemporalityToWasi(t: Sdk.Temporality): (r: M.Temporality)
    ensures t.Cumulative? || t.Delta? ==> RustMetrics.TemporalityFromWasi(r) == t
    ensures !(t.Cumulative? || t.Delta?) ==> r == M.LowMemory
  {
    match t
    case Cumulative => M.Cumulative
    case Delta => M.Delta
    case _ => M.LowMemory
  }

  predicate PointConvertible<T>(dp: DataPoint<T>, enc: RustMetrics.IdEncoding)
  {
    && RustTypes.AllSupported(dp.attributes)
    && (dp.startTime.Some? ==> dp.startTime.value >= 0)
    && (dp.time.Some? ==> dp.time.value >= 0)
    && RustMetrics.ExemplarsConvertible(dp.exemplars, enc)
  }

  /** `From<&DataPoint<T>>` for the three widths: both times stay optional, the value is tagged. */
  function DataPointToWasi<T>(dp: DataPoint<T>, tag: M.Tag<T>, enc: RustMetrics.IdEncoding): (r: Outcome<WasiDataPoint>)
    ensures r.Ok? <==> PointConvertible(dp, enc)
    ensures r.Ok? ==> |r.value.attributes| == |dp.attributes| && r.value.value == tag(dp.value)
    ensures r.Ok? ==> (r.value.startTime.Some? <==> dp.startTime.Some?) && (r.value.time.Some? <==> dp.time.Some?)
    ensures r.Ok? && dp.startTime.Some? ==> RustTypes.Instant(r.value.startTime.value) == dp.startTime.value
    ensures r.Ok? && dp.time.Some? ==> RustTypes.Instant(r.value.time.value) == dp.time.value
    ensures r.Ok? ==> |r.value.exemplars| == |dp.exemplars|
    ensures r.Ok? ==> forall i :: 0 <= i < |dp.exemplars| ==> r.value.exemplars[i].value == tag(dp.exemplars[i].value)
  {
    var attributes :- RustTypes.AttributesToWasi(dp.attributes);
    var startTime :- RustTypes.OptionalTime(dp.startTime);
    var time :- RustTypes.OptionalTime(dp.time);
    var exemplars :- RustMetrics.ExemplarsToWasi(dp.exemplars, tag, enc);
    Ok(WasiDataPoint(attributes, startTime, time, tag(dp.value), exemplars))
  }

  predicate HistogramPointConvertible<T>(dp: HistogramDataPoint<T>, enc: RustMetrics.IdEncoding)
  {
    && RustTypes.AllSupported(dp.attributes)
    && dp.startTime >= 0 && dp.time >= 0
    && RustMetrics.ExemplarsConvertible(dp.exemplars, enc)
  }

  /** `From<&HistogramDataPoint<T>>`: count, bounds and bucket counts copied; min, max and sum tagged. */
  function HistogramPointToWasi<T>(dp: HistogramDataPoint<T>, tag: M.Tag<T>, enc: RustMetrics.IdEncoding)
    : (r: Outcome<WasiHistogramDataPoint>)
    ensures r.Ok? <==> HistogramPointConvertible(dp, enc)
    ensures r.Ok? ==> |r.value.attributes| == |dp.attributes|
    ensures r.Ok? ==> RustTypes.Instant(r.value.startTime) == dp.startTime && RustTypes.Instant(r.value.time) == dp.time
    ensures r.Ok? ==> r.value.count == dp.count && r.value.bounds == dp.bounds && r.value.bucketCounts == dp.bucketCounts
    ensures r.Ok? ==> r.value.min == M.TagOption(tag, dp.min) && r.value.max == M.TagOption(tag, dp.max)
    ensures r.Ok? ==> r.value.sum == tag(dp.sum)
    ensures r.Ok? ==> |r.value.exemplars| == |dp.exemplars|
    ensures r.Ok? ==> forall i :: 0 <= i < |dp.exemplars| ==> r.value.exemplars[i].value == tag(dp.exemplars[i].value)
  {
    var attributes :- RustTypes.AttributesToWasi(dp.attributes);
    var startTime :- RustTypes.DatetimeOf(dp.startTime);
    var time :- RustTypes.DatetimeOf(dp.time);
    var exemplars :- RustMetrics.ExemplarsToWasi(dp.exemplars, tag, enc);
    Ok(WasiHistogramDataPoint(
      attributes, startTime, time, dp.count, dp.bounds, dp.bucketCounts,
      M.TagOption(tag, dp.min), M.TagOption(tag, dp.max), tag(dp.sum), exemplars))
  }

  // ---- the downcast chain --------------------------------------------------------------------

  /** The `panic!` message of the last branch of `convert_aggregation`. */
  const UNHANDLED: string := "ERROR"

  /** Gauges and sums of every width, histograms of f64 and u64: what the downcast chain recognises. */
  predicate Handled(a: Aggregation)
  {
    match a
    case F64Aggregation(x) => !x.ExponentialHistogramOf?
    case I64Aggregation(x) => x.GaugeOf? || x.SumOf?
    case U64Aggregation(x) => !x.ExponentialHistogramOf?
    case OtherAggregation => false
  }

  datatype Kind = GaugeKind | SumKind | HistogramKind

  function WasiKind(a: WasiAggregation): Kind
  {
    match a
    case WasiGauge(_) => GaugeKind
    case WasiSum(_, _, _) => SumKind
    case WasiHistogram(_, _) => HistogramKind
  }

  function KindOf<T>(x: AggregationOf<T>): Kind
    requires !x.ExponentialHistogramOf?
  {
    match x
    case GaugeOf(_) => GaugeKind
    case SumOf(_) => SumKind
    case HistogramOf(_) => HistogramKind
  }

  function AggregationKind(a: Aggregation): Kind
    requires Handled(a)
  {
    match a
    case F64Aggregation(x) => KindOf(x)
    case I64Aggregation(x) => KindOf(x)
    case U64Aggregation(x) => KindOf(x)
  }

  predicate AggregationOfConvertible<T>(x: AggregationOf<T>, enc: RustMetrics.IdEncoding)
  {
    match x
    case GaugeOf(g) => forall i :: 0 <= i < |g.dataPoints| ==> PointConvertible(g.dataPoints[i], enc)
    case SumOf(s) => forall i :: 0 <= i < |s.dataPoints| ==> PointConvertible(s.dataPoints[i], enc)
    case HistogramOf(h) => forall i :: 0 <= i < |h.dataPoints| ==> HistogramPointConvertible(h.dataPoints[i], enc)
    case ExponentialHistogramOf => false
  }

  /** One recognised aggregation at one width: gauges and sums keep their points, temporality and monotonicity. */
  function AggregationOfToWasi<T>(x: AggregationOf<T>, tag: M.Tag<T>, enc: RustMetrics.IdEncoding)
    : (r: Outcome<WasiAggregation>)
    requires !x.ExponentialHistogramOf?
    ensures r.Ok? <==> AggregationOfConvertible(x, enc)
    ensures r.Ok? ==> WasiKind(r.value) == KindOf(x)
    ensures r.Ok? && x.GaugeOf? ==> |r.value.dataPoints| == |x.gauge.dataPoints|
    ensures r.Ok? && x.GaugeOf? ==> forall i :: 0 <= i < |x.gauge.dataPoints| ==>
      r.value.dataPoints[i] == DataPointToWasi(x.gauge.dataPoints[i], tag, enc).value
    ensures r.Ok? && x.SumOf? ==> |r.value.dataPoints| == |x.sum.dataPoints|
    ensures r.Ok? && x.SumOf? ==> forall i :: 0 <= i < |x.sum.dataPoints| ==>
      r.value.dataPoints[i] == DataPointToWasi(x.sum.dataPoints[i], tag, enc).value
    ensures r.Ok? && x.SumOf? ==>
      r.value.temporality == TemporalityToWasi(x.sum.temporality) && r.value.isMonotonic == x.sum.isMonotonic
    ensures r.Ok? && x.HistogramOf? ==> |r.value.histogramPoints| == |x.histogram.dataPoints|
    ensures r.Ok? && x.HistogramOf? ==> forall i :: 0 <= i < |x.histogram.dataPoints| ==>
      r.value.histogramPoints[i] == HistogramPointToWasi(x.histogram.dataPoints[i], tag, enc).value
    ensures r.Ok? && x.HistogramOf? ==> r.value.temporality == TemporalityToWasi(x.histogram.temporality)
  {
    match x
    case GaugeOf(g) =>
      var points :- Seqs.MapAll(g.dataPoints, dp => DataPointToWasi(dp, tag, enc));
      Ok(WasiGauge(points))
    case SumOf(s) =>
      var points :- Seqs.MapAll(s.dataPoints, dp => DataPointToWasi(dp, tag, enc));
      Ok(WasiSum(points, TemporalityToWasi(s.temporality), s.isMonotonic))
    case HistogramOf(h) =>
      var points :- Seqs.MapAll(h.dataPoints, dp => HistogramPointToWasi(dp, tag, enc));
      Ok(WasiHistogram(points, TemporalityToWasi(h.temporality)))
  }

  predicate AggregationConvertible(a: Aggregation, enc: RustMetrics.IdEncoding)
  {
    match a
    case F64Aggregation(x) => AggregationOfConvertible(x, enc)
    case I64Aggregation(x) => (x.GaugeOf? || x.SumOf?) && AggregationOfConvertible(x, enc)
    case U64Aggregation(x) => AggregationOfConvertible(x, enc)
    case OtherAggregation => false
  }

  /**
   * `convert_aggregation`: the downcast chain. Every aggregation it does not recognise, among them
   * `Histogram<i64>` and every exponential histogram, panics.
   */
  function ConvertAggregation(a: Aggregation, enc: RustMetrics.IdEncoding): (r: Outcome<WasiAggregation>)
    ensures !Handled(a) ==> r == Abort(UNHANDLED)
    ensures r.Ok? <==> AggregationConvertible(a, enc)
    ensures r.Ok? ==> Handled(a) && WasiKind(r.value) == AggregationKind(a)
  {
    if !Handled(a) then Abort(UNHANDLED)
    else
      match a
      case F64Aggregation(x) => AggregationOfToWasi(x, M.F64Number, enc)
      case I64Aggregation(x) => AggregationOfToWasi(x, M.I64Number, enc)
      case U64Aggregation(x) => AggregationOfToWasi(x, M.U64Number, enc)
  }

  function WidthOf(a: Aggregation): M.Width
  {
    match a
    case F64Aggregation(_) => M.F64Width
    case I64Aggregation(_) => M.S64Width
    case U64Aggregation(_) => M.U64Width
    case OtherAggregation => M.F64Width
  }

  /** Every number of a converted aggregation (values, sums, minima, maxima, exemplar values) carries the width `w`. */
  predicate NumbersTagged(a: WasiAggregation, w: M.Width)
  {
    match a
    case WasiGauge(points) => PointsTagged(points, w)
    case WasiSum(points, _, _) => PointsTagged(points, w)
    case WasiHistogram(points, _) =>
      forall i :: 0 <= i < |points| ==>
        && M.HasWidth(points[i].sum, w) && M.OptionTagged(points[i].min, w)
        && M.OptionTagged(points[i].max, w) && M.ExemplarsTagged(points[i].exemplars, w)
  }

  predicate PointsTagged(points: seq<WasiDataPoint>, w: M.Width)
  {
    forall i :: 0 <= i < |points| ==> M.HasWidth(points[i].value, w) && M.ExemplarsTagged(points[i].exemplars, w)
  }

  lemma PointsTaggedByWidth<T(!new)>(
    ps: seq<DataPoint<T>>, r: seq<WasiDataPoint>, w: M.Width, tag: M.Tag<T>, enc: RustMetrics.IdEncoding)
    requires M.TagsWidth(tag, w)
    requires |r| == |ps|
    requires forall i :: 0 <= i < |ps| ==> DataPointToWasi(ps[i], tag, enc) == Ok(r[i])
    ensures PointsTagged(r, w)
  {
    forall i | 0 <= i < |r|
      ensures M.HasWidth(r[i].value, w) && M.ExemplarsTagged(r[i].exemplars, w)
    {
      assert DataPointToWasi(ps[i], tag, enc) == Ok(r[i]);
    }
  }

  lemma AggregationOfTagged<T(!new)>(x: AggregationOf<T>, w: M.Width, tag: M.Tag<T>, enc: RustMetrics.IdEncoding)
    requires !x.ExponentialHistogramOf? && M.TagsWidth(tag, w)
    requires AggregationOfToWasi(x, tag, enc).Ok?
    ensures NumbersTagged(AggregationOfToWasi(x, tag, enc).value, w)
  {
    match x
    case GaugeOf(g) => PointsTaggedByWidth(g.dataPoints, AggregationOfToWasi(x, tag, enc).value.dataPoints, w, tag, enc);
    case SumOf(s) => PointsTaggedByWidth(s.dataPoints, AggregationOfToWasi(x, tag, enc).value.dataPoints, w, tag, enc);
    case HistogramOf(h) =>
      var r := AggregationOfToWasi(x, tag, enc).value.histogramPoints;
      forall i | 0 <= i < |r|
        ensures && M.HasWidth(r[i].sum, w) && M.OptionTagged(r[i].min, w)
                && M.OptionTagged(r[i].max, w) && M.ExemplarsTagged(r[i].exemplars, w)
      {
        assert r[i] == HistogramPointToWasi(h.dataPoints[i], tag, enc).value;
      }
  }

  /** The boundary aggregation forgets the width, but every number inside it still carries the source width's tag. */
  lemma ConvertAggregationTagged(a: Aggregation, enc: RustMetrics.IdEncoding)
    requires ConvertAggregation(a, enc).Ok?
    ensures NumbersTagged(ConvertAggregation(a, enc).value, WidthOf(a))
  {
    match a
    case F64Aggregation(x) => AggregationOfTagged(x, M.F64Width, M.F64Number, enc);
    case I64Aggregation(x) => AggregationOfTagged(x, M.S64Width, M.I64Number, enc);
    case U64Aggregation(x) => AggregationOfTagged(x, M.U64Width, M.U64Number, enc);
  }

  // ---- metrics, scopes and the whole export --------------------------------------------------

  /** `From<&Metric>`: name, description and unit verbatim, the data through `convert_aggregation`. */
  function MetricToWasi(m: Metric, enc: RustMetrics.IdEncoding): (r: Outcome<WasiMetric>)
    ensures !Handled(m.data) ==> r == Abort(UNHANDLED)
    ensures r.Ok? <==> AggregationConvertible(m.data, enc)
    ensures r.Ok? ==> r.value.name == m.name && r.value.description == m.description && r.value.unit == m.unit
    ensures r.Ok? ==> WasiKind(r.value.data) == AggregationKind(m.data)
  {
    var data :- ConvertAggregation(m.data, enc);
    Ok(WasiMetric(m.name, m.description, m.unit, data))
  }

  /** `From<&ScopeMetrics>`: the scope (name, version, schema URL, attributes), then the metrics one to one. */
  function ScopeMetricsToWasi(sm: ScopeMetrics, enc: RustMetrics.IdEncoding): (r: Outcome<WasiScopeMetrics>)
    ensures r.Ok? <==>
      RustTypes.AllSupported(sm.scope.attributes)
      && forall i :: 0 <= i < |sm.metrics| ==> AggregationConvertible(sm.metrics[i].data, enc)
    ensures r.Ok? ==> r.value.scope == RustTracing.ScopeToWasi(sm.scope).value
    ensures r.Ok? ==> |r.value.metrics| == |sm.metrics|
    ensures r.Ok? ==> forall i :: 0 <= i < |sm.metrics| ==> r.value.metrics[i] == MetricToWasi(sm.metrics[i], enc).value
    ensures (exists i :: 0 <= i < |sm.metrics| && !Handled(sm.metrics[i].data)) ==> r.Abort?
  {
    var scope :- RustTracing.ScopeToWasi(sm.scope);
    var metrics :- Seqs.MapAll(sm.metrics, m => MetricToWasi(m, enc));
    Ok(WasiScopeMetrics(scope, metrics))
  }

  /**
   * `From<&ResourceMetrics>` and `From<&mut ResourceMetrics>`, the path the exporter takes; the
   * specification of `ResourceMetricsToWasi`.
   */
  function ResourceMetricsOf(rm: ResourceMetrics, enc: RustMetrics.IdEncoding): (r: Outcome<WasiResourceMetrics>)
    ensures r.Ok? <==>
      RustTypes.AllSupported(rm.resource.attributes)
      && forall i :: 0 <= i < |rm.scopeMetrics| ==> ScopeMetricsToWasi(rm.scopeMetrics[i], enc).Ok?
    ensures r.Ok? ==> ResourceOf(rm.resource).Ok? && r.value.resource == ResourceOf(rm.resource).value
    ensures r.Ok? ==> |r.value.scopeMetrics| == |rm.scopeMetrics|
    ensures r.Ok? ==> forall i :: 0 <= i < |rm.scopeMetrics| ==>
      r.value.scopeMetrics[i] == ScopeMetricsToWasi(rm.scopeMetrics[i], enc).value
    ensures !RustTypes.AllSupported(rm.resource.attributes) ==> r.Abort?
  {
    var resource :- ResourceOf(rm.resource);
    var scopeMetrics :- Seqs.MapAll(rm.scopeMetrics, sm => ScopeMetricsToWasi(sm, enc));
    Ok(WasiResourceMetrics(resource, scopeMetrics))
  }

  /** The same conversion with the resource's attributes copied by the loop of `ResourceToWasi`. */
  method ResourceMetricsToWasi(rm: ResourceMetrics, enc: RustMetrics.IdEncoding) returns (r: Outcome<WasiResourceMetrics>)
    ensures r.Ok? <==> ResourceMetricsOf(rm, enc).Ok?
    ensures r.Ok? ==> r == ResourceMetricsOf(rm, enc)
  {
    var resource :- ResourceToWasi(rm.resource);
    var scopeMetrics :- Seqs.MapAll(rm.scopeMetrics, sm => ScopeMetricsToWasi(sm, enc));
    r := Ok(WasiResourceMetrics(resource, scopeMetrics));
  }
}
