/**
 * Metric conversion of the Rust guest for the `0.2.0-draft` world (rust/src/metrics/conversion.rs).
 * The `metric_data_to_wasi!` macro is one generic conversion here, parameterised by the numeric
 * width and by the `Into<MetricNumber>` of the width's number type; `AggregatedMetrics` picks
 * the width. Attribute lists use the tagged `Value` of rust/src/types.rs.
 */
module RustMetrics {
  import opened Wrappers
  import opened Numbers
  import Seqs
  import Hex
  import Utf8
  import Sdk = RustSdk
  import W = Schema
  import M = MetricsSchema
  import RustTypes

  // ---- temporality -------------------------------------------------------------------------

  function TemporalityFromWasi(t: M.Temporality): Sdk.Temporality
  {
    match t
    case Cumulative => Sdk.Cumulative
    case Delta => Sdk.Delta
    case LowMemory => Sdk.LowMemory
  }

  /** `From<Temporality>`: the three named temporalities keep their name; any other becomes `Cumulative`. */
  function TemporalityToWasi(t: Sdk.Temporality): (r: M.Temporality)
    ensures !t.OtherTemporality? ==> TemporalityFromWasi(r) == t
    ensures t.OtherTemporality? ==> r == M.Cumulative
  {
    match t
    case Delta => M.Delta
    case LowMemory => M.LowMemory
    case _ => M.Cumulative
  }

  // ---- exemplar ids ------------------------------------------------------------------------

  /** How an exemplar's raw id bytes become the boundary string. */
  datatype IdEncoding =
    | Utf8Unwrap      // `String::from_utf8(id.to_vec()).unwrap()`, as the source does
    | LowerHexDigits  // the lower-case hex text that span contexts use

  const UNWRAP_UTF8: string := "called `Result::unwrap()` on an `Err` value: FromUtf8Error"

  /** The ids as the source converts them: the bytes themselves, or a panic when they are not UTF-8. */
  function IdUtf8(b: seq<U8>): (r: Outcome<seq<U8>>)
    ensures r.Ok? <==> Utf8.Valid(b)
    ensures r.Ok? ==> r.value == b
  {
    if Utf8.Valid(b) then Ok(b) else Abort(UNWRAP_UTF8)
  }

  /** The ids as they are evidently meant to travel: lower-case hex digits, two per byte. */
  function IdHex(b: seq<U8>): (r: seq<U8>)
    ensures |r| == 2 * |b|
    ensures Utf8.Valid(r)
    ensures Hex.DecodeBytes(Hex.AsText(r)) == Some(b)
  {
    var r := Hex.EncodeBytesAscii(b);
    Utf8.AsciiValid(r);
    r
  }

  function IdText(enc: IdEncoding, b: seq<U8>): (r: Outcome<seq<U8>>)
    ensures r.Ok? <==> (enc.Utf8Unwrap? ==> Utf8.Valid(b))
  {
    match enc
    case Utf8Unwrap => IdUtf8(b)
    case LowerHexDigits => Ok(IdHex(b))
  }

  // ---- exemplars and data points -------------------------------------------------------------

  predicate ExemplarConvertible<T>(e: Sdk.Exemplar<T>, enc: IdEncoding)
  {
    && RustTypes.AllSupported(e.filteredAttributes)
    && e.time >= 0
    && (enc.Utf8Unwrap? ==> Utf8.Valid(e.spanId) && Utf8.Valid(e.traceId))
  }

  /** `From<&Exemplar<T>> for Exemplar`, the same for the three widths. */
  function ExemplarToWasi<T>(e: Sdk.Exemplar<T>, tag: M.Tag<T>, enc: IdEncoding): (r: Outcome<M.Exemplar<W.Value>>)
    ensures r.Ok? <==> ExemplarConvertible(e, enc)
    ensures r.Ok? ==> |r.value.filteredAttributes| == |e.filteredAttributes|
    ensures r.Ok? ==> RustTypes.Instant(r.value.time) == e.time && r.value.value == tag(e.value)
    ensures r.Ok? && enc.Utf8Unwrap? ==> r.value.spanId == e.spanId && r.value.traceId == e.traceId
    ensures r.Ok? && enc.LowerHexDigits? ==>
      Hex.DecodeBytes(Hex.AsText(r.value.spanId)) == Some(e.spanId)
      && Hex.DecodeBytes(Hex.AsText(r.value.traceId)) == Some(e.traceId)
  {
    var attributes :- RustTypes.AttributesToWasi(e.filteredAttributes);
    var time :- RustTypes.DatetimeOf(e.time);
    var spanId :- IdText(enc, e.spanId);
    var traceId :- IdText(enc, e.traceId);
    Ok(M.Exemplar(attributes, time, tag(e.value), spanId, traceId))
  }

  predicate ExemplarsConvertible<T>(es: seq<Sdk.Exemplar<T>>, enc: IdEncoding)
  {
    forall i :: 0 <= i < |es| ==> ExemplarConvertible(es[i], enc)
  }

  function ExemplarsToWasi<T>(es: seq<Sdk.Exemplar<T>>, tag: M.Tag<T>, enc: IdEncoding): (r: Outcome<seq<M.Exemplar<W.Value>>>)
    ensures r.Ok? <==> ExemplarsConvertible(es, enc)
    ensures r.Ok? ==> |r.value| == |es| && forall i :: 0 <= i < |es| ==> r.value[i] == ExemplarToWasi(es[i], tag, enc).value
  {
    Seqs.MapAll(es, e => ExemplarToWasi(e, tag, enc))
  }

  predicate PointConvertible<T>(attributes: seq<Sdk.KeyValue>, es: seq<Sdk.Exemplar<T>>, enc: IdEncoding)
  {
    RustTypes.AllSupported(attributes) && ExemplarsConvertible(es, enc)
  }

  /** The closure that builds a `GaugeDataPoint`. */
  function GaugePointToWasi<T>(dp: Sdk.GaugeDataPoint<T>, tag: M.Tag<T>, enc: IdEncoding): (r: Outcome<M.GaugeDataPoint<W.Value>>)
    ensures r.Ok? <==> PointConvertible(dp.attributes, dp.exemplars, enc)
    ensures r.Ok? ==> r.value.value == tag(dp.value)
    ensures r.Ok? ==> |r.value.attributes| == |dp.attributes| && |r.value.exemplars| == |dp.exemplars|
    ensures r.Ok? ==> forall i :: 0 <= i < |dp.exemplars| ==> r.value.exemplars[i].value == tag(dp.exemplars[i].value)
  {
    var attributes :- RustTypes.AttributesToWasi(dp.attributes);
    var exemplars :- ExemplarsToWasi(dp.exemplars, tag, enc);
    Ok(M.GaugeDataPoint(attributes, tag(dp.value), exemplars))
  }

  /** The closure that builds a `SumDataPoint`. */
  function SumPointToWasi<T>(dp: Sdk.SumDataPoint<T>, tag: M.Tag<T>, enc: IdEncoding): (r: Outcome<M.SumDataPoint<W.Value>>)
    ensures r.Ok? <==> PointConvertible(dp.attributes, dp.exemplars, enc)
    ensures r.Ok? ==> r.value.value == tag(dp.value)
    ensures r.Ok? ==> |r.value.attributes| == |dp.attributes| && |r.value.exemplars| == |dp.exemplars|
    ensures r.Ok? ==> forall i :: 0 <= i < |dp.exemplars| ==> r.value.exemplars[i].value == tag(dp.exemplars[i].value)
  {
    var attributes :- RustTypes.AttributesToWasi(dp.attributes);
    var exemplars :- ExemplarsToWasi(dp.exemplars, tag, enc);
    Ok(M.SumDataPoint(attributes, tag(dp.value), exemplars))
  }

  /** The closure that builds a `HistogramDataPoint`: count, bounds and bucket counts copied, numbers tagged. */
  function HistogramPointToWasi<T>(dp: Sdk.HistogramDataPoint<T>, tag: M.Tag<T>, enc: IdEncoding): (r: Outcome<M.HistogramDataPoint<W.Value>>)
    ensures r.Ok? <==> PointConvertible(dp.attributes, dp.exemplars, enc)
    ensures r.Ok? ==> r.value.count == dp.count && r.value.bounds == dp.bounds && r.value.bucketCounts == dp.bucketCounts
    ensures r.Ok? ==> r.value.min == M.TagOption(tag, dp.min) && r.value.max == M.TagOption(tag, dp.max) && r.value.sum == tag(dp.sum)
    ensures r.Ok? ==> |r.value.attributes| == |dp.attributes| && |r.value.exemplars| == |dp.exemplars|
    ensures r.Ok? ==> forall i :: 0 <= i < |dp.exemplars| ==> r.value.exemplars[i].value == tag(dp.exemplars[i].value)
  {
    var attributes :- RustTypes.AttributesToWasi(dp.attributes);
    var exemplars :- ExemplarsToWasi(dp.exemplars, tag, enc);
    Ok(M.HistogramDataPoint(
      attributes, dp.count, dp.bounds, dp.bucketCounts,
      M.TagOption(tag, dp.min), M.TagOption(tag, dp.max), tag(dp.sum), exemplars))
  }

  /** `From<&ExponentialBucket>`: the offset and the counts, in order. */
  function BucketToWasi(b: Sdk.ExponentialBucket): (r: M.ExponentialBucket)
    ensures r.offset == b.offset && r.counts == b.counts
  {
    M.ExponentialBucket(b.offset, b.counts)
  }

  /** The closure that builds an `ExponentialHistogramDataPoint`; the `usize` count is widened to `u64`. */
  function ExponentialPointToWasi<T>(dp: Sdk.ExponentialHistogramDataPoint<T>, tag: M.Tag<T>, enc: IdEncoding)
    : (r: Outcome<M.ExponentialHistogramDataPoint<W.Value>>)
    ensures r.Ok? <==> PointConvertible(dp.attributes, dp.exemplars, enc)
    ensures r.Ok? ==> r.value.count == dp.count as int && r.value.scale == dp.scale && r.value.zeroCount == dp.zeroCount
    ensures r.Ok? ==> r.value.zeroThreshold == dp.zeroThreshold
    ensures r.Ok? ==> r.value.positiveBucket == BucketToWasi(dp.positiveBucket) && r.value.negativeBucket == BucketToWasi(dp.negativeBucket)
    ensures r.Ok? ==> r.value.min == M.TagOption(tag, dp.min) && r.value.max == M.TagOption(tag, dp.max) && r.value.sum == tag(dp.sum)
    ensures r.Ok? ==> |r.value.attributes| == |dp.attributes| && |r.value.exemplars| == |dp.exemplars|
    ensures r.Ok? ==> forall i :: 0 <= i < |dp.exemplars| ==> r.value.exemplars[i].value == tag(dp.exemplars[i].value)
  {
    var attributes :- RustTypes.AttributesToWasi(dp.attributes);
    var exemplars :- ExemplarsToWasi(dp.exemplars, tag, enc);
    Ok(M.ExponentialHistogramDataPoint(
      attributes, dp.count as int, M.TagOption(tag, dp.min), M.TagOption(tag, dp.max), tag(dp.sum), dp.scale,
      dp.zeroCount, BucketToWasi(dp.positiveBucket), BucketToWasi(dp.negativeBucket), dp.zeroThreshold, exemplars))
  }

  // ---- the four aggregations (`metric_data_to_wasi!`) ---------------------------------------

  /** A gauge's start time stays optional; its time is required. */
  function GaugeToWasi<T>(g: Sdk.Gauge<T>, tag: M.Tag<T>, enc: IdEncoding): (r: Outcome<M.Gauge<W.Value>>)
    ensures r.Ok? <==>
      && (forall i :: 0 <= i < |g.dataPoints| ==> PointConvertible(g.dataPoints[i].attributes, g.dataPoints[i].exemplars, enc))
      && (g.startTime.Some? ==> g.startTime.value >= 0)
      && g.time >= 0
    ensures r.Ok? ==> |r.value.dataPoints| == |g.dataPoints|
    ensures r.Ok? ==> forall i :: 0 <= i < |g.dataPoints| ==> r.value.dataPoints[i] == GaugePointToWasi(g.dataPoints[i], tag, enc).value
    ensures r.Ok? ==> (r.value.startTime.Some? <==> g.startTime.Some?)
    ensures r.Ok? && g.startTime.Some? ==> RustTypes.Instant(r.value.startTime.value) == g.startTime.value
    ensures r.Ok? ==> RustTypes.Instant(r.value.time) == g.time
  {
    var dataPoints :- Seqs.MapAll(g.dataPoints, dp => GaugePointToWasi(dp, tag, enc));
    var startTime :- RustTypes.OptionalTime(g.startTime);
    var time :- RustTypes.DatetimeOf(g.time);
    Ok(M.Gauge(dataPoints, startTime, time))
  }

  /** A sum's start time is required; temporality is mapped and monotonicity copied. */
  function SumToWasi<T>(s: Sdk.Sum<T>, tag: M.Tag<T>, enc: IdEncoding): (r: Outcome<M.Sum<W.Value>>)
    ensures r.Ok? <==>
      && (forall i :: 0 <= i < |s.dataPoints| ==> PointConvertible(s.dataPoints[i].attributes, s.dataPoints[i].exemplars, enc))
      && s.startTime >= 0 && s.time >= 0
    ensures r.Ok? ==> |r.value.dataPoints| == |s.dataPoints|
    ensures r.Ok? ==> forall i :: 0 <= i < |s.dataPoints| ==> r.value.dataPoints[i] == SumPointToWasi(s.dataPoints[i], tag, enc).value
    ensures r.Ok? ==> RustTypes.Instant(r.value.startTime) == s.startTime && RustTypes.Instant(r.value.time) == s.time
    ensures r.Ok? ==> r.value.temporality == TemporalityToWasi(s.temporality) && r.value.isMonotonic == s.isMonotonic
  {
    var dataPoints :- Seqs.MapAll(s.dataPoints, dp => SumPointToWasi(dp, tag, enc));
    var startTime :- RustTypes.DatetimeOf(s.startTime);
    var time :- RustTypes.DatetimeOf(s.time);
    Ok(M.Sum(dataPoints, startTime, time, TemporalityToWasi(s.temporality), s.isMonotonic))
  }

  function HistogramToWasi<T>(h: Sdk.Histogram<T>, tag: M.Tag<T>, enc: IdEncoding): (r: Outcome<M.Histogram<W.Value>>)
    ensures r.Ok? <==>
      && (forall i :: 0 <= i < |h.dataPoints| ==> PointConvertible(h.dataPoints[i].attributes, h.dataPoints[i].exemplars, enc))
      && h.startTime >= 0 && h.time >= 0
    ensures r.Ok? ==> |r.value.dataPoints| == |h.dataPoints|
    ensures r.Ok? ==> forall i :: 0 <= i < |h.dataPoints| ==> r.value.dataPoints[i] == HistogramPointToWasi(h.dataPoints[i], tag, enc).value
    ensures r.Ok? ==> RustTypes.Instant(r.value.startTime) == h.startTime && RustTypes.Instant(r.value.time) == h.time
    ensures r.Ok? ==> r.value.temporality == TemporalityToWasi(h.temporality)
  {
    var dataPoints :- Seqs.MapAll(h.dataPoints, dp => HistogramPointToWasi(dp, tag, enc));
    var startTime :- RustTypes.DatetimeOf(h.startTime);
    var time :- RustTypes.DatetimeOf(h.time);
    Ok(M.Histogram(dataPoints, startTime, time, TemporalityToWasi(h.temporality)))
  }

  function ExponentialHistogramToWasi<T>(h: Sdk.ExponentialHistogram<T>, tag: M.Tag<T>, enc: IdEncoding)
    : (r: Outcome<M.ExponentialHistogram<W.Value>>)
    ensures r.Ok? <==>
      && (forall i :: 0 <= i < |h.dataPoints| ==> PointConvertible(h.dataPoints[i].attributes, h.dataPoints[i].exemplars, enc))
      && h.startTime >= 0 && h.time >= 0
    ensures r.Ok? ==> |r.value.dataPoints| == |h.dataPoints|
    ensures r.Ok? ==> forall i :: 0 <= i < |h.dataPoints| ==> r.value.dataPoints[i] == ExponentialPointToWasi(h.dataPoints[i], tag, enc).value
    ensures r.Ok? ==> RustTypes.Instant(r.value.startTime) == h.startTime && RustTypes.Instant(r.value.time) == h.time
    ensures r.Ok? ==> r.value.temporality == TemporalityToWasi(h.temporality)
  {
    var dataPoints :- Seqs.MapAll(h.dataPoints, dp => ExponentialPointToWasi(dp, tag, enc));
    var startTime :- RustTypes.DatetimeOf(h.startTime);
    var time :- RustTypes.DatetimeOf(h.time);
    Ok(M.ExponentialHistogram(dataPoints, startTime, time, TemporalityToWasi(h.temporality)))
  }

  function KindOf<T>(d: Sdk.MetricData<T>): M.Kind
  {
    match d
    case GaugeData(_) => M.GaugeKind
    case SumData(_) => M.SumKind
    case HistogramData(_) => M.HistogramKind
    case ExponentialHistogramData(_) => M.ExponentialHistogramKind
  }

  /** `metric_data_to_wasi!` for one width: the variant of that width and of the same kind. */
  function MetricDataToWasi<T>(d: Sdk.MetricData<T>, w: M.Width, tag: M.Tag<T>, enc: IdEncoding): (r: Outcome<M.MetricData<W.Value>>)
    ensures r.Ok? ==> r.value.WidthOf() == w && r.value.KindOf() == KindOf(d)
  {
    match d
    case GaugeData(g) =>
      var x :- GaugeToWasi(g, tag, enc);
      Ok(M.GaugeData(w, x))
    case SumData(s) =>
      var x :- SumToWasi(s, tag, enc);
      Ok(M.SumData(w, x))
    case HistogramData(h) =>
      var x :- HistogramToWasi(h, tag, enc);
      Ok(M.HistogramData(w, x))
    case ExponentialHistogramData(h) =>
      var x :- ExponentialHistogramToWasi(h, tag, enc);
      Ok(M.ExponentialHistogramData(w, x))
  }

  function WidthOf(a: Sdk.AggregatedMetrics): M.Width
  {
    match a
    case F64Metrics(_) => M.F64Width
    case U64Metrics(_) => M.U64Width
    case I64Metrics(_) => M.S64Width
  }

  function AggregatedKind(a: Sdk.AggregatedMetrics): M.Kind
  {
    match a
    case F64Metrics(d) => KindOf(d)
    case U64Metrics(d) => KindOf(d)
    case I64Metrics(d) => KindOf(d)
  }

  /** `From<&AggregatedMetrics> for MetricData`: f64 data to the F64 variants, u64 to U64, i64 to S64. */
  function AggregatedToWasi(a: Sdk.AggregatedMetrics, enc: IdEncoding): (r: Outcome<M.MetricData<W.Value>>)
    ensures r.Ok? ==> r.value.WidthOf() == WidthOf(a) && r.value.KindOf() == AggregatedKind(a)
  {
    match a
    case F64Metrics(d) => MetricDataToWasi(d, M.F64Width, M.F64Number, enc)
    case U64Metrics(d) => MetricDataToWasi(d, M.U64Width, M.U64Number, enc)
    case I64Metrics(d) => MetricDataToWasi(d, M.S64Width, M.I64Number, enc)
  }

  // ---- every number keeps the width ----------------------------------------------------------

  lemma GaugeNumbersTagged<T(!new)>(g: Sdk.Gauge<T>, w: M.Width, tag: M.Tag<T>, enc: IdEncoding)
    requires M.TagsWidth(tag, w) && GaugeToWasi(g, tag, enc).Ok?
    ensures M.GaugeTagged(GaugeToWasi(g, tag, enc).value, w)
  {
    var r := GaugeToWasi(g, tag, enc).value;
    forall i | 0 <= i < |r.dataPoints|
      ensures M.HasWidth(r.dataPoints[i].value, w) && M.ExemplarsTagged(r.dataPoints[i].exemplars, w)
    {
      assert r.dataPoints[i] == GaugePointToWasi(g.dataPoints[i], tag, enc).value;
    }
  }

  lemma SumNumbersTagged<T(!new)>(s: Sdk.Sum<T>, w: M.Width, tag: M.Tag<T>, enc: IdEncoding)
    requires M.TagsWidth(tag, w) && SumToWasi(s, tag, enc).Ok?
    ensures M.SumTagged(SumToWasi(s, tag, enc).value, w)
  {
    var r := SumToWasi(s, tag, enc).value;
    forall i | 0 <= i < |r.dataPoints|
      ensures M.HasWidth(r.dataPoints[i].value, w) && M.ExemplarsTagged(r.dataPoints[i].exemplars, w)
    {
      assert r.dataPoints[i] == SumPointToWasi(s.dataPoints[i], tag, enc).value;
    }
  }

  lemma HistogramNumbersTagged<T(!new)>(h: Sdk.Histogram<T>, w: M.Width, tag: M.Tag<T>, enc: IdEncoding)
    requires M.TagsWidth(tag, w) && HistogramToWasi(h, tag, enc).Ok?
    ensures M.HistogramTagged(HistogramToWasi(h, tag, enc).value, w)
  {
    var r := HistogramToWasi(h, tag, enc).value;
    forall i | 0 <= i < |r.dataPoints|
      ensures && M.HasWidth(r.dataPoints[i].sum, w) && M.OptionTagged(r.dataPoints[i].min, w)
              && M.OptionTagged(r.dataPoints[i].max, w) && M.ExemplarsTagged(r.dataPoints[i].exemplars, w)
    {
      assert r.dataPoints[i] == HistogramPointToWasi(h.dataPoints[i], tag, enc).value;
    }
  }

  lemma ExponentialNumbersTagged<T(!new)>(h: Sdk.ExponentialHistogram<T>, w: M.Width, tag: M.Tag<T>, enc: IdEncoding)
    requires M.TagsWidth(tag, w) && ExponentialHistogramToWasi(h, tag, enc).Ok?
    ensures M.ExponentialHistogramTagged(ExponentialHistogramToWasi(h, tag, enc).value, w)
  {
    var r := ExponentialHistogramToWasi(h, tag, enc).value;
    forall i | 0 <= i < |r.dataPoints|
      ensures && M.HasWidth(r.dataPoints[i].sum, w) && M.OptionTagged(r.dataPoints[i].min, w)
              && M.OptionTagged(r.dataPoints[i].max, w) && M.ExemplarsTagged(r.dataPoints[i].exemplars, w)
    {
      assert r.dataPoints[i] == ExponentialPointToWasi(h.dataPoints[i], tag, enc).value;
    }
  }

  lemma MetricDataTagged<T(!new)>(d: Sdk.MetricData<T>, w: M.Width, tag: M.Tag<T>, enc: IdEncoding)
    requires M.TagsWidth(tag, w)
    requires MetricDataToWasi(d, w, tag, enc).Ok?
    ensures M.NumbersTagged(MetricDataToWasi(d, w, tag, enc).value, w)
  {
    match d
    case GaugeData(g) => GaugeNumbersTagged(g, w, tag, enc);
    case SumData(s) => SumNumbersTagged(s, w, tag, enc);
    case HistogramData(h) => HistogramNumbersTagged(h, w, tag, enc);
    case ExponentialHistogramData(h) => ExponentialNumbersTagged(h, w, tag, enc);
  }

  /** Width dispatch is exhaustive and consistent: every number inside the result carries the source width's tag. */
  lemma AggregatedTagged(a: Sdk.AggregatedMetrics, enc: IdEncoding)
    requires AggregatedToWasi(a, enc).Ok?
    ensures M.NumbersTagged(AggregatedToWasi(a, enc).value, WidthOf(a))
  {
    match a
    case F64Metrics(d) => MetricDataTagged(d, M.F64Width, M.F64Number, enc);
    case U64Metrics(d) => MetricDataTagged(d, M.U64Width, M.U64Number, enc);
    case I64Metrics(d) => MetricDataTagged(d, M.S64Width, M.I64Number, enc);
  }

  // ---- metrics, scopes, resource -----------------------------------------------------------

  /**
   * Converters defined outside rust/src/metrics/conversion.rs. They may panic on an attribute
   * value they do not support, as the crate's own scope and resource conversions do: an `Abort`.
   */
  type ScopeConversion = Sdk.InstrumentationScope -> Outcome<W.InstrumentationScope<W.Value>>
  type ResourceConversion = Sdk.Resource -> Outcome<W.Resource<W.Value>>

  /** `From<&Metric> for Metric`: name, description and unit verbatim, the data by width. */
  function MetricToWasi(m: Sdk.Metric, enc: IdEncoding): (r: Outcome<M.Metric<W.Value>>)
    ensures r.Ok? <==> AggregatedToWasi(m.data, enc).Ok?
    ensures r.Ok? ==> r.value.name == m.name && r.value.description == m.description && r.value.unit == m.unit
    ensures r.Ok? ==> r.value.data.WidthOf() == WidthOf(m.data) && r.value.data.KindOf() == AggregatedKind(m.data)
  {
    var data :- AggregatedToWasi(m.data, enc);
    Ok(M.Metric(m.name, m.description, m.unit, data))
  }

  /** `From<&ScopeMetrics> for ScopeMetrics`: the scope, and the metrics one to one, in order. */
  function ScopeMetricsToWasi(sm: Sdk.ScopeMetrics, convertScope: ScopeConversion, enc: IdEncoding)
    : (r: Outcome<M.ScopeMetrics<W.Value>>)
    ensures r.Ok? <==>
      convertScope(sm.scope).Ok? && forall i :: 0 <= i < |sm.metrics| ==> MetricToWasi(sm.metrics[i], enc).Ok?
    ensures convertScope(sm.scope).Abort? ==> r == Abort(convertScope(sm.scope).reason)
    ensures r.Ok? ==> r.value.scope == convertScope(sm.scope).value && |r.value.metrics| == |sm.metrics|
    ensures r.Ok? ==> forall i :: 0 <= i < |sm.metrics| ==>
      r.value.metrics[i].name == sm.metrics[i].name && r.value.metrics[i].data.WidthOf() == WidthOf(sm.metrics[i].data)
  {
    var scope :- convertScope(sm.scope);
    var metrics :- Seqs.MapAll(sm.metrics, m => MetricToWasi(m, enc));
    Ok(M.ScopeMetrics(scope, metrics))
  }

  /** `From<ResourceMetrics> for ResourceMetrics`: the resource, and the scope metrics one to one, in order. */
  function ResourceMetricsToWasi(
    rm: Sdk.ResourceMetrics, convertResource: ResourceConversion, convertScope: ScopeConversion, enc: IdEncoding)
    : (r: Outcome<M.ResourceMetrics<W.Value>>)
    ensures r.Ok? <==>
      convertResource(rm.resource).Ok?
      && forall i :: 0 <= i < |rm.scopeMetrics| ==> ScopeMetricsToWasi(rm.scopeMetrics[i], convertScope, enc).Ok?
    ensures convertResource(rm.resource).Abort? ==> r == Abort(convertResource(rm.resource).reason)
    ensures r.Ok? ==> r.value.resource == convertResource(rm.resource).value && |r.value.scopeMetrics| == |rm.scopeMetrics|
    ensures r.Ok? ==> forall i :: 0 <= i < |rm.scopeMetrics| ==>
      r.value.scopeMetrics[i].scope == convertScope(rm.scopeMetrics[i].scope).value
      && |r.value.scopeMetrics[i].metrics| == |rm.scopeMetrics[i].metrics|
  {
    var resource :- convertResource(rm.resource);
    var scopeMetrics :- Seqs.MapAll(rm.scopeMetrics, sm => ScopeMetricsToWasi(sm, convertScope, enc));
    Ok(M.ResourceMetrics(resource, scopeMetrics))
  }

  // ---- the exemplar-id defect ----------------------------------------------------------------

  /**
   * As written: a span id whose first byte is 0xFF (a perfectly valid id) makes the exemplar,
   * and with it the whole export, panic.
   */
  lemma NonUtf8SpanIdPanics<T>(e: Sdk.Exemplar<T>, tag: M.Tag<T>)
    requires |e.spanId| == 8 && e.spanId[0] == 0xFF
    ensures ExemplarToWasi(e, tag, Utf8Unwrap).Abort?
  {
    Utf8.NeverOccursInvalid(e.spanId, 0);
  }

  /**
   * Corrected: with hex ids an exemplar fails only on what the other fields demand, and both
   * ids decode back to the raw bytes.
   */
  lemma HexIdsTotal<T>(e: Sdk.Exemplar<T>, tag: M.Tag<T>)
    requires RustTypes.AllSupported(e.filteredAttributes) && e.time >= 0
    ensures ExemplarToWasi(e, tag, LowerHexDigits).Ok?
    ensures |ExemplarToWasi(e, tag, LowerHexDigits).value.spanId| == 2 * |e.spanId|
    ensures Hex.DecodeBytes(Hex.AsText(ExemplarToWasi(e, tag, LowerHexDigits).value.spanId)) == Some(e.spanId)
  {
  }
}
