/**
 * Metric conversion of the Go guest for the `0.2.0-draft` world (go/metrics/conversions.go). The
 * eight generic aggregations of `metricdata` map to the S64 and F64 variants of the same kind;
 * `Summary` and any other aggregation panic. Attribute values are the JSON texts of
 * go/types/conversions.go. The wall clock read when a metric has no data points is a parameter.
 */
module GoMetrics {
  import opened Wrappers
  import opened Numbers
  import Seqs
  import J = Json
  import Hex
  import Utf8
  import Go = GoSdk
  import GoTypes
  import W = Schema
  import M = MetricsSchema

  const SUMMARY_NOT_IMPLEMENTED: string := "The metricdata.Summary metric type is not implemented"
  const UNIMPLEMENTED_TYPE: string := "unimplemented type"
  /** The runtime panic of dereferencing the nil start time. */
  const NIL_DEREFERENCE: string := "invalid memory address or nil pointer dereference"

  // ---- temporality ------------------------------------------------------------------------------

  /** `toWasiTemporality`: cumulative and delta are kept; the undefined zero value becomes cumulative. */
  function TemporalityToWasi(t: Go.Temporality): (r: M.Temporality)
    ensures r != M.LowMemory
    ensures r == M.Delta <==> t.DeltaTemporality?
  {
    match t
    case CumulativeTemporality => M.Cumulative
    case DeltaTemporality => M.Delta
    case UndefinedTemporality => M.Cumulative
  }

  function TemporalityOfWasi(t: M.Temporality): Go.Temporality
  {
    match t
    case Cumulative => Go.CumulativeTemporality
    case Delta => Go.DeltaTemporality
    case LowMemory => Go.UndefinedTemporality
  }

  /** Every defined temporality reads back as itself; only the undefined one is replaced. */
  lemma TemporalityRoundTrip(t: Go.Temporality)
    ensures !t.UndefinedTemporality? ==> TemporalityOfWasi(TemporalityToWasi(t)) == t
    ensures t.UndefinedTemporality? ==> TemporalityToWasi(t) == M.Cumulative
  {
  }

  // ---- exemplars --------------------------------------------------------------------------------

  /**
   * `toWasiExemplar` for one exemplar: filtered attributes, time split at the epoch, the tagged
   * value, and the span and trace ids as the raw id bytes (`string(e.SpanID)`), not hex.
   */
  function ExemplarToWasi<T>(e: Go.Exemplar<T>, tag: M.Tag<T>, ft: J.FloatFormatter): (r: Outcome<M.Exemplar<string>>)
    ensures r.Ok? <==> GoTypes.AllValid(e.filteredAttributes)
    ensures r.Ok? ==> r.value.filteredAttributes == GoTypes.AttributesOf(e.filteredAttributes, ft).value
    ensures r.Ok? ==> r.value.time == GoTypes.ToWasiTime(e.time) && r.value.value == tag(e.value)
    ensures r.Ok? ==> r.value.spanId == e.spanId && r.value.traceId == e.traceId
  {
    var attributes :- GoTypes.AttributesOf(e.filteredAttributes, ft);
    Ok(M.Exemplar(attributes, GoTypes.ToWasiTime(e.time), tag(e.value), e.spanId, e.traceId))
  }

  predicate ExemplarsConvertible<T>(es: seq<Go.Exemplar<T>>)
  {
    forall i :: 0 <= i < |es| ==> GoTypes.AllValid(es[i].filteredAttributes)
  }

  function ExemplarsToWasi<T>(es: seq<Go.Exemplar<T>>, tag: M.Tag<T>, ft: J.FloatFormatter): (r: Outcome<seq<M.Exemplar<string>>>)
    ensures r.Ok? <==> ExemplarsConvertible(es)
    ensures r.Ok? ==> |r.value| == |es| && forall i :: 0 <= i < |es| ==> r.value[i] == ExemplarToWasi(es[i], tag, ft).value
  {
    Seqs.MapAll(es, e => ExemplarToWasi(e, tag, ft))
  }

  // ---- the exemplar-id defect -------------------------------------------------------------------

  /**
   * As written: an 8-byte span id and a 16-byte trace id cross as 8 and 16 raw bytes, where the
   * WIT interface describes 16 and 32 hex digits; read as hex they never give the id back.
   */
  lemma RawIdsNotHex<T>(e: Go.Exemplar<T>, tag: M.Tag<T>, ft: J.FloatFormatter)
    requires GoTypes.AllValid(e.filteredAttributes)
    requires |e.spanId| == 8 && |e.traceId| == 16
    ensures |ExemplarToWasi(e, tag, ft).value.spanId| == 8 && |Hex.EncodeBytes(e.spanId)| == 16
    ensures |ExemplarToWasi(e, tag, ft).value.traceId| == 16 && |Hex.EncodeBytes(e.traceId)| == 32
    ensures Hex.DecodeBytes(Hex.AsText(ExemplarToWasi(e, tag, ft).value.spanId)) != Some(e.spanId)
    ensures Hex.DecodeBytes(Hex.AsText(ExemplarToWasi(e, tag, ft).value.traceId)) != Some(e.traceId)
  {
  }

  /** A valid span id whose first byte is 0xFF crosses as bytes that are not UTF-8, which no WIT `string` can carry. */
  lemma RawIdNotUtf8<T>(e: Go.Exemplar<T>, tag: M.Tag<T>, ft: J.FloatFormatter)
    requires GoTypes.AllValid(e.filteredAttributes)
    requires |e.spanId| == 8 && e.spanId[0] == 0xFF
    ensures !Utf8.Valid(ExemplarToWasi(e, tag, ft).value.spanId)
  {
    Utf8.NeverOccursInvalid(e.spanId, 0);
  }

  /**
   * The exemplar as the WIT interface describes it: the same fields, with the ids as lower-case
   * hex text, two digits per byte, that decodes back to the ids.
   */
  function HexExemplarToWasi<T>(e: Go.Exemplar<T>, tag: M.Tag<T>, ft: J.FloatFormatter): (r: Outcome<M.Exemplar<string>>)
    ensures r.Ok? <==> GoTypes.AllValid(e.filteredAttributes)
    ensures r.Ok? ==> Hex.AsText(r.value.spanId) == Hex.EncodeBytes(e.spanId) && Hex.AsText(r.value.traceId) == Hex.EncodeBytes(e.traceId)
    ensures r.Ok? ==> Hex.DecodeBytes(Hex.AsText(r.value.spanId)) == Some(e.spanId) && Hex.DecodeBytes(Hex.AsText(r.value.traceId)) == Some(e.traceId)
    ensures r.Ok? ==> Utf8.Valid(r.value.spanId) && Utf8.Valid(r.value.traceId)
    ensures r.Ok? ==> r.value.(spanId := e.spanId, traceId := e.traceId) == ExemplarToWasi(e, tag, ft).value
  {
    var raw :- ExemplarToWasi(e, tag, ft);
    var spanId, traceId := Hex.EncodeBytesAscii(e.spanId), Hex.EncodeBytesAscii(e.traceId);
    Utf8.AsciiValid(spanId);
    Utf8.AsciiValid(traceId);
    Ok(raw.(spanId := spanId, traceId := traceId))
  }

  // ---- data points ------------------------------------------------------------------------------

  predicate PointConvertible<T>(attributes: seq<Go.KeyValue>, es: seq<Go.Exemplar<T>>)
  {
    GoTypes.AllValid(attributes) && ExemplarsConvertible(es)
  }

  /** `toWasiGaugeDataPoint` for one point: attributes, the tagged value, the exemplars. */
  function GaugePointToWasi<T>(dp: Go.DataPoint<T>, tag: M.Tag<T>, ft: J.FloatFormatter): (r: Outcome<M.GaugeDataPoint<string>>)
    ensures r.Ok? <==> PointConvertible(dp.attributes, dp.exemplars)
    ensures r.Ok? ==> r.value.attributes == GoTypes.AttributesOf(dp.attributes, ft).value && r.value.value == tag(dp.value)
    ensures r.Ok? ==> r.value.exemplars == ExemplarsToWasi(dp.exemplars, tag, ft).value
  {
    var attributes :- GoTypes.AttributesOf(dp.attributes, ft);
    var exemplars :- ExemplarsToWasi(dp.exemplars, tag, ft);
    Ok(M.GaugeDataPoint(attributes, tag(dp.value), exemplars))
  }

  /** `toWasiSumDataPoint` for one point: the same fields as a gauge point. */
  function SumPointToWasi<T>(dp: Go.DataPoint<T>, tag: M.Tag<T>, ft: J.FloatFormatter): (r: Outcome<M.SumDataPoint<string>>)
    ensures r.Ok? <==> PointConvertible(dp.attributes, dp.exemplars)
    ensures r.Ok? ==> r.value.attributes == GoTypes.AttributesOf(dp.attributes, ft).value && r.value.value == tag(dp.value)
    ensures r.Ok? ==> r.value.exemplars == ExemplarsToWasi(dp.exemplars, tag, ft).value
  {
    var attributes :- GoTypes.AttributesOf(dp.attributes, ft);
    var exemplars :- ExemplarsToWasi(dp.exemplars, tag, ft);
    Ok(M.SumDataPoint(attributes, tag(dp.value), exemplars))
  }

  /** `toWasiHistogramDataPoint` for one point: count, bounds and bucket counts copied, numbers tagged. */
  function HistogramPointToWasi<T>(dp: Go.HistogramDataPoint<T>, tag: M.Tag<T>, ft: J.FloatFormatter)
    : (r: Outcome<M.HistogramDataPoint<string>>)
    ensures r.Ok? <==> PointConvertible(dp.attributes, dp.exemplars)
    ensures r.Ok? ==> r.value.attributes == GoTypes.AttributesOf(dp.attributes, ft).value
    ensures r.Ok? ==> r.value.count == dp.count && r.value.bounds == dp.bounds && r.value.bucketCounts == dp.bucketCounts
    ensures r.Ok? ==> r.value.min == M.TagOption(tag, dp.min) && r.value.max == M.TagOption(tag, dp.max)
    ensures r.Ok? ==> r.value.sum == tag(dp.sum) && r.value.exemplars == ExemplarsToWasi(dp.exemplars, tag, ft).value
  {
    var attributes :- GoTypes.AttributesOf(dp.attributes, ft);
    var exemplars :- ExemplarsToWasi(dp.exemplars, tag, ft);
    Ok(M.HistogramDataPoint(
      attributes, dp.count, dp.bounds, dp.bucketCounts,
      M.TagOption(tag, dp.min), M.TagOption(tag, dp.max), tag(dp.sum), exemplars))
  }

  /**
   * `toWasiExponentialHistogram` for one point: the `int32` scale is narrowed to `int8`,
   * everything else copied or tagged.
   */
  function ExponentialPointToWasi<T>(dp: Go.ExponentialHistogramDataPoint<T>, tag: M.Tag<T>, ft: J.FloatFormatter)
    : (r: Outcome<M.ExponentialHistogramDataPoint<string>>)
    ensures r.Ok? <==> PointConvertible(dp.attributes, dp.exemplars)
    ensures r.Ok? ==> r.value.attributes == GoTypes.AttributesOf(dp.attributes, ft).value
    ensures r.Ok? ==> r.value.count == dp.count && r.value.zeroCount == dp.zeroCount && r.value.zeroThreshold == dp.zeroThreshold
    ensures r.Ok? ==> (r.value.scale - dp.scale) % TWO_8 == 0
    ensures r.Ok? && -TWO_7 <= dp.scale < TWO_7 ==> r.value.scale == dp.scale
    ensures r.Ok? ==> r.value.positiveBucket == M.ExponentialBucket(dp.positiveBucket.offset, dp.positiveBucket.counts)
    ensures r.Ok? ==> r.value.negativeBucket == M.ExponentialBucket(dp.negativeBucket.offset, dp.negativeBucket.counts)
    ensures r.Ok? ==> r.value.min == M.TagOption(tag, dp.min) && r.value.max == M.TagOption(tag, dp.max)
    ensures r.Ok? ==> r.value.sum == tag(dp.sum) && r.value.exemplars == ExemplarsToWasi(dp.exemplars, tag, ft).value
  {
    var attributes :- GoTypes.AttributesOf(dp.attributes, ft);
    var exemplars :- ExemplarsToWasi(dp.exemplars, tag, ft);
    Ok(M.ExponentialHistogramDataPoint(
      attributes, dp.count, M.TagOption(tag, dp.min), M.TagOption(tag, dp.max), tag(dp.sum), WrapI8(dp.scale),
      dp.zeroCount, M.ExponentialBucket(dp.positiveBucket.offset, dp.positiveBucket.counts),
      M.ExponentialBucket(dp.negativeBucket.offset, dp.negativeBucket.counts), dp.zeroThreshold, exemplars))
  }

  // ---- timestamps -------------------------------------------------------------------------------

  /**
   * `extractTimestamps`: no start and the current time for no data points, otherwise the first
   * point's start time and time. `stamps` reads the two times off a point of any of the six types.
   */
  function ExtractTimestamps<P>(points: seq<P>, stamps: P -> (Go.Time, Go.Time), now: Go.Time)
    : (r: (Option<W.Datetime>, W.Datetime))
    ensures r.0.None? <==> |points| == 0
    ensures |points| == 0 ==> r.1 == GoTypes.ToWasiTime(now)
    ensures |points| > 0 ==> r.0 == Some(GoTypes.ToWasiTime(stamps(points[0]).0)) && r.1 == GoTypes.ToWasiTime(stamps(points[0]).1)
  {
    if |points| == 0 then (None, GoTypes.ToWasiTime(now))
    else (Some(GoTypes.ToWasiTime(stamps(points[0]).0)), GoTypes.ToWasiTime(stamps(points[0]).1))
  }

  function PointStamps<T>(dp: Go.DataPoint<T>): (Go.Time, Go.Time)
  {
    (dp.startTime, dp.time)
  }

  function HistogramStamps<T>(dp: Go.HistogramDataPoint<T>): (Go.Time, Go.Time)
  {
    (dp.startTime, dp.time)
  }

  function ExponentialStamps<T>(dp: Go.ExponentialHistogramDataPoint<T>): (Go.Time, Go.Time)
  {
    (dp.startTime, dp.time)
  }

  /** `*start`: the start time a sum or histogram requires; there is none without data points. */
  function Required(start: Option<W.Datetime>): (r: Outcome<W.Datetime>)
    ensures r.Ok? <==> start.Some?
    ensures r.Ok? ==> r.value == start.value
    ensures r.Abort? ==> r.reason == NIL_DEREFERENCE
  {
    match start
    case Some(t) => Ok(t)
    case None => Abort(NIL_DEREFERENCE)
  }

  // ---- the aggregations -------------------------------------------------------------------------

  /** The gauge case: a gauge without data points has no start time and the current time. */
  function GaugeToWasi<T>(points: seq<Go.DataPoint<T>>, tag: M.Tag<T>, now: Go.Time, ft: J.FloatFormatter)
    : (r: Outcome<M.Gauge<string>>)
    ensures r.Ok? <==> forall i :: 0 <= i < |points| ==> PointConvertible(points[i].attributes, points[i].exemplars)
    ensures r.Ok? ==> |r.value.dataPoints| == |points|
    ensures r.Ok? ==> forall i :: 0 <= i < |points| ==> r.value.dataPoints[i] == GaugePointToWasi(points[i], tag, ft).value
    ensures r.Ok? ==> r.value.startTime == ExtractTimestamps(points, PointStamps, now).0
    ensures r.Ok? ==> r.value.time == ExtractTimestamps(points, PointStamps, now).1
  {
    var dataPoints :- Seqs.MapAll(points, dp => GaugePointToWasi(dp, tag, ft));
    var (start, time) := ExtractTimestamps(points, PointStamps, now);
    Ok(M.Gauge(dataPoints, start, time))
  }

  /** The sum case: the first point's times, the temporality mapped, monotonicity copied. */
  function SumToWasi<T>(points: seq<Go.DataPoint<T>>, temporality: Go.Temporality, isMonotonic: bool,
                        tag: M.Tag<T>, now: Go.Time, ft: J.FloatFormatter)
    : (r: Outcome<M.Sum<string>>)
    ensures r.Ok? <==> |points| > 0 && forall i :: 0 <= i < |points| ==> PointConvertible(points[i].attributes, points[i].exemplars)
    ensures |points| == 0 ==> r == Abort(NIL_DEREFERENCE)
    ensures r.Ok? ==> |r.value.dataPoints| == |points|
    ensures r.Ok? ==> forall i :: 0 <= i < |points| ==> r.value.dataPoints[i] == SumPointToWasi(points[i], tag, ft).value
    ensures r.Ok? ==> r.value.startTime == GoTypes.ToWasiTime(points[0].startTime) && r.value.time == GoTypes.ToWasiTime(points[0].time)
    ensures r.Ok? ==> r.value.temporality == TemporalityToWasi(temporality) && r.value.isMonotonic == isMonotonic
  {
    var (start, time) := ExtractTimestamps(points, PointStamps, now);
    var startTime :- Required(start);
    var dataPoints :- Seqs.MapAll(points, dp => SumPointToWasi(dp, tag, ft));
    Ok(M.Sum(dataPoints, startTime, time, TemporalityToWasi(temporality), isMonotonic))
  }

  /** The histogram case: the first point's times and the temporality mapped. */
  function HistogramToWasi<T>(points: seq<Go.HistogramDataPoint<T>>, temporality: Go.Temporality,
                              tag: M.Tag<T>, now: Go.Time, ft: J.FloatFormatter)
    : (r: Outcome<M.Histogram<string>>)
    ensures r.Ok? <==> |points| > 0 && forall i :: 0 <= i < |points| ==> PointConvertible(points[i].attributes, points[i].exemplars)
    ensures |points| == 0 ==> r == Abort(NIL_DEREFERENCE)
    ensures r.Ok? ==> |r.value.dataPoints| == |points|
    ensures r.Ok? ==> forall i :: 0 <= i < |points| ==> r.value.dataPoints[i] == HistogramPointToWasi(points[i], tag, ft).value
    ensures r.Ok? ==> r.value.startTime == GoTypes.ToWasiTime(points[0].startTime) && r.value.time == GoTypes.ToWasiTime(points[0].time)
    ensures r.Ok? ==> r.value.temporality == TemporalityToWasi(temporality)
  {
    var (start, time) := ExtractTimestamps(points, HistogramStamps, now);
    var startTime :- Required(start);
    var dataPoints :- Seqs.MapAll(points, dp => HistogramPointToWasi(dp, tag, ft));
    Ok(M.Histogram(dataPoints, startTime, time, TemporalityToWasi(temporality)))
  }

  /** The exponential-histogram case: the first point's times and the temporality mapped. */
  function ExponentialHistogramToWasi<T>(points: seq<Go.ExponentialHistogramDataPoint<T>>, temporality: Go.Temporality,
                                         tag: M.Tag<T>, now: Go.Time, ft: J.FloatFormatter)
    : (r: Outcome<M.ExponentialHistogram<string>>)
    ensures r.Ok? <==> |points| > 0 && forall i :: 0 <= i < |points| ==> PointConvertible(points[i].attributes, points[i].exemplars)
    ensures |points| == 0 ==> r == Abort(NIL_DEREFERENCE)
    ensures r.Ok? ==> |r.value.dataPoints| == |points|
    ensures r.Ok? ==> forall i :: 0 <= i < |points| ==> r.value.dataPoints[i] == ExponentialPointToWasi(points[i], tag, ft).value
    ensures r.Ok? ==> r.value.startTime == GoTypes.ToWasiTime(points[0].startTime) && r.value.time == GoTypes.ToWasiTime(points[0].time)
    ensures r.Ok? ==> r.value.temporality == TemporalityToWasi(temporality)
  {
    var (start, time) := ExtractTimestamps(points, ExponentialStamps, now);
    var startTime :- Required(start);
    var dataPoints :- Seqs.MapAll(points, dp => ExponentialPointToWasi(dp, tag, ft));
    Ok(M.ExponentialHistogram(dataPoints, startTime, time, TemporalityToWasi(temporality)))
  }

  function KindOf<T>(a: Go.AggregationOf<T>): M.Kind
  {
    match a
    case Gauge(_) => M.GaugeKind
    case Sum(_, _, _) => M.SumKind
    case Histogram(_, _) => M.HistogramKind
    case ExponentialHistogram(_, _) => M.ExponentialHistogramKind
  }

  /** One case pair of `toWasiMetricData`: the variant of width `w` and of the same kind. */
  function AggregationToWasi<T>(a: Go.AggregationOf<T>, w: M.Width, tag: M.Tag<T>, now: Go.Time, ft: J.FloatFormatter)
    : (r: Outcome<M.MetricData<string>>)
    ensures r.Ok? ==> r.value.WidthOf() == w && r.value.KindOf() == KindOf(a)
  {
    match a
    case Gauge(points) =>
      var g :- GaugeToWasi(points, tag, now, ft);
      Ok(M.GaugeData(w, g))
    case Sum(points, temporality, isMonotonic) =>
      var s :- SumToWasi(points, temporality, isMonotonic, tag, now, ft);
      Ok(M.SumData(w, s))
    case Histogram(points, temporality) =>
      var h :- HistogramToWasi(points, temporality, tag, now, ft);
      Ok(M.HistogramData(w, h))
    case ExponentialHistogram(points, temporality) =>
      var h :- ExponentialHistogramToWasi(points, temporality, tag, now, ft);
      Ok(M.ExponentialHistogramData(w, h))
  }

  lemma GaugeTagged<T(!new)>(points: seq<Go.DataPoint<T>>, w: M.Width, tag: M.Tag<T>, now: Go.Time, ft: J.FloatFormatter)
    requires M.TagsWidth(tag, w) && GaugeToWasi(points, tag, now, ft).Ok?
    ensures M.GaugeTagged(GaugeToWasi(points, tag, now, ft).value, w)
  {
    var g := GaugeToWasi(points, tag, now, ft).value;
    forall i | 0 <= i < |g.dataPoints|
      ensures M.HasWidth(g.dataPoints[i].value, w) && M.ExemplarsTagged(g.dataPoints[i].exemplars, w)
    {
      assert g.dataPoints[i].exemplars == ExemplarsToWasi(points[i].exemplars, tag, ft).value;
    }
  }

  lemma SumTagged<T(!new)>(points: seq<Go.DataPoint<T>>, temporality: Go.Temporality, isMonotonic: bool,
                           w: M.Width, tag: M.Tag<T>, now: Go.Time, ft: J.FloatFormatter)
    requires M.TagsWidth(tag, w) && SumToWasi(points, temporality, isMonotonic, tag, now, ft).Ok?
    ensures M.SumTagged(SumToWasi(points, temporality, isMonotonic, tag, now, ft).value, w)
  {
    var s := SumToWasi(points, temporality, isMonotonic, tag, now, ft).value;
    forall i | 0 <= i < |s.dataPoints|
      ensures M.HasWidth(s.dataPoints[i].value, w) && M.ExemplarsTagged(s.dataPoints[i].exemplars, w)
    {
      assert s.dataPoints[i].exemplars == ExemplarsToWasi(points[i].exemplars, tag, ft).value;
    }
  }

  lemma HistogramTagged<T(!new)>(points: seq<Go.HistogramDataPoint<T>>, temporality: Go.Temporality,
                                 w: M.Width, tag: M.Tag<T>, now: Go.Time, ft: J.FloatFormatter)
    requires M.TagsWidth(tag, w) && HistogramToWasi(points, temporality, tag, now, ft).Ok?
    ensures M.HistogramTagged(HistogramToWasi(points, temporality, tag, now, ft).value, w)
  {
    var h := HistogramToWasi(points, temporality, tag, now, ft).value;
    forall i | 0 <= i < |h.dataPoints|
      ensures && M.HasWidth(h.dataPoints[i].sum, w) && M.OptionTagged(h.dataPoints[i].min, w)
              && M.OptionTagged(h.dataPoints[i].max, w) && M.ExemplarsTagged(h.dataPoints[i].exemplars, w)
    {
      assert h.dataPoints[i].exemplars == ExemplarsToWasi(points[i].exemplars, tag, ft).value;
    }
  }

  lemma ExponentialHistogramTagged<T(!new)>(points: seq<Go.ExponentialHistogramDataPoint<T>>, temporality: Go.Temporality,
                                            w: M.Width, tag: M.Tag<T>, now: Go.Time, ft: J.FloatFormatter)
    requires M.TagsWidth(tag, w) && ExponentialHistogramToWasi(points, temporality, tag, now, ft).Ok?
    ensures M.ExponentialHistogramTagged(ExponentialHistogramToWasi(points, temporality, tag, now, ft).value, w)
  {
    var h := ExponentialHistogramToWasi(points, temporality, tag, now, ft).value;
    forall i | 0 <= i < |h.dataPoints|
      ensures && M.HasWidth(h.dataPoints[i].sum, w) && M.OptionTagged(h.dataPoints[i].min, w)
              && M.OptionTagged(h.dataPoints[i].max, w) && M.ExemplarsTagged(h.dataPoints[i].exemplars, w)
    {
      assert h.dataPoints[i].exemplars == ExemplarsToWasi(points[i].exemplars, tag, ft).value;
    }
  }

  /** Every number inside the converted aggregation carries the width's tag. */
  lemma AggregationTagged<T(!new)>(a: Go.AggregationOf<T>, w: M.Width, tag: M.Tag<T>, now: Go.Time, ft: J.FloatFormatter)
    requires M.TagsWidth(tag, w)
    requires AggregationToWasi(a, w, tag, now, ft).Ok?
    ensures M.NumbersTagged(AggregationToWasi(a, w, tag, now, ft).value, w)
  {
    match a
    case Gauge(points) => GaugeTagged(points, w, tag, now, ft);
    case Sum(points, temporality, isMonotonic) => SumTagged(points, temporality, isMonotonic, w, tag, now, ft);
    case Histogram(points, temporality) => HistogramTagged(points, temporality, w, tag, now, ft);
    case ExponentialHistogram(points, temporality) => ExponentialHistogramTagged(points, temporality, w, tag, now, ft);
  }

  /** `toWasiMetricData`: `int64` data to the S64 variants, `float64` data to the F64 ones; the rest panics. */
  function MetricDataToWasi(a: Go.Aggregation, now: Go.Time, ft: J.FloatFormatter): (r: Outcome<M.MetricData<string>>)
    ensures a.Summary? ==> r == Abort(SUMMARY_NOT_IMPLEMENTED)
    ensures a.OtherAggregation? ==> r == Abort(UNIMPLEMENTED_TYPE)
    ensures a.Int64Aggregation? ==> r == AggregationToWasi(a.i, M.S64Width, M.I64Number, now, ft)
    ensures a.Float64Aggregation? ==> r == AggregationToWasi(a.f, M.F64Width, M.F64Number, now, ft)
    ensures r.Ok? && a.Int64Aggregation? ==> r.value.WidthOf() == M.S64Width && r.value.KindOf() == KindOf(a.i)
    ensures r.Ok? && a.Float64Aggregation? ==> r.value.WidthOf() == M.F64Width && r.value.KindOf() == KindOf(a.f)
  {
    match a
    case Int64Aggregation(x) => AggregationToWasi(x, M.S64Width, M.I64Number, now, ft)
    case Float64Aggregation(x) => AggregationToWasi(x, M.F64Width, M.F64Number, now, ft)
    case Summary => Abort(SUMMARY_NOT_IMPLEMENTED)
    case OtherAggregation => Abort(UNIMPLEMENTED_TYPE)
  }

  /** Width dispatch is consistent: every number in an `int64` metric is S64, in a `float64` one F64. */
  lemma MetricDataTagged(a: Go.Aggregation, now: Go.Time, ft: J.FloatFormatter)
    requires MetricDataToWasi(a, now, ft).Ok?
    ensures a.Int64Aggregation? || a.Float64Aggregation?
    ensures a.Int64Aggregation? ==> M.NumbersTagged(MetricDataToWasi(a, now, ft).value, M.S64Width)
    ensures a.Float64Aggregation? ==> M.NumbersTagged(MetricDataToWasi(a, now, ft).value, M.F64Width)
  {
    match a
    case Int64Aggregation(x) => AggregationTagged(x, M.S64Width, M.I64Number, now, ft);
    case Float64Aggregation(x) => AggregationTagged(x, M.F64Width, M.F64Number, now, ft);
  }

  /** A gauge with no data points converts, stamped with the current time and no start. */
  lemma EmptyGauge(now: Go.Time, ft: J.FloatFormatter)
    ensures MetricDataToWasi(Go.Int64Aggregation(Go.Gauge([])), now, ft)
         == Ok(M.S64Gauge(M.Gauge([], None, GoTypes.ToWasiTime(now))))
  {
  }

  // ---- slices filled index by index -------------------------------------------------------------

  /** When element `i` is the first whose conversion fails, its reason is the reason of the whole. */
  lemma FirstAbort<A, B>(input: seq<A>, f: A -> Outcome<B>, i: nat)
    requires i < |input| && f(input[i]).Abort?
    requires forall k :: 0 <= k < i ==> f(input[k]).Ok?
    ensures Seqs.MapAll(input, f) == Abort(f(input[i]).reason)
  {
    var whole := Seqs.MapAll(input, f);
    assert whole.Abort?;
    var j :| 0 <= j < |input| && f(input[j]) == Abort(whole.reason) && forall k :: 0 <= k < j ==> f(input[k]).Ok?;
    assert j == i;
  }

  /**
   * The converters' loop: `make` a slice of the input's length and assign element `i` at index
   * `i`; the first element whose conversion panics ends the loop.
   */
  method FillEach<A, B>(input: seq<A>, f: A -> Outcome<B>) returns (r: Outcome<seq<B>>)
    ensures r == Seqs.MapAll(input, f)
  {
    if |input| == 0 {
      return Ok([]);
    }
    var first := f(input[0]);
    if first.Abort? {
      FirstAbort(input, f, 0);
      return Abort(first.reason);
    }
    var result := new B[|input|](_ => first.value);
    for i := 0 to |input|
      invariant forall k :: 0 <= k < i ==> f(input[k]).Ok? && result[k] == f(input[k]).value
    {
      var x := f(input[i]);
      if x.Abort? {
        FirstAbort(input, f, i);
        return Abort(x.reason);
      }
      result[i] := x.value;
    }
    var expected := Seqs.MapAll(input, f);
    assert forall k :: 0 <= k < |input| ==> expected.value[k] == result[k];
    assert expected.value == result[..];
    r := Ok(result[..]);
  }

  // ---- metrics, scopes, resource ----------------------------------------------------------------

  /** One metric: name, description and unit verbatim, the data by width. */
  function MetricToWasi(m: Go.Metrics, now: Go.Time, ft: J.FloatFormatter): (r: Outcome<M.Metric<string>>)
    ensures r.Ok? <==> MetricDataToWasi(m.data, now, ft).Ok?
    ensures r.Ok? ==> r.value == M.Metric(m.name, m.description, m.unit, MetricDataToWasi(m.data, now, ft).value)
  {
    var data :- MetricDataToWasi(m.data, now, ft);
    Ok(M.Metric(m.name, m.description, m.unit, data))
  }

  function MetricsOf(ms: seq<Go.Metrics>, now: Go.Time, ft: J.FloatFormatter): (r: Outcome<seq<M.Metric<string>>>)
    ensures r.Ok? <==> forall i :: 0 <= i < |ms| ==> MetricToWasi(ms[i], now, ft).Ok?
    ensures r.Ok? ==> |r.value| == |ms| && forall i :: 0 <= i < |ms| ==> r.value[i] == MetricToWasi(ms[i], now, ft).value
  {
    Seqs.MapAll(ms, m => MetricToWasi(m, now, ft))
  }

  /** `toWasiMetrics`: a slice of the input's length, filled index by index. */
  method ToWasiMetrics(ms: seq<Go.Metrics>, now: Go.Time, ft: J.FloatFormatter) returns (r: Outcome<seq<M.Metric<string>>>)
    ensures r.Ok? <==> MetricsOf(ms, now, ft).Ok?
    ensures r == MetricsOf(ms, now, ft)
  {
    r := FillEach(ms, m => MetricToWasi(m, now, ft));
    if r.Ok? {
      assert r.value == MetricsOf(ms, now, ft).value;
    }
  }

  /** One scope's metrics: the scope as go/types converts it, and its metrics in order. */
  function ScopeMetricsToWasi(sm: Go.ScopeMetrics, now: Go.Time, ft: J.FloatFormatter): (r: Outcome<M.ScopeMetrics<string>>)
    ensures r.Ok? <==> GoTypes.AllValid(sm.scope.attributes) && MetricsOf(sm.metrics, now, ft).Ok?
    ensures r.Ok? ==> r.value.scope == GoTypes.ToWasiInstrumentationScope(sm.scope, ft).value
    ensures r.Ok? ==> r.value.metrics == MetricsOf(sm.metrics, now, ft).value
  {
    var scope :- GoTypes.ToWasiInstrumentationScope(sm.scope, ft);
    var metrics :- MetricsOf(sm.metrics, now, ft);
    Ok(M.ScopeMetrics(scope, metrics))
  }

  function ScopeMetricsOf(sms: seq<Go.ScopeMetrics>, now: Go.Time, ft: J.FloatFormatter)
    : (r: Outcome<seq<M.ScopeMetrics<string>>>)
    ensures r.Ok? <==> forall i :: 0 <= i < |sms| ==> ScopeMetricsToWasi(sms[i], now, ft).Ok?
    ensures r.Ok? ==> |r.value| == |sms| && forall i :: 0 <= i < |sms| ==> r.value[i] == ScopeMetricsToWasi(sms[i], now, ft).value
  {
    Seqs.MapAll(sms, sm => ScopeMetricsToWasi(sm, now, ft))
  }

  /** `toWasiScopeMetrics`: a slice of the input's length, filled index by index. */
  method ToWasiScopeMetrics(sms: seq<Go.ScopeMetrics>, now: Go.Time, ft: J.FloatFormatter)
    returns (r: Outcome<seq<M.ScopeMetrics<string>>>)
    ensures r.Ok? <==> ScopeMetricsOf(sms, now, ft).Ok?
    ensures r == ScopeMetricsOf(sms, now, ft)
  {
    r := FillEach(sms, sm => ScopeMetricsToWasi(sm, now, ft));
    if r.Ok? {
      assert r.value == ScopeMetricsOf(sms, now, ft).value;
    }
  }

  /** The zero value of the WIT resource: no attributes, no schema URL. */
  const EMPTY_RESOURCE: W.Resource<string> := W.Resource([], None)

  /** `toWasiResourceMetrics`: the resource, or the empty one when there is none, and the scope metrics. */
  function ResourceMetricsOf(rm: Go.ResourceMetrics, now: Go.Time, ft: J.FloatFormatter)
    : (r: Outcome<M.ResourceMetrics<string>>)
    ensures r.Ok? <==>
      (rm.resource.Some? ==> GoTypes.AllValid(rm.resource.value.attributes)) && ScopeMetricsOf(rm.scopeMetrics, now, ft).Ok?
    ensures r.Ok? && rm.resource.None? ==> r.value.resource == EMPTY_RESOURCE
    ensures r.Ok? && rm.resource.Some? ==> r.value.resource == GoTypes.ToWasiResource(rm.resource.value, ft).value
    ensures r.Ok? ==> r.value.scopeMetrics == ScopeMetricsOf(rm.scopeMetrics, now, ft).value
  {
    var resource :- match rm.resource
      case None => Ok(EMPTY_RESOURCE)
      case Some(res) => GoTypes.ToWasiResource(res, ft);
    var scopeMetrics :- ScopeMetricsOf(rm.scopeMetrics, now, ft);
    Ok(M.ResourceMetrics(resource, scopeMetrics))
  }

  method ToWasiResourceMetrics(rm: Go.ResourceMetrics, now: Go.Time, ft: J.FloatFormatter)
    returns (r: Outcome<M.ResourceMetrics<string>>)
    ensures r.Ok? <==> ResourceMetricsOf(rm, now, ft).Ok?
    ensures r == ResourceMetricsOf(rm, now, ft)
  {
    var resource := EMPTY_RESOURCE;
    if rm.resource.Some? {
      var converted := GoTypes.ToWasiResource(rm.resource.value, ft);
      if converted.Abort? {
        return Abort(converted.reason);
      }
      resource := converted.value;
    }
    var scopeMetrics := ToWasiScopeMetrics(rm.scopeMetrics, now, ft);
    if scopeMetrics.Abort? {
      return Abort(scopeMetrics.reason);
    }
    r := Ok(M.ResourceMetrics(resource, scopeMetrics.value));
  }
}
