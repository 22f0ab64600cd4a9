/**
 * The mapping logic of the cgo guest (go/wasip1/traces/utils-types.go): Go values written into
 * the C records of the generated binding. The C arrays are filled element by element; the
 * allocation and string copying around them are not part of this model.
 */
module GoWasip1Utils {
  import opened Wrappers
  import opened Numbers
  import Seqs
  import Hex
  import TraceState
  import Go = GoSdk
  import GoTypes
  import GoTracing
  import GoWasip2Conversion
  import W = Schema

  const UNKNOWN_ERROR: string := "unknown error"

  // ---- trace state from the host ----------------------------------------------------------------

  /** `otelTraceStateToGoMap`: an absent or empty list gives the empty map; the loop assigns pair by pair. */
  method TraceStateToGoMap(pairs: seq<(string, string)>) returns (result: map<string, string>)
    ensures result == Seqs.LastWins(pairs)
  {
    result := map[];
    for i := 0 to |pairs|
      invariant result == Seqs.LastWins(pairs[..i])
    {
      assert pairs[..i + 1][..i] == pairs[..i];
      result := result[pairs[i].0 := pairs[i].1];
    }
    assert pairs[..|pairs|] == pairs;
  }

  /** A well-formed Go trace state, written out and read back as a map, keeps every member. */
  lemma TraceStateMapKeepsMembers(ts: Go.GoTraceState)
    ensures |Seqs.LastWins(ts).Keys| == |ts|
    ensures forall i :: 0 <= i < |ts| ==> Seqs.LastWins(ts)[ts[i].0] == ts[i].1
  {
    KeysCount(ts);
  }

  lemma {:induction false} KeysCount(ts: seq<(string, string)>)
    requires Go.DistinctKeys(ts)
    ensures |set i | 0 <= i < |ts| :: ts[i].0| == |ts|
    decreases |ts|
  {
    if |ts| > 0 {
      var init := ts[..|ts| - 1];
      assert Go.DistinctKeys(init);
      KeysCount(init);
      var s := set i | 0 <= i < |init| :: init[i].0;
      assert (set i | 0 <= i < |ts| :: ts[i].0) == s + {ts[|ts| - 1].0};
      assert ts[|ts| - 1].0 !in s;
    }
  }

  // ---- arrays filled element by element ---------------------------------------------------------

  /**
   * The builders' loop: an array of the input's length with element `i` written at index `i`,
   * handed over with the input's length.
   */
  method FillList<A, B>(input: seq<A>, f: A -> B) returns (r: seq<B>)
    ensures r == Seqs.Map(input, f)
    ensures |r| == |input| && forall i :: 0 <= i < |input| ==> r[i] == f(input[i])
  {
    if |input| == 0 {
      return [];
    }
    var cArray := new B[|input|](_ => f(input[0]));
    for i := 0 to |input|
      invariant forall k :: 0 <= k < i ==> cArray[k] == f(input[k])
    {
      cArray[i] := f(input[i]);
    }
    r := cArray[..];
  }

  // ---- values, time, status ---------------------------------------------------------------------

  /**
   * `goValueToOtelValue`: the eight kinds take their tag; for any other kind the C value stays
   * zeroed, which is tag 0, an empty `STRING`.
   */
  function ValueToOtel(v: Go.Value): (r: W.Value)
    ensures v.Invalid? ==> r == W.String("")
    ensures !v.Invalid? ==> GoWasip2Conversion.ValueOfWasi(r) == v
  {
    match v
    case String(s) => W.String(s)
    case Bool(b) => W.Bool(b)
    case Float64(f) => W.F64(f)
    case Int64(i) => W.S64(i)
    case StringSlice(ss) => W.StringArray(ss)
    case BoolSlice(bs) => W.BoolArray(bs)
    case Float64Slice(fs) => W.F64Array(fs)
    case Int64Slice(ns) => W.S64Array(ns)
    case Invalid => W.String("")
  }

  /** The zeroed fallback and `String(AsString())` meet: both revisions send the same value for every kind. */
  lemma ValueAgrees(v: Go.Value)
    ensures ValueToOtel(v) == GoWasip2Conversion.ValueToWasi(v)
  {
  }

  function KeyValueToOtel(kv: Go.KeyValue): (r: W.KeyValue<W.Value>)
    ensures r.key == kv.key && r.value == ValueToOtel(kv.value)
  {
    W.KeyValue(kv.key, ValueToOtel(kv.value))
  }

  /** `goTimeToOtelTime`: `uint64(t.Unix())` and `t.Nanosecond()`. */
  function TimeToOtel(t: Go.Time): (r: W.Datetime)
    ensures r.nanoseconds == t.nanosecond
    ensures t.unix >= 0 ==> r.seconds == t.unix
  {
    W.Datetime(WrapU64(t.unix), t.nanosecond)
  }

  /** The cgo revision splits time exactly like the `0.2.0-draft` one. */
  lemma TimeAgrees(t: Go.Time)
    ensures TimeToOtel(t) == GoTypes.ToWasiTime(t)
  {
  }

  /**
   * `goStatusToOtelStatus`: code 1 is an error whose message is the description, or
   * "unknown error" when that is empty; code 2 is OK; every other code is unset.
   */
  function StatusToOtel(s: Go.Status): (r: W.Status)
    ensures r.StatusError? <==> s.code == Go.CODE_ERROR
    ensures r.StatusOk? <==> s.code == Go.CODE_OK
    ensures r.StatusError? ==> r.description != ""
    ensures r.StatusError? && s.description != "" ==> r.description == s.description
  {
    if s.code == 1 then W.StatusError(if |s.description| > 0 then s.description else UNKNOWN_ERROR)
    else if s.code == 2 then W.StatusOk
    else W.StatusUnset
  }

  /** The cgo status map differs from the `0.2.0-draft` one only on an error without a description. */
  lemma StatusAgreesUnlessEmpty(s: Go.Status)
    ensures !(s.code == Go.CODE_ERROR && s.description == "") ==> StatusToOtel(s) == GoTracing.StatusToWasi(s)
    ensures s.code == Go.CODE_ERROR && s.description == "" ==> StatusToOtel(s) == W.StatusError(UNKNOWN_ERROR)
  {
  }

  // ---- records ----------------------------------------------------------------------------------

  function AttributesToOtel(attrs: seq<Go.KeyValue>): (r: seq<W.KeyValue<W.Value>>)
    ensures |r| == |attrs| && forall i :: 0 <= i < |attrs| ==> r[i] == KeyValueToOtel(attrs[i])
  {
    Seqs.Map(attrs, KeyValueToOtel)
  }

  /** The span context a processor writes: hex ids, the flags copied, the trace state in `Walk` order. */
  function SpanContextToOtel(sc: Go.SpanContext): (r: W.SpanContext)
    ensures r.traceId == Hex.EncodeBytes(sc.traceId) && r.spanId == Hex.EncodeBytes(sc.spanId)
    ensures r.traceFlags == sc.traceFlags && r.isRemote == sc.remote
    ensures r.traceState == sc.traceState
  {
    W.SpanContext(Hex.EncodeBytes(sc.traceId), Hex.EncodeBytes(sc.spanId), sc.traceFlags, sc.remote, sc.traceState)
  }

  /** Unlike the `0.2.0-draft` guest, the cgo one keeps the flags and the whole trace state. */
  lemma SpanContextReadsBack(sc: Go.SpanContext)
    requires sc.traceFlags == W.SAMPLED
    ensures SpanContextToOtel(sc) == GoTracing.SpanContextToWasi(sc)
    ensures GoTracing.SpanContextOf(SpanContextToOtel(sc)).Ok?
  {
    GoTracing.SpanContextRoundTrip(sc);
  }

  function EventToOtel(e: Go.Event): (r: W.Event<W.Value>)
    ensures r.name == e.name && r.time == TimeToOtel(e.time) && r.attributes == AttributesToOtel(e.attributes)
  {
    W.Event(e.name, TimeToOtel(e.time), AttributesToOtel(e.attributes))
  }

  function LinkToOtel(l: Go.Link): (r: W.Link<W.Value>)
    ensures r.spanContext == SpanContextToOtel(l.spanContext) && r.attributes == AttributesToOtel(l.attributes)
  {
    W.Link(SpanContextToOtel(l.spanContext), AttributesToOtel(l.attributes))
  }

  /** `goInstrumentationScopeToOtelInstrumentationScope`: an empty version or schema URL is absent. */
  function ScopeToOtel(s: Go.Scope): (r: W.InstrumentationScope<W.Value>)
    ensures r.name == s.name
    ensures r.version == GoTypes.ToWasiOptStr(s.version) && r.schemaUrl == GoTypes.ToWasiOptStr(s.schemaUrl)
    ensures r.attributes == AttributesToOtel(s.attributes)
  {
    W.InstrumentationScope(s.name, GoTypes.ToWasiOptStr(s.version), GoTypes.ToWasiOptStr(s.schemaUrl), AttributesToOtel(s.attributes))
  }

  /** The builders keep every element, in order, where the `wasip2` ones keep only the last. */
  lemma BuildersKeepAll(attrs: seq<Go.KeyValue>)
    ensures GoWasip2Conversion.Elements(GoWasip2Conversion.FullList(attrs, GoWasip2Conversion.KeyValueToWasi))
         == Ok(AttributesToOtel(attrs))
  {
    ValueAgreesAll(attrs);
  }

  lemma ValueAgreesAll(attrs: seq<Go.KeyValue>)
    ensures Seqs.Map(attrs, GoWasip2Conversion.KeyValueToWasi) == AttributesToOtel(attrs)
  {
    forall i | 0 <= i < |attrs|
      ensures GoWasip2Conversion.KeyValueToWasi(attrs[i]) == KeyValueToOtel(attrs[i])
    {
      ValueAgrees(attrs[i].value);
    }
  }
}
