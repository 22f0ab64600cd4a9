/**
 * Attribute and time conversions of the Rust guest (rust/src/types.rs,
 * rust/src/types/conversion.rs); the crates under rust/crates carry identical copies.
 */
module RustTypes {
  import opened Wrappers
  import opened Numbers
  import opened Seqs
  import Sdk = RustSdk
  import W = Schema

  /** The SDK values the boundary's tagged `Value` can carry. */
  predicate Supported(v: Sdk.Value)
  {
    match v
    case Array(items) => !items.OtherItems?
    case OtherValue => false
    case _ => true
  }

  /** `From<opentelemetry::Value> for Value`: the same variant and payload, or `unimplemented!`. */
  function ValueToWasi(v: Sdk.Value): (r: Outcome<W.Value>)
    ensures r.Ok? <==> Supported(v)
  {
    match v
    case Bool(b) => Ok(W.Bool(b))
    case I64(i) => Ok(W.S64(i))
    case F64(f) => Ok(W.F64(f))
    case String(s) => Ok(W.String(s))
    case Array(items) =>
      (match items
       case BoolItems(bs) => Ok(W.BoolArray(bs))
       case I64Items(ns) => Ok(W.S64Array(ns))
       case F64Items(fs) => Ok(W.F64Array(fs))
       case StringItems(ss) => Ok(W.StringArray(ss))
       case OtherItems => Abort("not implemented"))
    case OtherValue => Abort("not implemented")
  }

  /** The SDK value a boundary value stands for: the inverse of `ValueToWasi`. */
  function ValueFromWasi(w: W.Value): (v: Sdk.Value)
  {
    match w
    case Bool(b) => Sdk.Bool(b)
    case S64(i) => Sdk.I64(i)
    case F64(f) => Sdk.F64(f)
    case String(s) => Sdk.Value.String(s)
    case BoolArray(bs) => Sdk.Array(Sdk.BoolItems(bs))
    case S64Array(ns) => Sdk.Array(Sdk.I64Items(ns))
    case F64Array(fs) => Sdk.Array(Sdk.F64Items(fs))
    case StringArray(ss) => Sdk.Array(Sdk.StringItems(ss))
  }

  /** The value map is one-to-one on supported values and onto the boundary type. */
  lemma ValueRoundTrip(v: Sdk.Value, w: W.Value)
    ensures Supported(v) ==> ValueFromWasi(ValueToWasi(v).value) == v
    ensures ValueToWasi(ValueFromWasi(w)) == Ok(w)
  {
  }

  /** `From<opentelemetry::KeyValue> for KeyValue` (owned and borrowed forms alike). */
  function KeyValueToWasi(kv: Sdk.KeyValue): (r: Outcome<W.KeyValue<W.Value>>)
    ensures r.Ok? <==> Supported(kv.value)
    ensures r.Ok? ==> r.value.key == kv.key && r.value.value == ValueToWasi(kv.value).value
  {
    match ValueToWasi(kv.value)
    case Ok(w) => Ok(W.KeyValue(kv.key, w))
    case Abort(m) => Abort(m)
  }

  predicate AllSupported(attrs: seq<Sdk.KeyValue>)
  {
    forall i :: 0 <= i < |attrs| ==> Supported(attrs[i].value)
  }

  /** Attribute lists: every attribute converted, count and order kept, or the first abort. */
  function AttributesToWasi(attrs: seq<Sdk.KeyValue>): (r: Outcome<seq<W.KeyValue<W.Value>>>)
    ensures r.Ok? <==> AllSupported(attrs)
    ensures r.Ok? ==> |r.value| == |attrs|
    ensures r.Ok? ==> forall i :: 0 <= i < |attrs| ==>
      r.value[i].key == attrs[i].key && ValueFromWasi(r.value[i].value) == attrs[i].value
  {
    MapAll(attrs, KeyValueToWasi)
  }

  /** The message of the `expect` that rejects a time before the epoch. */
  const BEFORE_EPOCH: string := "SystemTime should be after UNIX EPOCH"

  /**
   * `From<SystemTime> for Datetime`: whole seconds and the sub-second nanoseconds elapsed since
   * the UNIX epoch; `expect` aborts for a time before the epoch.
   */
  function DatetimeOf(t: Sdk.SystemTime): (r: Outcome<W.Datetime>)
    ensures r.Ok? <==> t >= 0
    ensures r.Abort? ==> r.reason == BEFORE_EPOCH
    ensures r.Ok? ==> r.value.nanoseconds < Sdk.NANOS_PER_SECOND
    ensures r.Ok? ==> r.value.seconds * Sdk.NANOS_PER_SECOND + r.value.nanoseconds == t
  {
    if t < 0 then Abort(BEFORE_EPOCH)
    else Ok(W.Datetime(t / Sdk.NANOS_PER_SECOND, t % Sdk.NANOS_PER_SECOND))
  }

  /** The instant a boundary date-time denotes, in nanoseconds since the epoch. */
  function Instant(d: W.Datetime): (t: int)
    ensures t >= 0
  {
    d.seconds * Sdk.NANOS_PER_SECOND + d.nanoseconds
  }

  /** A normalised date-time is exactly what the conversion makes of its instant. */
  lemma DatetimeRoundTrip(d: W.Datetime)
    requires d.nanoseconds < Sdk.NANOS_PER_SECOND
    ensures Instant(d) < TWO_64 * Sdk.NANOS_PER_SECOND
    ensures DatetimeOf(Instant(d)) == Ok(d)
  {
    var t := Instant(d);
    assert t / Sdk.NANOS_PER_SECOND == d.seconds && t % Sdk.NANOS_PER_SECOND == d.nanoseconds by {
      Numbers.DivModUnique(t, d.seconds, d.nanoseconds, Sdk.NANOS_PER_SECOND);
    }
  }

  /** `match t { Some(v) => Some(v.into()), None => None }` on an optional time. */
  function OptionalTime(t: Option<Sdk.SystemTime>): (r: Outcome<Option<W.Datetime>>)
    ensures r.Ok? <==> (t.Some? ==> t.value >= 0)
    ensures r.Abort? ==> r.reason == BEFORE_EPOCH
    ensures r.Ok? ==> (r.value.Some? <==> t.Some?)
    ensures r.Ok? && t.Some? ==> Instant(r.value.value) == t.value
  {
    match t
    case None => Ok(None)
    case Some(s) =>
      var d :- DatetimeOf(s);
      Ok(Some(d))
  }

  /** Later instants never convert to an earlier date-time (seconds first, then nanoseconds). */
  lemma DatetimeMonotonic(s: Sdk.SystemTime, t: Sdk.SystemTime)
    requires 0 <= s <= t
    ensures DatetimeOf(s).value.seconds < DatetimeOf(t).value.seconds
         || (DatetimeOf(s).value.seconds == DatetimeOf(t).value.seconds
             && DatetimeOf(s).value.nanoseconds <= DatetimeOf(t).value.nanoseconds)
  {
  }
}
