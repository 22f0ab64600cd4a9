/**
 * Log conversion of the Rust crate revision (rust/crates/logs/src/conversion.rs): the record
 * keeps its shape, and `AnyValue` becomes the boundary's two-level `LogAny` union, in which a
 * list holds only scalars (or raw bytes) and a map value is a scalar or such a list. Whatever
 * does not fit that shape panics with "unsupported data type".
 */
module RustCrateLogs {
  import opened Wrappers
  import opened Numbers
  import Seqs
  import Sdk = RustSdk
  import W = Schema
  import RustTypes

  // ---- boundary types of this revision's `wasi:otel/logs` ------------------------------

  datatype Severity =
    | Trace | Trace2 | Trace3 | Trace4
    | Debug | Debug2 | Debug3 | Debug4
    | Info | Info2 | Info3 | Info4
    | Warn | Warn2 | Warn3 | Warn4
    | Error | Error2 | Error3 | Error4
    | Fatal | Fatal2 | Fatal3 | Fatal4

  datatype LogValue = Int(i: I64) | Double(d: F64Bits) | String(s: string) | Boolean(b: bool)

  datatype LogList = Bytes(bytes: seq<U8>) | List(values: seq<LogValue>)

  datatype LogMapValue = Value(value: LogValue) | List(list: LogList)

  datatype LogMapKeyValue = LogMapKeyValue(key: string, value: LogMapValue)

  datatype LogAny = Value(value: LogValue) | List(list: LogList) | Map(entries: seq<LogMapKeyValue>)

  datatype LogRecordAttribute = LogRecordAttribute(key: string, value: LogAny)

  datatype LogRecord = LogRecord(
    eventName: Option<string>,
    timestamp: Option<W.Datetime>,
    observedTimestamp: Option<W.Datetime>,
    severity: Option<Severity>,
    severityText: Option<string>,
    body: Option<LogAny>,
    attributes: seq<LogRecordAttribute>)

  /** The message of every `panic!` in this file. */
  const UNSUPPORTED: string := "unsupported data type"

  // ---- severity ----------------------------------------------------------------------------

  /** The SDK level the boundary level names. */
  function SeverityFromWasi(w: Severity): Sdk.Severity
  {
    match w
    case Trace => Sdk.Trace case Trace2 => Sdk.Trace2 case Trace3 => Sdk.Trace3 case Trace4 => Sdk.Trace4
    case Debug => Sdk.Debug case Debug2 => Sdk.Debug2 case Debug3 => Sdk.Debug3 case Debug4 => Sdk.Debug4
    case Info => Sdk.Info case Info2 => Sdk.Info2 case Info3 => Sdk.Info3 case Info4 => Sdk.Info4
    case Warn => Sdk.Warn case Warn2 => Sdk.Warn2 case Warn3 => Sdk.Warn3 case Warn4 => Sdk.Warn4
    case Error => Sdk.Severity.Error case Error2 => Sdk.Error2 case Error3 => Sdk.Error3 case Error4 => Sdk.Error4
    case Fatal => Sdk.Fatal case Fatal2 => Sdk.Fatal2 case Fatal3 => Sdk.Fatal3 case Fatal4 => Sdk.Fatal4
  }

  /** `From<Severity> for Severity`: each of the 24 levels to the level of the same name, so no two levels meet. */
  function SeverityToWasi(s: Sdk.Severity): (r: Severity)
    ensures SeverityFromWasi(r) == s
  {
    match s
    case Trace => Trace case Trace2 => Trace2 case Trace3 => Trace3 case Trace4 => Trace4
    case Debug => Debug case Debug2 => Debug2 case Debug3 => Debug3 case Debug4 => Debug4
    case Info => Info case Info2 => Info2 case Info3 => Info3 case Info4 => Info4
    case Warn => Warn case Warn2 => Warn2 case Warn3 => Warn3 case Warn4 => Warn4
    case Error => Severity.Error case Error2 => Error2 case Error3 => Error3 case Error4 => Error4
    case Fatal => Fatal case Fatal2 => Fatal2 case Fatal3 => Fatal3 case Fatal4 => Fatal4
  }

  /** Every boundary level is reached: together with the left inverse, the map is a bijection. */
  lemma SeverityToWasiOnto(w: Severity)
    ensures SeverityToWasi(SeverityFromWasi(w)) == w
  {
  }

  // ---- values ------------------------------------------------------------------------------

  predicate IsScalar(v: Sdk.AnyValue)
  {
    v.Int? || v.Double? || v.String? || v.Boolean?
  }

  /** A value a boundary list can stand for: raw bytes, or a list of scalars. */
  predicate IsFlatList(v: Sdk.AnyValue)
  {
    v.Bytes? || (v.ListAny? && forall i :: 0 <= i < |v.items| ==> IsScalar(v.items[i]))
  }

  /** A value a map entry can hold. */
  predicate IsMapValue(v: Sdk.AnyValue)
  {
    IsScalar(v) || IsFlatList(v)
  }

  /** The values `From<AnyValue> for LogAny` converts without a panic. */
  predicate Convertible(v: Sdk.AnyValue)
  {
    IsMapValue(v) || (v.Map? && forall i :: 0 <= i < |v.entries| ==> IsMapValue(v.entries[i].1))
  }

  /** The SDK value a boundary scalar stands for. */
  function ScalarBack(w: LogValue): (v: Sdk.AnyValue)
    ensures IsScalar(v)
  {
    match w
    case Int(i) => Sdk.Int(i)
    case Double(d) => Sdk.Double(d)
    case String(s) => Sdk.AnyValue.String(s)
    case Boolean(b) => Sdk.Boolean(b)
  }

  function ListBack(l: LogList): (v: Sdk.AnyValue)
    ensures IsFlatList(v)
  {
    match l
    case Bytes(b) => Sdk.Bytes(b)
    case List(ws) => Sdk.ListAny(Seqs.Map(ws, ScalarBack))
  }

  function MapValueBack(m: LogMapValue): (v: Sdk.AnyValue)
    ensures IsMapValue(v)
  {
    match m
    case Value(w) => ScalarBack(w)
    case List(l) => ListBack(l)
  }

  function EntriesBack(kvs: seq<LogMapKeyValue>): (r: seq<(string, Sdk.AnyValue)>)
    ensures |r| == |kvs|
    ensures forall i :: 0 <= i < |kvs| ==> r[i] == (kvs[i].key, MapValueBack(kvs[i].value))
  {
    seq(|kvs|, i requires 0 <= i < |kvs| => (kvs[i].key, MapValueBack(kvs[i].value)))
  }

  /** The SDK value a boundary value stands for. */
  function LogAnyBack(a: LogAny): (v: Sdk.AnyValue)
    ensures Convertible(v)
  {
    match a
    case Value(w) => ScalarBack(w)
    case List(l) => ListBack(l)
    case Map(kvs) => Sdk.Map(EntriesBack(kvs))
  }

  /** `From<AnyValue> for LogValue`: the four scalars; anything else panics. */
  function LogValueOf(v: Sdk.AnyValue): (r: Outcome<LogValue>)
    ensures r.Ok? <==> IsScalar(v)
    ensures r.Ok? ==> ScalarBack(r.value) == v
    ensures r.Abort? ==> r.reason == UNSUPPORTED
  {
    match v
    case Int(i) => Ok(LogValue.Int(i))
    case Double(d) => Ok(LogValue.Double(d))
    case String(s) => Ok(LogValue.String(s))
    case Boolean(b) => Ok(LogValue.Boolean(b))
    case _ => Abort(UNSUPPORTED)
  }

  /** `From<Box<Vec<AnyValue>>> for LogList`: element by element, so any non-scalar element panics. */
  function ListOf(items: seq<Sdk.AnyValue>): (r: Outcome<LogList>)
    ensures r.Ok? <==> IsFlatList(Sdk.ListAny(items))
    ensures r.Ok? ==> r.value.List? && ListBack(r.value) == Sdk.ListAny(items)
    ensures r.Abort? ==> r.reason == UNSUPPORTED
  {
    var ws :- Seqs.MapAll(items, LogValueOf);
    assert Seqs.Map(ws, ScalarBack) == items;
    Ok(LogList.List(ws))
  }

  /** One arm of the closure in `map_to_kv_list`: a nested map (or any other variant) panics. */
  function MapValueOf(v: Sdk.AnyValue): (r: Outcome<LogMapValue>)
    ensures r.Ok? <==> IsMapValue(v)
    ensures r.Ok? ==> MapValueBack(r.value) == v
    ensures r.Abort? ==> r.reason == UNSUPPORTED
  {
    match v
    case Bytes(b) => Ok(LogMapValue.List(LogList.Bytes(b)))
    case ListAny(items) =>
      var l :- ListOf(items);
      Ok(LogMapValue.List(l))
    case Int(i) => Ok(LogMapValue.Value(LogValue.Int(i)))
    case Double(d) => Ok(LogMapValue.Value(LogValue.Double(d)))
    case String(s) => Ok(LogMapValue.Value(LogValue.String(s)))
    case Boolean(b) => Ok(LogMapValue.Value(LogValue.Boolean(b)))
    case _ => Abort(UNSUPPORTED)
  }

  function EntryOf(e: (string, Sdk.AnyValue)): (r: Outcome<LogMapKeyValue>)
    ensures r.Ok? <==> IsMapValue(e.1)
    ensures r.Ok? ==> r.value.key == e.0 && MapValueBack(r.value.value) == e.1
    ensures r.Abort? ==> r.reason == UNSUPPORTED
  {
    var value :- MapValueOf(e.1);
    Ok(LogMapKeyValue(e.0, value))
  }

  /**
   * `map_to_kv_list`: one entry per key of the map, in its iteration order, each key as its
   * string and each value converted; the first value that is not a scalar or flat list panics.
   */
  function MapToKvList(entries: seq<(string, Sdk.AnyValue)>): (r: Outcome<seq<LogMapKeyValue>>)
    ensures r.Ok? <==> forall i :: 0 <= i < |entries| ==> IsMapValue(entries[i].1)
    ensures r.Ok? ==> EntriesBack(r.value) == entries
    ensures r.Abort? ==> r.reason == UNSUPPORTED
  {
    var kvs :- Seqs.MapAll(entries, EntryOf);
    assert EntriesBack(kvs) == entries;
    Ok(kvs)
  }

  /**
   * `From<AnyValue> for LogAny` (owned and borrowed alike): scalars to `Value`, bytes and lists
   * to `List`, maps through `map_to_kv_list`; any other variant panics. The result stands for
   * exactly the value converted.
   */
  function LogAnyOf(v: Sdk.AnyValue): (r: Outcome<LogAny>)
    ensures r.Ok? <==> Convertible(v)
    ensures r.Ok? ==> LogAnyBack(r.value) == v
    ensures r.Abort? ==> r.reason == UNSUPPORTED
  {
    match v
    case Bytes(b) => Ok(LogAny.List(LogList.Bytes(b)))
    case ListAny(items) =>
      var l :- ListOf(items);
      Ok(LogAny.List(l))
    case Map(entries) =>
      var kvs :- MapToKvList(entries);
      Ok(LogAny.Map(kvs))
    case Int(i) => Ok(LogAny.Value(LogValue.Int(i)))
    case Double(d) => Ok(LogAny.Value(LogValue.Double(d)))
    case String(s) => Ok(LogAny.Value(LogValue.String(s)))
    case Boolean(b) => Ok(LogAny.Value(LogValue.Boolean(b)))
    case OtherAny => Abort(UNSUPPORTED)
  }

  lemma ScalarRoundTrip(w: LogValue)
    ensures LogValueOf(ScalarBack(w)) == Ok(w)
  {
  }

  lemma {:induction false} ListRoundTrip(l: LogList)
    requires l.List?
    ensures ListOf(ListBack(l).items) == Ok(l)
  {
    var items := ListBack(l).items;
    forall i | 0 <= i < |items| ensures LogValueOf(items[i]) == Ok(l.values[i]) {
      ScalarRoundTrip(l.values[i]);
    }
    assert Seqs.MapAll(items, LogValueOf).value == l.values;
  }

  lemma MapValueRoundTrip(m: LogMapValue)
    ensures MapValueOf(MapValueBack(m)) == Ok(m)
  {
    match m
    case Value(w) => ScalarRoundTrip(w);
    case List(l) =>
      if l.List? {
        ListRoundTrip(l);
      }
  }

  /**
   * Every boundary value is the conversion of the SDK value it stands for: with
   * `LogAnyOf`'s own contract, conversion is a bijection between the convertible SDK values
   * and the boundary values.
   */
  lemma {:induction false} LogAnyRoundTrip(a: LogAny)
    ensures LogAnyOf(LogAnyBack(a)) == Ok(a)
  {
    match a
    case Value(w) => ScalarRoundTrip(w);
    case List(l) =>
      if l.List? {
        ListRoundTrip(l);
      }
    case Map(kvs) =>
      var entries := EntriesBack(kvs);
      forall i | 0 <= i < |entries| ensures EntryOf(entries[i]) == Ok(kvs[i]) {
        MapValueRoundTrip(kvs[i].value);
      }
      assert Seqs.MapAll(entries, EntryOf).value == kvs;
  }

  /** A map nested in a map value panics, wherever it sits among the entries. */
  lemma NestedMapPanics(entries: seq<(string, Sdk.AnyValue)>, i: nat)
    requires i < |entries| && entries[i].1.Map?
    ensures LogAnyOf(Sdk.Map(entries)) == Abort(UNSUPPORTED)
  {
  }

  // ---- attributes and the record -----------------------------------------------------------

  /** `From<&(Key, AnyValue)> for LogRecordAttribute`. */
  function AttributeOf(kv: (string, Sdk.AnyValue)): (r: Outcome<LogRecordAttribute>)
    ensures r.Ok? <==> Convertible(kv.1)
    ensures r.Ok? ==> r.value.key == kv.0 && LogAnyBack(r.value.value) == kv.1
    ensures r.Abort? ==> r.reason == UNSUPPORTED
  {
    var value :- LogAnyOf(kv.1);
    Ok(LogRecordAttribute(kv.0, value))
  }

  function OptionalAny(body: Option<Sdk.AnyValue>): (r: Outcome<Option<LogAny>>)
    ensures r.Ok? <==> (body.Some? ==> Convertible(body.value))
    ensures r.Ok? ==> (r.value.Some? <==> body.Some?)
    ensures r.Ok? && body.Some? ==> LogAnyBack(r.value.value) == body.value
    ensures r.Abort? ==> r.reason == UNSUPPORTED
  {
    match body
    case None => Ok(None)
    case Some(v) =>
      var a :- LogAnyOf(v);
      Ok(Some(a))
  }

  predicate TimesConvertible(rec: Sdk.LogRecord)
  {
    && (rec.timestamp.Some? ==> rec.timestamp.value >= 0)
    && (rec.observedTimestamp.Some? ==> rec.observedTimestamp.value >= 0)
  }

  predicate ValuesConvertible(rec: Sdk.LogRecord)
  {
    && (rec.body.Some? ==> Convertible(rec.body.value))
    && forall i :: 0 <= i < |rec.attributes| ==> Convertible(rec.attributes[i].1)
  }

  /**
   * `From<&mut SdkLogRecord> for LogRecord`, fields in the order the struct literal evaluates
   * them. The record fails exactly when a time precedes the epoch or a value does not fit the
   * boundary's shape, and a bad time is reported before a bad value.
   */
  function LogRecordOf(rec: Sdk.LogRecord): (r: Outcome<LogRecord>)
    ensures r.Ok? <==> TimesConvertible(rec) && ValuesConvertible(rec)
    ensures r.Abort? ==> r.reason == (if TimesConvertible(rec) then UNSUPPORTED else RustTypes.BEFORE_EPOCH)
  {
    var timestamp :- RustTypes.OptionalTime(rec.timestamp);
    var observed :- RustTypes.OptionalTime(rec.observedTimestamp);
    var body :- OptionalAny(rec.body);
    var attributes :- Seqs.MapAll(rec.attributes, AttributeOf);
    Ok(LogRecord(
      rec.eventName,
      timestamp,
      observed,
      match rec.severityNumber case None => None case Some(s) => Some(SeverityToWasi(s)),
      rec.severityText,
      body,
      attributes))
  }

  /** Every optional field keeps `Some`/`None`; texts are copied, times keep their instant, levels their name. */
  lemma LogRecordFields(rec: Sdk.LogRecord, r: LogRecord)
    requires LogRecordOf(rec) == Ok(r)
    ensures r.eventName == rec.eventName && r.severityText == rec.severityText
    ensures r.timestamp.Some? <==> rec.timestamp.Some?
    ensures r.timestamp.Some? ==> RustTypes.Instant(r.timestamp.value) == rec.timestamp.value
    ensures r.observedTimestamp.Some? <==> rec.observedTimestamp.Some?
    ensures r.observedTimestamp.Some? ==> RustTypes.Instant(r.observedTimestamp.value) == rec.observedTimestamp.value
    ensures r.severity.Some? <==> rec.severityNumber.Some?
    ensures r.severity.Some? ==> SeverityFromWasi(r.severity.value) == rec.severityNumber.value
  {
  }

  /** The body is present exactly when the record has one, and the attributes are all kept, in order. */
  lemma LogRecordValues(rec: Sdk.LogRecord, r: LogRecord)
    requires LogRecordOf(rec) == Ok(r)
    ensures r.body.Some? <==> rec.body.Some?
    ensures r.body.Some? ==> LogAnyBack(r.body.value) == rec.body.value
    ensures |r.attributes| == |rec.attributes|
    ensures forall i :: 0 <= i < |rec.attributes| ==>
      r.attributes[i].key == rec.attributes[i].0 && LogAnyBack(r.attributes[i].value) == rec.attributes[i].1
  {
  }
}
