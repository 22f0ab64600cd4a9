/**
 * The records that cross the WebAssembly component boundary (the `wasi:otel` WIT world and
 * `wasi:clocks/wall-clock`). Revisions of the world differ in how an attribute value travels:
 * the older one as the tagged union `Value`, the `0.2.0-draft` one as JSON text. The records
 * that carry attributes are therefore generic in the value type `V`.
 */
module Schema {
  import opened Wrappers
  import opened Numbers

  /** `wasi:clocks/wall-clock.datetime`. */
  datatype Datetime = Datetime(seconds: U64, nanoseconds: U32)

  /** The tagged attribute value of the older WIT revision. */
  datatype Value =
    | Bool(b: bool)
    | S64(i: I64)
    | F64(f: F64Bits)
    | String(s: string)
    | BoolArray(bools: seq<bool>)
    | S64Array(ints: seq<I64>)
    | F64Array(floats: seq<F64Bits>)
    | StringArray(strings: seq<string>)

  datatype KeyValue<V> = KeyValue(key: string, value: V)

  /** `trace-flags`: a bit set whose only defined bit is `sampled`. */
  const SAMPLED: U8 := 1

  predicate IsSampled(flags: U8)
  {
    flags % 2 == 1
  }

  /** A span context as the host sees it: ids as hexadecimal text, trace state as pairs. */
  datatype SpanContext = SpanContext(
    traceId: string,
    spanId: string,
    traceFlags: U8,
    isRemote: bool,
    traceState: seq<(string, string)>)

  /** `span-kind`; `Tag` is the enum discriminant of the generated C binding. */
  datatype SpanKind = Client | Server | Producer | Consumer | Internal
  {
    function Tag(): (t: U8)
      ensures t < 5
    {
      match this
      case Client => 0
      case Server => 1
      case Producer => 2
      case Consumer => 3
      case Internal => 4
    }
  }

  /** The span kind whose generated discriminant is `t`; `None` outside 0..4. */
  function SpanKindOfTag(t: int): (k: Option<SpanKind>)
    ensures k.Some? <==> 0 <= t < 5
    ensures k.Some? ==> k.value.Tag() == t
  {
    if t == 0 then Some(Client)
    else if t == 1 then Some(Server)
    else if t == 2 then Some(Producer)
    else if t == 3 then Some(Consumer)
    else if t == 4 then Some(Internal)
    else None
  }

  datatype Status = StatusUnset | StatusOk | StatusError(description: string)

  datatype Event<V> = Event(name: string, time: Datetime, attributes: seq<KeyValue<V>>)

  datatype Link<V> = Link(spanContext: SpanContext, attributes: seq<KeyValue<V>>)

  datatype InstrumentationScope<V> = InstrumentationScope(
    name: string,
    version: Option<string>,
    schemaUrl: Option<string>,
    attributes: seq<KeyValue<V>>)

  datatype Resource<V> = Resource(attributes: seq<KeyValue<V>>, schemaUrl: Option<string>)

  datatype SpanData<V> = SpanData(
    spanContext: SpanContext,
    parentSpanId: string,
    spanKind: SpanKind,
    name: string,
    startTime: Datetime,
    endTime: Datetime,
    attributes: seq<KeyValue<V>>,
    events: seq<Event<V>>,
    links: seq<Link<V>>,
    status: Status,
    instrumentationScope: InstrumentationScope<V>,
    droppedAttributes: U32,
    droppedEvents: U32,
    droppedLinks: U32)

  /** `wasi:otel/logs.log-record` of the `0.2.0-draft` world: every field optional. */
  datatype LogRecord = LogRecord(
    timestamp: Option<Datetime>,
    observedTimestamp: Option<Datetime>,
    severityText: Option<string>,
    severityNumber: Option<U8>,
    body: Option<string>,
    attributes: Option<seq<KeyValue<string>>>,
    eventName: Option<string>,
    resource: Option<Resource<string>>,
    instrumentationScope: Option<InstrumentationScope<string>>,
    traceId: Option<string>,
    spanId: Option<string>,
    traceFlags: Option<U8>)
}
