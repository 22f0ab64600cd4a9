/**
 * The JavaScript SDK values the TypeScript revision reads (`@opentelemetry/api`,
 * `@opentelemetry/api-logs`, `@opentelemetry/sdk-trace-base`, `@opentelemetry/sdk-logs`). A
 * JavaScript number is an IEEE binary64 pattern; an object's properties are listed in the order
 * `Object.entries` yields them.
 */
module TsSdk {
  import opened Wrappers
  import opened Numbers

  /** `HrTime`: `[seconds, nanoseconds]`, within the ranges the WIT `datetime` accepts. */
  datatype HrTime = HrTime(seconds: U64, nanoseconds: U32)

  /**
   * `AttributeValue`: a scalar, or an array of one scalar type whose entries may be null or
   * undefined (`None`). `Undefined` stands for a missing value.
   */
  datatype AttributeValue =
    | AString(s: string)
    | ABool(b: bool)
    | ANumber(f: F64Bits)
    | AStringArray(strings: seq<Option<string>>)
    | ABoolArray(bools: seq<Option<bool>>)
    | ANumberArray(numbers: seq<Option<F64Bits>>)
    | AUndefined

  /** `Attributes`, or `undefined` when `None`. */
  type Attributes = Option<seq<(string, AttributeValue)>>

  /** `AnyValue` of the logs API: scalars, a byte array, arrays and maps of values, null, undefined. */
  datatype AnyValue =
    | Str(s: string)
    | Num(f: F64Bits)
    | Boolean(b: bool)
    | Bytes(bytes: seq<U8>)
    | List(items: seq<AnyValue>)
    | Map(entries: seq<(string, AnyValue)>)
    | Null
    | Undefined

  /** JavaScript truthiness of a log value: only objects and arrays are truthy whatever they hold. */
  predicate Truthy(v: AnyValue)
  {
    match v
    case Str(s) => s != ""
    case Num(f) => !IsZero(f) && !IsNaN(f)
    case Boolean(b) => b
    case Null => false
    case Undefined => false
    case _ => true
  }

  /** `InstrumentationScope` of `@opentelemetry/core`. */
  datatype InstrumentationScope = InstrumentationScope(
    name: string,
    version: Option<string>,
    schemaUrl: Option<string>)

  /** `SpanContext` of the tracing API; its conversion to the WIT record is outside this model. */
  datatype SpanContext = SpanContext(
    traceId: string,
    spanId: string,
    traceFlags: int,
    isRemote: Option<bool>)

  /** The `SpanKind` enumeration, whose members are numbered 0 to 4 in this order. */
  datatype SpanKind = INTERNAL | SERVER | CLIENT | PRODUCER | CONSUMER
  {
    function Ordinal(): (n: nat)
      ensures n < 5
    {
      match this
      case INTERNAL => 0
      case SERVER => 1
      case CLIENT => 2
      case PRODUCER => 3
      case CONSUMER => 4
    }
  }

  /** `SpanStatus`: a numeric code (0 unset, 1 ok, 2 error) and an optional message. */
  datatype SpanStatus = SpanStatus(code: int, message: Option<string>)

  datatype TimedEvent = TimedEvent(name: string, time: HrTime, attributes: Attributes)

  datatype Link = Link(context: SpanContext, attributes: Attributes)

  /** `ReadableSpan`, with the three dropped counters in the range of the WIT `u32`. */
  datatype ReadableSpan = ReadableSpan(
    name: string,
    kind: SpanKind,
    spanContext: SpanContext,
    parentSpanId: Option<string>,
    startTime: HrTime,
    endTime: HrTime,
    status: SpanStatus,
    attributes: Attributes,
    links: seq<Link>,
    events: seq<TimedEvent>,
    instrumentationLibrary: InstrumentationScope,
    droppedAttributesCount: U32,
    droppedEventsCount: U32,
    droppedLinksCount: U32)

  /** The resource of a log record: its attributes and optional schema URL. */
  datatype Resource = Resource(attributes: seq<(string, AnyValue)>, schemaUrl: Option<string>)

  /** `SdkLogRecord`; `body` is `Undefined` when the record has none. */
  datatype SdkLogRecord = SdkLogRecord(
    hrTime: Option<HrTime>,
    hrTimeObserved: Option<HrTime>,
    severityText: Option<string>,
    severityNumber: Option<U8>,
    body: AnyValue,
    attributes: Option<seq<(string, AnyValue)>>,
    eventName: Option<string>,
    resource: Resource,
    instrumentationScope: InstrumentationScope)
}
