# opentelemetry-wasi, modelled in Dafny

opentelemetry-wasi lets a WebAssembly guest hand its OpenTelemetry data to the host through the
`wasi:otel` WIT interfaces. Each guest library has two parts. The first is a boundary-conversion
layer: it turns the SDK's spans, span contexts, log records, attribute values and metrics into the
WIT records, and in a few places turns them back. The second is a set of processors and exporters
whose shutdown is a one-way switch. The repository holds Rust, Go and TypeScript revisions of this
layer side by side, and they do not always agree. This project models every revision as its own
behaviour:

- One Dafny module per core source file, for example `RustTracing` for
  `rust/src/tracing/conversion.rs` and `GoWasip2Conversion` for `go/wasip2/conversion.go`.
- Shared modules describe the WIT boundary records (`Schema`, `MetricsSchema`) and the values each
  SDK hands the layer (`RustSdk`, `GoSdk`, `TsSdk`).
- `Hex`, `Base64` (section 4 of RFC 4648, with the `data:` URL of section 2 of RFC 2397), `Json`
  (RFC 8259 text with serde/JavaScript or Go escaping), `Utf8` (RFC 3629 validity) and
  `TraceState` (section 3.3 of W3C Trace Context) are implemented and proved on their own.
- `Lifecycle` states the shutdown state machine once, as functions of the calls made so far.
  Each processor class is proved against it.

Conventions:

- A Rust panic (`unwrap`, `expect`, `unimplemented!`), a Go `panic` and a JavaScript `throw` are
  `Outcome.Abort` with the message.
- Host imports are `Lifecycle.Channel` objects that record what they are sent. Where the host can
  answer with an error, its reply is a parameter or a field.
- Floating-point numbers are IEEE binary64 bit patterns. Only their classification is
  interpreted: finite, NaN or infinite, integral and its exact value. Decimal text of a float is
  the formatter parameter `ft`.
- The wall clock read by Go's `extractTimestamps` is the parameter `now`.

Where the code and its own tests or comments disagree, the model follows the code. The
disagreements are listed under "## Findings".

## Model

| member | source | states |
|---|---|---|
| TraceState.FromKeyValue | rust/src/tracing/conversion.rs:53-54 | a list is accepted, unchanged, exactly when every key and value follows the W3C trace-context grammar, and what is accepted is separator free, so its header reads back |
| TraceState.MemberRoundTrip | rust/src/tracing/conversion.rs:36-37 | a member with no ',' and no '=' in its key and no ',' in its value has a `key=value` text without ',' that splits at its first '=' back into the member |
| TraceState.ValidSeparatorFree | rust/src/tracing/conversion.rs:31-42 | every well-formed trace state is separator free |
| TraceState.HeaderRoundTrip | rust/src/tracing/conversion.rs:31-42 | the header of a separator-free trace state, split on ',' and each piece at its first '=', gives back the members in order |
| TraceState.PairsOfDrops | rust/src/tracing/conversion.rs:35-41 | a piece without '=' is dropped and the others kept in order |
| Hex.LowerHexDigits | rust/src/tracing/conversion.rs:27-28 | `{:x}` writes lower-case hex digits with no leading zero |
| Hex.ParsePaddedHex | rust/src/tracing/conversion.rs:49-52 | `from_hex` reads a number written in hex, with or without leading zeros, back as the number |
| Hex.LowerHexFits | rust/src/tracing/conversion.rs:27-28 | an id below 16^w has at most w digits, and padded to w it has exactly w |
| Hex.EncodeBytes | go/wasip2/processor.go:39-40 | an id's `String()` is two lower-case hex digits per byte |
| Hex.DecodeEncodeBytes | go/wasip2/processor.go:39-40 | the hex text of an id decodes back to its bytes |
| Base64.EncodeLength | rust/src/logs/conversion.rs:63 | standard padded base64 has four characters per started group of three bytes |
| Base64.DecodeEncode | rust/src/logs/conversion.rs:63 | standard padded base64 decodes back to the bytes |
| Base64.DataUrl | rust/src/logs/conversion.rs:63-65 | the byte text starts with the `data:application/octet-stream;base64,` prefix |
| Base64.DataUrlRoundTrip | go/logs/conversions.go:128 | the data URL of some bytes decodes back to the bytes |
| Base64.HelloWorldDataUrl | rust/src/logs/conversion.rs:132-133 | "Hello, world!" is the data URL ending `SGVsbG8sIHdvcmxkIQ==` that the test expects |
| Json.UnquoteQuote | ts/src/logs.ts:66-67 | a string written as a JSON literal, with either escaping, reads back as the string |
| Utf8.AsciiValid | rust/src/metrics/conversion.rs:187-188 | bytes that are all ASCII are valid UTF-8, so `from_utf8` accepts them |
| Utf8.NeverOccursInvalid | rust/src/metrics/conversion.rs:187-188 | a byte that never occurs in UTF-8 makes `from_utf8` fail |
| RustSdk.SeverityOfNumber | rust/src/logs/conversion.rs:31 | a level number is defined exactly on 1..24, and then names the level with that discriminant |
| RustSdk.SeverityOfNumberOf | rust/src/logs/conversion.rs:31 | every level is recovered from its `as u8` discriminant |
| RustTypes.ValueToWasi | rust/src/types.rs:25-44 | Ok exactly for Bool, I64, F64, String and the four typed arrays, each mapped to the same-named boundary variant with its payload; every other value or array variant is `unimplemented!` (Abort) |
| RustTypes.ValueRoundTrip | rust/crates/tracing/src/conversion.rs:125-144 | the value map is one-to-one on the supported values and onto the boundary `Value`: reading a converted value back gives the original, and every boundary value is the image of one |
| RustTypes.KeyValueToWasi | rust/src/types.rs:7-23 | the key is copied and the value converted; Ok exactly when the value is supported; the owned and borrowed forms give the same result |
| RustTypes.AttributesToWasi | rust/src/tracing/conversion.rs:12 | attribute lists convert element-wise: Ok exactly when every value is supported, with count, order and each element kept |
| RustTypes.DatetimeOf | rust/src/types.rs:46-56 | a time at or after the epoch splits into whole seconds and sub-second nanoseconds (< 10^9) that recompose to the time; a time before the epoch aborts with the `expect` message |
| RustTypes.DatetimeRoundTrip | rust/src/types/conversion.rs:4-14 | every normalised boundary date-time is exactly what the conversion makes of the instant it denotes |
| RustTypes.OptionalTime | rust/crates/logs/src/conversion.rs:13-20 | an optional time stays absent when absent and converts when present; aborts only for a present time before the epoch |
| RustTypes.DatetimeMonotonic | rust/crates/tracing/src/conversion.rs:95-105 | a later instant never converts to an earlier date-time (seconds first, then nanoseconds) |
| RustTracing.TraceFlagsToWasi | rust/src/tracing/conversion.rs:65-73 | the boundary flags are SAMPLED or empty, and sampled exactly when the SDK flags are |
| RustTracing.TraceFlagsRoundTrip | rust/src/tracing/conversion.rs:75-79 | out and back keeps only the sampled bit; the flags the forward map writes come back unchanged |
| RustTracing.SpanContextToWasi | rust/src/tracing/conversion.rs:24-45 | flags and remote bit converted; the trace state rebuilt from the header split on ',' and each piece at its first '=' equals the original list of members |
| RustTracing.TraceIdFromHex | rust/src/tracing/conversion.rs:49-50 | a parseable hexadecimal trace id gives its value, anything else the INVALID id 0 |
| RustTracing.SpanIdFromHex | rust/src/tracing/conversion.rs:51-52 | a parseable hexadecimal span id gives its value, anything else the INVALID id 0 |
| RustTracing.SpanContextFromWasi | rust/src/tracing/conversion.rs:47-63 | a valid trace state is kept, a rejected one becomes the empty default; flags bits and is_remote are copied; it never fails |
| RustTracing.SpanContextRoundTrip | rust/crates/tracing/src/conversion.rs:26-65 | out and back gives the same context with only the sampled bit left of the flags |
| RustTracing.SpanContextFromWasiRoundTrip | rust/crates/tracing/src/conversion.rs:49-65 | back and out reproduces a boundary context written in the forward map's form (unpadded ids, flags 0 or 1, a valid trace state) |
| RustTracing.SpanContextFromWasiPadded | rust/src/tracing/conversion.rs:49-52 | zero-padded 32- and 16-digit ids read back as their values |
| RustTracing.SpanContextFromWasiRejectsState | rust/src/tracing/conversion.rs:53-54 | one invalid trace-state member replaces the whole state with the empty default |
| RustTracing.SpanContextFromWasiInvalidIds | rust/crates/tracing/src/conversion.rs:51-54 | non-hexadecimal id text gives the INVALID ids |
| RustTracing.UnpaddedIds | rust/src/tracing/conversion.rs:27-28 | as written, the all-zero trace id is written "0" and the span id of eight 0x01 bytes "101010101010101": neither has the fixed width of 32 or 16 digits |
| RustTracing.OnesSpanIdText | rust/src/tracing/conversion.rs:173 | the span id of eight 0x01 bytes formats as "101010101010101", as the unit test asserts |
| RustTracing.SpanContextToWasiPadded | rust/crates/tracing/src/conversion.rs:29-30 | corrected form: ids written with exactly 32 and 16 digits, and the reverse conversion still recovers the context |
| RustTracing.SpanKindBijective | rust/src/tracing/conversion.rs:81-91 | the five span kinds map one to one and onto |
| RustTracing.StatusBijective | rust/src/tracing/conversion.rs:112-122 | Unset and Ok map to the unit variants and Error to Error with its description; the map is a bijection |
| RustTracing.EventToWasi | rust/src/tracing/conversion.rs:93-101 | name copied, time denotes the event's instant, attributes converted; Ok exactly when the time is after the epoch and every attribute is supported |
| RustTracing.LinkToWasi | rust/src/tracing/conversion.rs:103-110 | the span context converted as above and the attributes converted; Ok exactly when every attribute is supported |
| RustTracing.ScopeToWasi | rust/crates/tracing/src/conversion.rs:177-186 | name, version and schema URL copied and the attributes converted; Ok exactly when every attribute is supported |
| RustTracing.ParentSpanIdText | rust/src/tracing/conversion.rs:7 | the parent span id's `Display` is sixteen digits that parse back to the id |
| RustTracing.SpanDataToWasi | rust/src/tracing/conversion.rs:3-22 | Ok exactly when the times are after the epoch and every attribute of the span, its events, links and scope is supported |
| RustTracing.SpanDataHeader | rust/src/tracing/conversion.rs:8-9 | name copied; kind and status are the mapped ones |
| RustTracing.SpanDataDropped | rust/src/tracing/conversion.rs:17-19 | dropped_attributes from the span, dropped_events from events.dropped_count, dropped_links from links.dropped_count |
| RustTracing.SpanDataContext | rust/src/tracing/conversion.rs:6 | the span's own context is converted by the span-context map |
| RustTracing.SpanDataParent | rust/src/tracing/conversion.rs:7 | the parent span id is sixteen digits that read back as the parent |
| RustTracing.SpanDataTimes | rust/src/tracing/conversion.rs:10-16 | start and end times denote the span's instants; attributes and scope are the converted ones |
| RustTracing.SpanDataLists | rust/src/tracing/conversion.rs:13-14 | events and links are converted element by element, count and order kept |
| RustTracing.SpanDataBeforeEpoch | rust/crates/tracing/src/conversion.rs:12 | a start time before the epoch aborts with "SystemTime should be after UNIX EPOCH" |
| RustTracing.TwosText | rust/src/tracing/conversion.rs:147 | the unit test's parent id of eight 0x02 bytes formats unpadded as fifteen digits |
| RustTracing.ParentSpanIdTwos | rust/src/tracing/conversion.rs:166 | the parent span id of the unit test keeps its leading zero: "0202020202020202" |
| RustTracing.PadFifteen | rust/src/tracing/conversion.rs:166 | padding a fifteen-digit text to sixteen adds exactly one leading '0' |
| RustTracing.TestSpanConverts | rust/src/tracing/conversion.rs:139-169 | the unit test's span converts, with dropped attributes 6, name "test-name", kind Internal and status Ok |
| RustTracing.TestSpanAttributes | rust/src/tracing/conversion.rs:177-186 | the unit test's single attribute is ("foo", String "bar") and the scope name is "tst-scp" |
| RustTracing.TestSpanIds | rust/src/tracing/conversion.rs:166-175 | the unit test's ids are "0" and "101010101010101", flags SAMPLED, remote, and parent "0202020202020202" |
| RustTracing.TestSpanTimes | rust/src/tracing/conversion.rs:164-168 | the unit test's start and end times are 9876543210 and 1234567890 whole seconds |
| RustCrateLogs.SeverityToWasi | rust/crates/logs/src/conversion.rs:38-68 | each of the 24 SDK levels maps to the boundary level of the same name, so no two levels meet (the name-wise inverse recovers it) |
| RustCrateLogs.SeverityToWasiOnto | rust/crates/logs/src/conversion.rs:41-66 | every boundary level is reached; with the left inverse the level map is a bijection |
| RustCrateLogs.LogValueOf | rust/crates/logs/src/conversion.rs:138-149 | Int, Double, String and Boolean convert to the same scalar, which reads back as the value; anything else panics with "unsupported data type" |
| RustCrateLogs.ListOf | rust/crates/logs/src/conversion.rs:132-136 | a list converts element by element; Ok exactly when every element is a scalar, and it reads back as the list; otherwise the panic |
| RustCrateLogs.MapValueOf | rust/crates/logs/src/conversion.rs:178-186 | a map entry's value may be a scalar, bytes or a list of scalars; a nested map or any other variant panics |
| RustCrateLogs.EntryOf | rust/crates/logs/src/conversion.rs:177-191 | one entry keeps its key and converts its value under the same rule |
| RustCrateLogs.MapToKvList | rust/crates/logs/src/conversion.rs:172-194 | `map_to_kv_list`: Ok exactly when every entry's value fits a map value, and the entries read back as the map's entries |
| RustCrateLogs.LogAnyOf | rust/crates/logs/src/conversion.rs:70-84 | scalars become `Value`, bytes and lists `List`, maps `Map`; Ok exactly for the values the two-level shape can hold, and the result reads back as the value; otherwise "unsupported data type" |
| RustCrateLogs.ScalarRoundTrip | rust/crates/logs/src/conversion.rs:102-124 | every boundary scalar is the conversion of the SDK scalar it stands for |
| RustCrateLogs.ListRoundTrip | rust/crates/logs/src/conversion.rs:126-136 | every boundary list of scalars is the conversion of the SDK list it stands for |
| RustCrateLogs.MapValueRoundTrip | rust/crates/logs/src/conversion.rs:178-184 | every boundary map value is the conversion of the SDK value it stands for |
| RustCrateLogs.LogAnyRoundTrip | rust/crates/logs/src/conversion.rs:86-100 | every boundary `LogAny` is the conversion of the SDK value it stands for: with `LogAnyOf` reading back, the conversion is a bijection onto the boundary type |
| RustCrateLogs.NestedMapPanics | rust/crates/logs/src/conversion.rs:185 | a map nested in a map value panics, wherever it sits among the entries |
| RustCrateLogs.AttributeOf | rust/crates/logs/src/conversion.rs:151-158 | an attribute keeps its key and converts its value; it panics exactly when the value does |
| RustCrateLogs.OptionalAny | rust/crates/logs/src/conversion.rs:29-32 | the body stays absent when absent; a present body converts or panics |
| RustCrateLogs.LogRecordOf | rust/crates/logs/src/conversion.rs:6-36 | Ok exactly when the times are after the epoch and the body and attributes fit the shape; the abort names the `expect` or the panic that fires |
| RustCrateLogs.LogRecordFields | rust/crates/logs/src/conversion.rs:9-28 | event name and severity text copied; each optional time and the severity keep Some/None, times their instant, levels their name |
| RustCrateLogs.LogRecordValues | rust/crates/logs/src/conversion.rs:29-33 | the body is present exactly when the record has one and reads back as it; every attribute is kept, in order |
| RustLogs.ToJson | rust/src/logs/conversion.rs:51-80 | Ok exactly for values built from Boolean, Int, Double, String, Bytes, ListAny and Map; any other variant is `unimplemented!` |
| RustLogs.SerializeMap | rust/src/logs/conversion.rs:70-76 | the map arm's loop writes one entry per key, in the order visited, each value serialised recursively; its result is the tree `ToJson` gives the map |
| RustLogs.MapMembers | rust/src/logs/conversion.rs:71-75 | whatever the iteration order, each key is written exactly once, with its own value's JSON |
| RustLogs.PlainSerializable | rust/src/logs/conversion.rs:56-76 | every value without NaN, infinities or data-URL-looking strings serialises without reaching `unimplemented!` |
| RustLogs.FromJsonToJson | rust/src/logs/conversion.rs:123-141 | what the unit test relies on: parsing the JSON back gives the original value for finite doubles and ordinary strings, at every depth |
| RustLogs.NonFiniteIsNull | rust/src/logs/conversion.rs:59 | a NaN or infinite double is written as `null`, so its value does not survive the trip |
| RustLogs.JsonText | rust/src/logs/conversion.rs:27 | `to_json` yields text exactly for serialisable values |
| RustLogs.BytesText | rust/src/logs/conversion.rs:61-66 | bytes are a JSON string holding "data:application/octet-stream;base64," and the standard base64 encoding, which decodes back to the bytes |
| RustLogs.HelloWorldBytes | rust/src/logs/conversion.rs:133 | "Hello, world!" is written as "data:application/octet-stream;base64,SGVsbG8sIHdvcmxkIQ==", as the unit test expects |
| RustLogs.MapToObject | rust/src/logs/conversion.rs:70-76 | a map is the JSON object whose members are its keys with their values' trees |
| RustLogs.ListToArray | rust/src/logs/conversion.rs:67-69 | a list is the JSON array of its items' trees, in order |
| RustLogs.TestMapJson | rust/src/logs/conversion.rs:89-141 | the unit test's map serialises to the expected object, leaf by leaf, nested map included |
| RustLogs.KeyValueToWasi | rust/src/logs/conversion.rs:41-48 | an attribute keeps its key, and its value becomes the value's JSON text |
| RustLogs.OptionalText | rust/src/logs/conversion.rs:27 | the body stays absent when absent and is the JSON text when present |
| RustLogs.AttributesToWasi | rust/src/logs/conversion.rs:32 | every attribute converted, count and order kept; aborts where a value cannot be serialised |
| RustLogs.TraceFields | rust/src/logs/conversion.rs:13-23 | with a trace context, the ids as `{:x}` text and the flags mapped when present; without one, all three are None |
| RustLogs.LogRecordToWasi | rust/src/logs/conversion.rs:8-39 | Ok exactly when the times are after the epoch, the body and every attribute serialise, the scope converts and the resource (when given) converts; a failing scope or resource conversion aborts with its own reason |
| RustLogs.LogRecordTimes | rust/src/logs/conversion.rs:26-29 | times and body keep Some/None with no defaulting, and carry the same instant and the body's JSON text |
| RustLogs.LogRecordHeader | rust/src/logs/conversion.rs:28-34 | event name and severity text copied; the severity number cast to u8 names the same level; scope always present as its conversion; resource present exactly when given, as its conversion |
| RustLogs.LogRecordAttributes | rust/src/logs/conversion.rs:32 | the attribute list is always present and holds every attribute, in order, each value as JSON text |
| RustLogs.LogRecordTrace | rust/src/logs/conversion.rs:13-37 | without a trace context the three trace fields are None; with one the ids are `{:x}` text and the flags present exactly when the context has them |
| RustCrateMetrics.ResourceOf | rust/crates/metrics/src/conversion.rs:46-60 | the resource converts to one key-value per attribute, in iteration order, with the schema URL kept; Ok exactly when every attribute value is supported |
| RustCrateMetrics.ResourceToWasi | rust/crates/metrics/src/conversion.rs:30-44 | the push loop builds the same resource as `ResourceOf`, and fails exactly when an attribute value is unsupported |
| RustCrateMetrics.TemporalityToWasi | rust/crates/metrics/src/conversion.rs:144-152 | Cumulative and Delta map to the boundary temporality that reads back as themselves; every other temporality becomes `LowMemory` |
| RustCrateMetrics.DataPointToWasi | rust/crates/metrics/src/conversion.rs:154-206 | a data point of any width keeps its attribute count, its optional start and end times (present exactly when the source has them, same instant) and its exemplars one to one; the value and each exemplar value carry the width's tag |
| RustCrateMetrics.HistogramPointToWasi | rust/crates/metrics/src/conversion.rs:208-275 | count, bounds and bucket counts are copied; min, max and sum are tagged with the width; times, attributes and exemplars are kept |
| RustCrateMetrics.AggregationOfToWasi | rust/crates/metrics/src/conversion.rs:104-137 | a recognised aggregation keeps its kind, its data points one to one, and for sums and histograms the mapped temporality and the monotonicity flag |
| RustCrateMetrics.ConvertAggregation | rust/crates/metrics/src/conversion.rs:102-142 | gauges and sums of the three widths and histograms of f64 and u64 are converted with their kind kept; any other aggregation panics with "ERROR" |
| RustCrateMetrics.ConvertAggregationTagged | rust/crates/metrics/src/conversion.rs:102-142 | the boundary aggregation has no width, but every number inside a converted aggregation carries the tag of the width it came from |
| RustCrateMetrics.MetricToWasi | rust/crates/metrics/src/conversion.rs:91-100 | name, description and unit are copied verbatim and the data goes through `convert_aggregation`, so an unrecognised aggregation aborts the metric |
| RustCrateMetrics.ScopeMetricsToWasi | rust/crates/metrics/src/conversion.rs:71-78 | the scope is converted and the metrics are converted one to one in order; one unrecognised aggregation aborts the whole scope |
| RustCrateMetrics.ResourceMetricsOf | rust/crates/metrics/src/conversion.rs:12-28 | the resource and every scope are converted, in order; an unsupported resource attribute aborts the batch |
| RustCrateMetrics.ResourceMetricsToWasi | rust/crates/metrics/src/conversion.rs:21-28 | the conversion that copies the resource attributes with the push loop produces exactly `ResourceMetricsOf` |
| RustMetrics.TemporalityToWasi | rust/src/metrics/conversion.rs:171-179 | Cumulative, Delta and LowMemory keep their name; any other temporality becomes `Cumulative` |
| RustMetrics.IdUtf8 | rust/src/metrics/conversion.rs:187-188 | `String::from_utf8(..).unwrap()` succeeds exactly on valid UTF-8 and then keeps the bytes; otherwise it panics |
| RustMetrics.IdHex | rust/src/metrics/conversion.rs:181-191 | the intended id text: two lower-case hex digits per byte, always valid UTF-8, and decoding it gives back the id bytes |
| RustMetrics.ExemplarToWasi | rust/src/metrics/conversion.rs:181-215 | an exemplar keeps its filtered attributes, time and tagged value; as written the ids are the raw bytes and the conversion fails exactly when they are not UTF-8 |
| RustMetrics.ExemplarsToWasi | rust/src/metrics/conversion.rs:50 | exemplars are converted one to one, in order; one failure fails the list |
| RustMetrics.GaugePointToWasi | rust/src/metrics/conversion.rs:47-51 | a gauge point keeps its attribute and exemplar counts, and its value and exemplar values are tagged |
| RustMetrics.SumPointToWasi | rust/src/metrics/conversion.rs:63-67 | a sum point keeps its attribute and exemplar counts, and its value and exemplar values are tagged |
| RustMetrics.HistogramPointToWasi | rust/src/metrics/conversion.rs:81-90 | count, bounds and bucket counts are copied; min, max and sum are tagged |
| RustMetrics.BucketToWasi | rust/src/metrics/conversion.rs:162-169 | an exponential bucket keeps its offset and its counts in order |
| RustMetrics.ExponentialPointToWasi | rust/src/metrics/conversion.rs:103-120 | the `usize` count is widened to `u64` with its value kept; scale, zero count, zero threshold and both buckets are copied; min, max and sum are tagged |
| RustMetrics.GaugeToWasi | rust/src/metrics/conversion.rs:42-57 | the points are converted one to one; the start time stays optional and the time is kept |
| RustMetrics.SumToWasi | rust/src/metrics/conversion.rs:58-75 | the points are converted one to one; both times are kept, the temporality is mapped and the monotonicity flag copied |
| RustMetrics.HistogramToWasi | rust/src/metrics/conversion.rs:76-97 | the points are converted one to one; both times are kept and the temporality is mapped |
| RustMetrics.ExponentialHistogramToWasi | rust/src/metrics/conversion.rs:98-128 | the points are converted one to one; both times are kept and the temporality is mapped |
| RustMetrics.MetricDataToWasi | rust/src/metrics/conversion.rs:33-131 | the macro picks the variant of the given width and of the same kind as the source data |
| RustMetrics.MetricDataTagged | rust/src/metrics/conversion.rs:33-131 | every number of the converted data (values, sums, minima, maxima, exemplar values) carries the tag of the width the macro was given |
| RustMetrics.AggregatedToWasi | rust/src/metrics/conversion.rs:133-160 | f64 data goes to the F64 variants, u64 to U64 and i64 to S64, with the kind kept |
| RustMetrics.AggregatedTagged | rust/src/metrics/conversion.rs:217-233 | width dispatch is consistent: every number inside the result carries the width of the source aggregation |
| RustMetrics.MetricToWasi | rust/src/metrics/conversion.rs:21-30 | name, description and unit are copied verbatim, and the data keeps its width and kind |
| RustMetrics.ScopeMetricsToWasi | rust/src/metrics/conversion.rs:12-19 | Ok exactly when the scope converts and every metric converts; a failing scope conversion aborts with its own reason; the scope and the metrics one to one, in order |
| RustMetrics.ResourceMetricsToWasi | rust/src/metrics/conversion.rs:3-10 | Ok exactly when the resource converts and every scope's metrics convert; a failing resource conversion aborts with its own reason; the resource and the scope metrics one to one, in order |
| RustMetrics.NonUtf8SpanIdPanics | rust/src/metrics/conversion.rs:187 | an exemplar whose 8-byte span id starts with 0xFF makes the as-written conversion panic |
| RustMetrics.HexIdsTotal | rust/src/metrics/conversion.rs:181-191 | with hex-encoded ids the exemplar conversion never fails on its ids, and the span id text decodes back to the span id bytes |
| Lifecycle.FlushReply | rust/crates/tracing/src/processor.rs:42-47 | `force_flush` fails exactly when the component is shut down, and then with the component's already-shut-down error |
| Lifecycle.ReplyTo | rust/crates/tracing/src/processor.rs:26-55 | a forwarding call is delivered exactly while active and dropped exactly once shut down; flush and shutdown answer with the flush reply of the state they find |
| Lifecycle.Next | rust/crates/tracing/src/processor.rs:49-55 | the flag is never cleared, and after a call it is set exactly when it was set or the call was a shutdown |
| Lifecycle.ReplyAt | rust/crates/tracing/src/processor.rs:49-55 | over any sequence of calls, each call is answered in the state left by the calls before it: shut down exactly when an earlier call was a shutdown |
| Lifecycle.BeforeShutdown | rust/src/processor.rs:52-58 | on a fresh component every call up to and including the first shutdown is delivered or succeeds |
| Lifecycle.AfterShutdown | rust/src/processor.rs:29-58 | after a shutdown nothing reaches the host, and every flush and every further shutdown fails with the already-shut-down error |
| Lifecycle.StuckDiffers | go/wasip1/traces/processor.go:77-87 | a component whose flag never latches answers the call after a shutdown differently from a latching one |
| Lifecycle.Channel.Send | rust/crates/tracing/src/processor.rs:30-39 | a host import records each value the guest hands it, appended in order |
| RustSpanProcessor.WasiSpanProcessor.constructor | rust/crates/tracing/src/processor.rs:11-23 | a new processor is not shut down |
| RustSpanProcessor.WasiSpanProcessor.OnStart | rust/crates/tracing/src/processor.rs:26-33 | the span's context reaches the host exactly when the processor is active and the span has exported data; otherwise nothing is sent |
| RustSpanProcessor.WasiSpanProcessor.OnEnd | rust/crates/tracing/src/processor.rs:35-40 | while active the converted span data is sent, and a span the conversion rejects panics without sending; once shut down nothing is sent |
| RustSpanProcessor.WasiSpanProcessor.ForceFlush | rust/crates/tracing/src/processor.rs:42-47 | fails with `AlreadyShutdown` exactly when shut down |
| RustSpanProcessor.WasiSpanProcessor.Shutdown | rust/crates/tracing/src/processor.rs:49-55 | answers with the flush reply of the state it finds, then latches the flag |
| RustSpanProcessor.ShutdownTwice | rust/crates/tracing/src/processor.rs:49-55 | on a new processor the first shutdown succeeds, and a second shutdown and a later flush fail with `AlreadyShutdown` |
| RustProcessor.WasiProcessor.constructor | rust/src/processor.rs:15-26 | a new processor is not shut down |
| RustProcessor.WasiProcessor.OnStart | rust/src/processor.rs:29-36 | the span's context reaches the host exactly when active and the span has exported data |
| RustProcessor.WasiProcessor.OnEnd | rust/src/processor.rs:38-43 | while active the converted span data is sent (a rejected span panics); once shut down nothing is sent |
| RustProcessor.WasiProcessor.ForceFlush | rust/src/processor.rs:45-50 | fails with "Processor already shutdown" exactly when shut down |
| RustProcessor.WasiProcessor.Shutdown | rust/src/processor.rs:52-58 | answers with the flush reply of the state it finds, then latches the flag |
| RustProcessor.ShutdownTwice | rust/src/processor.rs:52-58 | the first shutdown succeeds and the second fails with `Other("Processor already shutdown")` |
| RustLogProcessor.WasiLogProcessor.constructor | rust/src/logs/processor.rs:12-17 | a new processor keeps the resource it is given and is not shut down |
| RustLogProcessor.WasiLogProcessor.Emit | rust/src/logs/processor.rs:21-27 | whatever the flag, a convertible record is sent converted with the processor's own resource, and the call fails, with the conversion's reason and nothing sent, exactly when the record, the scope or the resource cannot be converted |
| RustLogProcessor.WasiLogProcessor.ForceFlush | rust/src/logs/processor.rs:29-34 | fails with `AlreadyShutdown` exactly when shut down |
| RustLogProcessor.WasiLogProcessor.Shutdown | rust/src/logs/processor.rs:36-42 | answers with the flush reply of the state it finds, then latches the flag |
| RustLogProcessor.EmitAfterShutdown | rust/src/logs/processor.rs:21-42 | after a shutdown a record is still delivered, with the resource given at construction, when the scope and resource convert, and nothing is delivered when they do not, while a flush fails |
| RustLoggingProcessor.WasiLogProcessor.constructor | rust/crates/logging/src/processor.rs:13-24 | a new processor is not shut down |
| RustLoggingProcessor.WasiLogProcessor.Emit | rust/crates/logging/src/processor.rs:27-36 | whatever the flag, a record the conversion accepts is sent; when the conversion panics nothing is sent and the call panics with its reason; otherwise the call panics exactly when the host returns an error, with the host's message |
| RustLoggingProcessor.WasiLogProcessor.ForceFlush | rust/crates/logging/src/processor.rs:38-43 | fails with `AlreadyShutdown` exactly when shut down |
| RustLoggingProcessor.WasiLogProcessor.Shutdown | rust/crates/logging/src/processor.rs:45-51 | answers with the flush reply of the state it finds, then latches the flag |
| RustLoggingProcessor.ShutdownTwice | rust/crates/logging/src/processor.rs:45-51 | the first shutdown succeeds and the second fails with `AlreadyShutdown` |
| RustMetricExporter.WasiMetricExporter.constructor | rust/crates/metrics/src/exporter.rs:18-22 | a new exporter is not shut down |
| RustMetricExporter.WasiMetricExporter.Export | rust/crates/metrics/src/exporter.rs:27-31 | whatever the flag, convertible metrics are sent converted; a host error becomes `InternalFailure` with its message; a conversion panic sends nothing |
| RustMetricExporter.WasiMetricExporter.ForceFlush | rust/crates/metrics/src/exporter.rs:33-38 | fails with `AlreadyShutdown` exactly when shut down |
| RustMetricExporter.WasiMetricExporter.Shutdown | rust/crates/metrics/src/exporter.rs:40-46 | without flushing, answers as a flush would in the state it finds, then latches the flag |
| RustMetricExporter.WasiMetricExporter.Temporality | rust/crates/metrics/src/exporter.rs:48-50 | always `Cumulative` |
| RustMetricExporter.ShutdownTwice | rust/crates/metrics/src/exporter.rs:40-46 | the first shutdown succeeds and the second fails with `AlreadyShutdown` |
| RustMetricReader.ManualReader.Collect | rust/src/metrics/reader.rs:41 | one collection is counted on the shared reader, and its outcome is the pipeline's |
| RustMetricReader.WasiMetricReader.constructor | rust/src/metrics/reader.rs:16-20 | a new handle owns a fresh reader with the given selector and no collections |
| RustMetricReader.WasiMetricReader.Reader | rust/src/metrics/reader.rs:27-31 | `reader()` makes a new handle on the very same underlying reader |
| RustMetricReader.WasiMetricReader.Pull | rust/src/metrics/reader.rs:34-36 | `pull` always panics |
| RustMetricReader.WasiMetricReader.Push | rust/src/metrics/reader.rs:39-44 | push collects once from the shared reader; a collect error is returned without exporting; otherwise the converted metrics are sent and a host error is mapped, and a conversion panic (of a metric, a scope or the resource) sends nothing and carries the conversion's reason |
| RustMetricReader.WasiMetricReader.Temporality | rust/src/metrics/reader.rs:68-77 | the three observable kinds panic; every other kind gets the shared reader's temporality |
| RustMetricReader.PushThroughRetainedHandle | rust/src/metrics/reader.rs:22-44 | a push through the handle kept after giving one to the provider collects from the same reader the provider holds |
| GoProcessor.SpanDataOf | go/processor.go:40-55 | the span data `OnEnd` writes: the kind is the byte the numeric cast gives, both times carry only the seconds of the minute (< 60), and the three dropped counts are truncated to 32 bits |
| GoProcessor.EventsRead | go/processor.go:48 | the events list the host receives reads back, element by element, exactly when the span has at most one event with at most one attribute |
| GoProcessor.LinksRead | go/processor.go:49 | the links list reads back exactly when there is at most one link, with no trace state and at most one attribute |
| GoProcessor.ReadableSpans | go/processor.go:40-55 | the host can read the span data exactly when the kind has a discriminant, there is no trace state, and every list has at most one element |
| GoProcessor.Delivered | go/processor.go:40-55 | what the host reads is Ok exactly for readable spans; it then has the kind the cast names, the name, the hex parent id, no trace state, every attribute, and both times as converted |
| GoProcessor.TwoAttributesUnreadable | go/processor.go:47 | a span with two attributes, or with any trace state, never reaches the host in a readable form |
| GoProcessor.WasiProcessor.constructor | go/processor.go:18-24 | a new processor is not shut down |
| GoProcessor.WasiProcessor.OnStart | go/processor.go:26-33 | nothing is sent once shut down; while active the span context reaches the host exactly when it has no trace state, and otherwise the host reads past the list |
| GoProcessor.WasiProcessor.OnEnd | go/processor.go:35-56 | nothing is sent once shut down; while active the delivered span data is sent exactly when the span is readable |
| GoProcessor.WasiProcessor.ForceFlush | go/processor.go:58-64 | fails with "processor already shutdown" exactly when shut down |
| GoProcessor.WasiProcessor.Shutdown | go/processor.go:66-73 | answers with the flush reply of the state it finds, then latches the flag |
| GoProcessor.ShutdownTwice | go/processor.go:66-73 | the first shutdown succeeds, and a second shutdown and a later flush fail |
| GoWasip1Tracing.SpanDataToOtel | go/wasip1/tracing/processor.go:57-75 | the cgo span data: fails exactly when the kind has no discriminant; otherwise context, hex parent id, times, attributes, events and links one to one, status and scope converted, and dropped counts left zero |
| GoWasip1Tracing.WriteSpanContext | go/wasip1/tracing/processor.go:38-44 | the span context written field by field, with the trace state copied by the array loop, equals the context conversion |
| GoWasip1Tracing.WriteSpanData | go/wasip1/tracing/processor.go:57-75 | the span data written field by field, each list by its array loop, equals `SpanDataToOtel` |
| GoWasip1Tracing.WasiProcessor.constructor | go/wasip1/tracing/processor.go:22-28 | a new processor is not shut down |
| GoWasip1Tracing.WasiProcessor.OnStart | go/wasip1/tracing/processor.go:30-49 | nothing is sent once shut down; while active the converted span context, with its whole trace state, is sent |
| GoWasip1Tracing.WasiProcessor.OnEnd | go/wasip1/tracing/processor.go:51-81 | nothing is sent once shut down; while active the span data is sent exactly when the kind has a discriminant |
| GoWasip1Tracing.WasiProcessor.ForceFlush | go/wasip1/tracing/processor.go:83-89 | fails exactly when shut down |
| GoWasip1Tracing.WasiProcessor.Shutdown | go/wasip1/tracing/processor.go:91-98 | answers with the flush reply of the state it finds, then latches the flag |
| GoWasip1Tracing.ShutdownTwice | go/wasip1/tracing/processor.go:91-98 | the first shutdown succeeds and a second fails |
| GoWasip1Traces.WasiProcessor.constructor | go/wasip1/traces/processor.go:25-31 | a new processor is not shut down |
| GoWasip1Traces.WasiProcessor.OnStart | go/wasip1/traces/processor.go:33-49 | nothing is sent when the flag is set; otherwise the converted span context is sent |
| GoWasip1Traces.WasiProcessor.OnEnd | go/wasip1/traces/processor.go:51-75 | nothing is sent when the flag is set; otherwise the span data is sent exactly when the kind has a discriminant |
| GoWasip1Traces.WasiProcessor.ForceFlush | go/wasip1/traces/processor.go:77-83 | fails exactly when the flag is set |
| GoWasip1Traces.WasiProcessor.Shutdown | go/wasip1/traces/processor.go:85-87 | the value receiver only returns the flush reply and leaves the flag as it was |
| GoWasip1Traces.RepeatedShutdowns | go/wasip1/traces/processor.go:85-87 | on a new processor every shutdown and a later flush succeed, which is the non-latching sequence; a latching processor would fail the second shutdown |
| GoWasip2Processor.PlaceholderOf | go/wasip2/processor.go:54-75 | the placeholder span data has empty attribute, event and link lists and zero dropped counts |
| GoWasip2Processor.WasiProcessor.constructor | go/wasip2/processor.go:18-24 | a new processor is not shut down |
| GoWasip2Processor.WasiProcessor.OnStart | go/wasip2/processor.go:26-47 | nothing is sent when the flag is set; otherwise the context reaches the host exactly when it has no trace state |
| GoWasip2Processor.WasiProcessor.OnEnd | go/wasip2/processor.go:49-76 | nothing is sent when the flag is set; otherwise the placeholder span data (parent, kind, name and seconds-of-minute times filled in) is sent exactly when the kind has a discriminant |
| GoWasip2Processor.WasiProcessor.ForceFlush | go/wasip2/processor.go:78-84 | fails exactly when the flag is set |
| GoWasip2Processor.WasiProcessor.Shutdown | go/wasip2/processor.go:86-88 | only returns the flush reply and leaves the flag as it was |
| GoWasip2Processor.RepeatedShutdowns | go/wasip2/processor.go:86-88 | on a new processor every shutdown and a later flush succeed, which is the non-latching sequence; a latching processor would fail the second shutdown |
| GoTypes.ToWasiOptStr | go/types/conversions.go:68-74 | the empty string becomes absent and any other string is present with its text |
| GoTypes.OptStrRoundTrip | go/types/conversions.go:68-74 | nothing is lost: an absent option reads back as the empty string it came from, and a present non-empty option is its own image |
| GoTypes.ToWasiTime | go/types/conversions.go:85-90 | nanoseconds are the time's nanosecond field; seconds are the Unix seconds, reinterpreted as unsigned 64-bit, so a time before the epoch wraps |
| GoTypes.TimeSplit | go/types/conversions.go:85-90 | at or after the epoch, seconds times 10^9 plus nanoseconds is the instant, and the nanoseconds stay below 10^9 |
| GoTypes.ValueTree | go/types/conversions.go:35-66 | each of the eight value kinds is marshalled from its own JSON tree; `INVALID` panics |
| GoTypes.ValueToJson | go/types/conversions.go:35-66 | `INVALID` panics with "invalid type"; otherwise the text is empty exactly when `json.Marshal` fails on a NaN or an infinity, the error being dropped |
| GoTypes.StringText | go/types/conversions.go:55-57 | a string value's text is a JSON string literal that reads back as the string |
| GoTypes.ScalarTexts | go/types/conversions.go:37-45 | booleans are `true`/`false` and integers their decimal text |
| GoTypes.KeyValueToWasi | go/types/conversions.go:26-30 | the key is copied and the value becomes its JSON text; Ok exactly when the value is not `INVALID` |
| GoTypes.AttributesOf | go/types/conversions.go:22-33 | the attributes are converted one by one, keeping count, order and keys; the first `INVALID` value panics |
| GoTypes.ToWasiAttributes | go/types/conversions.go:22-33 | the slice filled index by index equals `AttributesOf`, and fails exactly when some value is `INVALID` |
| GoTypes.ToWasiResource | go/types/conversions.go:15-20 | the attributes, and the schema URL made absent when empty |
| GoTypes.ToWasiInstrumentationScope | go/types/conversions.go:76-83 | the name is copied; version and schema URL are absent when empty; the attributes are converted |
| GoTracing.StatusToWasi | go/tracing/conversions.go:34-45 | `Error` becomes an error status with the description, `Ok` becomes ok, and `Unset` or any other code becomes unset |
| GoTracing.StatusRoundTrip | go/tracing/conversions.go:34-45 | on the three defined codes the code survives, and an error keeps its description |
| GoTracing.SpanKindToWasi | go/tracing/conversions.go:72-89 | the five kinds map one for one; `Unspecified` panics with "SpanKindUnspecified is not implemented", any other kind with "unimplemented type" |
| GoTracing.SpanKindBijective | go/tracing/conversions.go:72-89 | the kind map is a bijection between the five Go kinds and the five host kinds |
| GoTracing.KindCast | go/processor.go:43 | the numeric cast `SpanKind(s.SpanKind())` gives a host kind exactly when the byte is below 5, and then the kind whose discriminant is that byte |
| GoTracing.KindCastMisplaces | go/processor.go:43 | for every defined kind the numeric cast differs from `toWasiSpanKind`: Internal arrives as Server and Consumer has no discriminant |
| GoTracing.SpanContextAsWritten | go/tracing/conversions.go:126-142 | as written the trace state is `Len()` empty pairs followed by the members in walk order; the ids are lower-case hex (32 and 16 digits) and the flags are always sampled |
| GoTracing.ToWasiSpanContext | go/tracing/conversions.go:126-142 | the pre-sized slice with one append per member builds exactly `SpanContextAsWritten` |
| GoTracing.SpanContextToWasi | go/tracing/conversions.go:126-142 | the evidently intended context: the trace state is exactly the walked members, ids in hex, flags sampled, remote copied |
| GoTracing.InsertAll | go/tracing/conversions.go:108-115 | inserting the members one after another succeeds exactly when every member is well formed; otherwise it panics with the invalid-entry message |
| GoTracing.InsertAllReverses | go/tracing/conversions.go:108-115 | with well-formed, distinct keys and room in the list, inserting each member at the front yields the members in reverse order ahead of the existing ones |
| GoTracing.DecodeId | go/tracing/conversions.go:92-106 | an id decodes exactly when it is hex of the required byte length; otherwise it panics with the bad-hex or bad-length message |
| GoTracing.SpanContextOf | go/tracing/conversions.go:91-124 | `toOtelSpanContext` succeeds exactly when both ids decode to 16 and 8 bytes and the trace state is well formed; the ids decode to the result's ids, the flags are always sampled and remote is copied |
| GoTracing.ToOtelSpanContext | go/tracing/conversions.go:91-124 | the loop that rebuilds the trace state member by member gives exactly `SpanContextOf` |
| GoTracing.SpanContextRoundTrip | go/tracing/conversions.go:91-142 | reading back the intended context gives the same ids and remote flag, and the trace state in reverse order |
| GoTracing.PaddedTraceStateRejected | go/tracing/conversions.go:127 | as written, any non-empty trace state starts with an empty pair that is not a valid member, so reading the context back panics |
| GoTracing.EventToWasi | go/tracing/conversions.go:59-70 | an event keeps its name, its converted time and its converted attributes |
| GoTracing.LinkToWasi | go/tracing/conversions.go:47-58 | a link keeps its span context, as written, and its converted attributes |
| GoTracing.EventsOf | go/tracing/conversions.go:59-70 | the events are converted one for one, in order |
| GoTracing.ToWasiEvents | go/tracing/conversions.go:59-70 | the slice of the input's length, written index by index, equals `EventsOf` |
| GoTracing.LinksOf | go/tracing/conversions.go:47-58 | the links are converted one for one, in order |
| GoTracing.ToWasiLinks | go/tracing/conversions.go:47-58 | the slice of the input's length, written index by index, equals `LinksOf` |
| GoTracing.SpanDataToWasi | go/tracing/conversions.go:15-31 | Ok exactly for a known kind and no `INVALID` value; the context as written, the hex parent id, the kind, name, times, attributes, events, links, status and scope converted; the dropped counts truncated to 32 bits |
| GoTracing.DroppedCounts | go/tracing/conversions.go:28-30 | dropped counts below 2^32 cross unchanged |
| GoLogs.BelowTotal | go/logs/conversions.go:164 | the byte-wise order `json.Marshal` sorts map keys by is total on distinct keys |
| GoLogs.BelowTransitive | go/logs/conversions.go:164 | that order is transitive |
| GoLogs.MinimumExists | go/logs/conversions.go:164 | every non-empty set of keys has a least key, so sorting is well defined |
| GoLogs.SortedSet | go/logs/conversions.go:164 | the keys of a map in `json.Marshal` order: strictly ascending, each key exactly once, nothing else |
| GoLogs.MapMembers | go/logs/conversions.go:164 | a `map[string]any` is written as one member per key, keys strictly ascending, each with its own value |
| GoLogs.ReadBack | go/logs/conversions.go:144-147 | an item written and parsed back into `any`: an integer becomes the nearest float64, everything else keeps its JSON shape |
| GoLogs.Nested | go/logs/conversions.go:142-162 | a nested item reads back exactly when it holds no NaN or infinity; otherwise the recursive call panics with the marshal error |
| GoLogs.ReadBackPairs | go/logs/conversions.go:157-163 | the map arm reads each value back under its key, in the map's order |
| GoLogs.Tree | go/logs/conversions.go:101-172 | the JSON tree the serialiser marshals: Ok exactly when no NaN or infinity occurs; integers, strings, the empty kind (as "") and bytes (as their data URL) at top level are written exactly |
| GoLogs.MarshalTree | go/logs/conversions.go:101-172 | the recursive serialiser, arm by arm, builds exactly `Tree` |
| GoLogs.MarshalSlice | go/logs/conversions.go:139-153 | the slice arm's loop stores each item's read-back value at its index, giving `Tree` of the slice |
| GoLogs.MarshalMap | go/logs/conversions.go:154-170 | the map arm assigns each item to its key, then marshals the map, giving `Tree` of the map |
| GoLogs.AssignItems | go/logs/conversions.go:155-163 | the loop succeeds exactly when every item is marshalable, and then builds the map in which a later duplicate key overwrites an earlier one |
| GoLogs.ValueToJson | go/logs/conversions.go:101-172 | the text is Ok exactly when the value is marshalable, and is never empty |
| GoLogs.StringText | go/logs/conversions.go:121-138 | a string is a JSON string literal that reads back as the string, and the empty kind is the two-character `""` |
| GoLogs.BytesText | go/logs/conversions.go:127-132 | bytes are a string literal holding "data:application/octet-stream;base64," and the standard base64 text, which decodes back to the bytes |
| GoLogs.ScalarTexts | go/logs/conversions.go:103-120 | booleans are `true`/`false` and top-level integers their decimal text |
| GoLogs.NonFinitePanics | go/logs/conversions.go:109-114 | a NaN or an infinity, alone or inside a slice, makes the serialiser panic |
| GoLogs.MapMembersOf | go/logs/conversions.go:154-170 | a map is written with the set of its keys, and for each key the value of its last occurrence |
| GoLogs.NestedIntegerRounds | go/logs/conversions.go:144-149 | as written, 2^53+1 inside a slice is read back into float64 and written as 2^53, while at top level it is exact |
| GoLogs.SmallIntegersExact | go/logs/conversions.go:144-147 | integers up to 2^53 in magnitude survive the float64 reading |
| GoLogs.ExactTree | go/logs/conversions.go:139-170 | the evidently intended serialiser: the same shape, with nested integers kept exact |
| GoLogs.ExactIntegers | go/logs/conversions.go:139-153 | with integers kept, a slice of integers of any magnitude is written exactly |
| GoLogs.TestBytesDisagree | go/logs/conversions_test.go:44 | the code writes the data-URL prefix for "Hello, world!", not the "{base64}:" text the test expects |
| GoLogs.KeyValueToWasi | go/logs/conversions.go:53-56 | one attribute: the key and the value's JSON text, Ok exactly when the value is marshalable |
| GoLogs.AttributesOf | go/logs/conversions.go:47-62 | the attributes in walk order, one key-value each |
| GoLogs.WalkAttributes | go/logs/conversions.go:51-59 | the walk callback appending one key-value per attribute builds exactly `AttributesOf`, and fails exactly when a value is not marshalable |
| GoLogs.OptionalTime | go/logs/conversions.go:19-31 | the zero time is absent; any other time is present and converted |
| GoLogs.LogRecordToWasi | go/logs/conversions.go:18-99 | Ok exactly when the body and attributes can be serialised; both timestamps follow the zero-time rule, and the trace and span ids are always present as hex |
| GoLogs.LogRecordHeader | go/logs/conversions.go:33-45 | `SeverityUndefined` is absent and any other severity is its byte; empty severity text and event name are absent; the body is always present, as the body's JSON text |
| GoLogs.LogRecordAttributes | go/logs/conversions.go:47-62 | attributes are absent exactly when there are none, and otherwise all there in walk order |
| GoLogs.LogRecordContext | go/logs/conversions.go:64-83 | a nil resource and an empty scope name are absent; the trace flags are present, as sampled, exactly when the record is sampled |
| GoLogs.LogRecordTimes | go/logs/conversions.go:19-31 | zero times are absent; present times carry their Unix seconds and nanoseconds |
| GoLogs.ZeroIdsPresent | go/logs/conversions.go:95-96 | a record outside any span has all-zero ids, and they still cross as present 32 and 16 zero digits, where the intended rule gives neither |
| GoLogs.IdIfValid | go/logs/conversions.go:95-96 | the intended trace and span ids: absent exactly for the invalid all-zero id, otherwise hex that decodes back to the id |
| GoMetrics.TemporalityToWasi | go/metrics/conversions.go:219-228 | never `LowMemory`; delta exactly for `DeltaTemporality`, cumulative for cumulative and for the undefined zero value |
| GoMetrics.TemporalityRoundTrip | go/metrics/conversions.go:219-228 | every defined temporality reads back as itself; only the undefined one is replaced, by cumulative |
| GoMetrics.ExemplarToWasi | go/metrics/conversions.go:241-254 | an exemplar keeps its converted filtered attributes, its time and its tagged value, and its span and trace ids are the raw id bytes |
| GoMetrics.ExemplarsToWasi | go/metrics/conversions.go:241-254 | exemplars are converted one for one, in order |
| GoMetrics.RawIdsNotHex | go/metrics/conversions.go:248-249 | an 8-byte span id and a 16-byte trace id cross as 8 and 16 raw bytes where hex would be 16 and 32 digits, and read as hex they never decode back to the ids |
| GoMetrics.RawIdNotUtf8 | go/metrics/conversions.go:248 | a valid span id whose first byte is 0xFF crosses as bytes that are not UTF-8, which a WIT `string` cannot carry |
| GoMetrics.HexExemplarToWasi | go/metrics/conversions.go:241-254 | the corrected exemplar: the same fields, with each id as its lower-case hex text, which is valid UTF-8 and decodes back to the id |
| GoMetrics.GaugePointToWasi | go/metrics/conversions.go:139-150 | a gauge point keeps its converted attributes and exemplars, and its value is tagged |
| GoMetrics.SumPointToWasi | go/metrics/conversions.go:152-163 | a sum point keeps its converted attributes and exemplars, and its value is tagged |
| GoMetrics.HistogramPointToWasi | go/metrics/conversions.go:165-181 | count, bounds and bucket counts are copied unchanged; min and max are present exactly when the extrema are, tagged; sum and exemplars are converted |
| GoMetrics.ExponentialPointToWasi | go/metrics/conversions.go:183-208 | the scale is narrowed to int8 (kept when it fits); count, zero count, zero threshold and both buckets' offsets and counts are copied; min, max and sum are tagged |
| GoMetrics.ExtractTimestamps | go/metrics/conversions.go:264-291 | with no data points there is no start and the time is `now`; otherwise the first point's start time and time |
| GoMetrics.Required | go/metrics/conversions.go:86 | dereferencing the start time succeeds exactly when there is one, and otherwise is the nil-pointer panic |
| GoMetrics.GaugeToWasi | go/metrics/conversions.go:55-81 | the points one for one, with the optional start and the time of `extractTimestamps` |
| GoMetrics.SumToWasi | go/metrics/conversions.go:82-99 | a sum without data points panics on the nil start; otherwise the points one for one, the first point's times, the temporality mapped and the monotonicity copied |
| GoMetrics.HistogramToWasi | go/metrics/conversions.go:116-131 | a histogram without data points panics on the nil start; otherwise the points one for one, the first point's times and the temporality mapped |
| GoMetrics.ExponentialHistogramToWasi | go/metrics/conversions.go:100-115 | an exponential histogram without data points panics on the nil start; otherwise the points one for one, the first point's times and the temporality mapped |
| GoMetrics.AggregationToWasi | go/metrics/conversions.go:53-131 | each case pair gives the variant of the given width and of the same kind |
| GoMetrics.AggregationTagged | go/metrics/conversions.go:230-239 | every number inside a converted aggregation carries the width's tag |
| GoMetrics.MetricDataToWasi | go/metrics/conversions.go:53-137 | `Summary` and any other aggregation panic with their messages; `int64` data gives the S64 variant and `float64` data the F64 variant, of the same kind |
| GoMetrics.MetricDataTagged | go/metrics/conversions.go:53-137 | only `int64` and `float64` data convert, and then every number in the result is S64 or F64 respectively |
| GoMetrics.EmptyGauge | go/metrics/conversions.go:55-68 | a gauge with no data points converts, with no start and the current time |
| GoMetrics.FillEach | go/metrics/conversions.go:26-51 | the slice of the input's length, filled index by index, is exactly the element-wise conversion, failing with the reason of the first element that fails |
| GoMetrics.MetricToWasi | go/metrics/conversions.go:39-51 | name, description and unit are copied verbatim and the data converted |
| GoMetrics.MetricsOf | go/metrics/conversions.go:39-51 | the metrics are converted one for one, in order |
| GoMetrics.ToWasiMetrics | go/metrics/conversions.go:39-51 | the index-by-index loop gives exactly `MetricsOf`, the failure reason included |
| GoMetrics.ScopeMetricsToWasi | go/metrics/conversions.go:26-37 | the scope as go/types converts it, and its metrics in order |
| GoMetrics.ScopeMetricsOf | go/metrics/conversions.go:26-37 | the scope metrics are converted one for one, in order |
| GoMetrics.ToWasiScopeMetrics | go/metrics/conversions.go:26-37 | the index-by-index loop gives exactly `ScopeMetricsOf`, the failure reason included |
| GoMetrics.ResourceMetricsOf | go/metrics/conversions.go:14-24 | a nil resource becomes the empty resource, any other is converted; the scope metrics follow in order |
| GoMetrics.ToWasiResourceMetrics | go/metrics/conversions.go:14-24 | the conversion with its loops gives exactly `ResourceMetricsOf`, the failure reason included |
| GoWasip1Utils.TraceStateToGoMap | go/wasip1/traces/utils-types.go:23-41 | an absent or empty list gives the empty map; otherwise each pair is assigned in order, so a later duplicate key overwrites an earlier one |
| GoWasip1Utils.TraceStateMapKeepsMembers | go/wasip1/traces/utils-types.go:23-77 | a well-formed trace state written out and read back as a map keeps every member with its value |
| GoWasip1Utils.FillList | go/wasip1/traces/utils-types.go:80-141 | the builders write element i at index i and set the length to the input's, so the list is the element-wise conversion |
| GoWasip1Utils.ValueToOtel | go/wasip1/traces/utils-types.go:173-205 | the eight known kinds keep their tag and payload (reading back gives the value); an unknown kind is left zero-valued, the empty string |
| GoWasip1Utils.ValueAgrees | go/wasip1/traces/utils-types.go:173-205 | the zeroed fallback and the `wasip2` `String(AsString())` fallback agree, so both revisions send the same value for every kind |
| GoWasip1Utils.KeyValueToOtel | go/wasip1/traces/utils-types.go:86-93 | an attribute keeps its key and its converted value |
| GoWasip1Utils.TimeToOtel | go/wasip1/traces/utils-types.go:44-49 | seconds are the Unix seconds and nanoseconds the time's nanosecond field |
| GoWasip1Utils.TimeAgrees | go/wasip1/traces/utils-types.go:44-49 | the cgo time split equals the `0.2.0-draft` one |
| GoWasip1Utils.StatusToOtel | go/wasip1/traces/utils-types.go:143-171 | code 1 is an error with its description, or "unknown error" when that is empty; code 2 is ok; anything else unset |
| GoWasip1Utils.StatusAgreesUnlessEmpty | go/wasip1/traces/utils-types.go:143-171 | the cgo status map equals the `0.2.0-draft` one except on an error without a description, which becomes "unknown error" |
| GoWasip1Utils.AttributesToOtel | go/wasip1/traces/utils-types.go:80-99 | the attributes one for one, in order |
| GoWasip1Utils.SpanContextToOtel | go/wasip1/traces/processor.go:38-46 | the written span context: hex ids, the flags and remote copied, the trace state in walk order |
| GoWasip1Utils.SpanContextReadsBack | go/wasip1/traces/utils-types.go:52-77 | for a sampled context the cgo context equals the intended `0.2.0-draft` one and reads back without a panic |
| GoWasip1Utils.EventToOtel | go/wasip1/traces/utils-types.go:101-117 | an event keeps its name, its converted time and its attributes |
| GoWasip1Utils.LinkToOtel | go/wasip1/traces/utils-types.go:119-141 | a link keeps its span context, written field by field as for a span, and its attributes |
| GoWasip1Utils.ScopeToOtel | go/wasip1/traces/utils-types.go:207-216 | the scope name is copied; an empty version or schema URL is absent; the attributes are converted |
| GoWasip1Utils.BuildersKeepAll | go/wasip1/traces/utils-types.go:80-99 | the cgo builders keep every element in order, where the `wasip2` builders keep only the last |
| GoWasip2Conversion.Elements | go/wasip2/conversion.go:35-45 | the host reads a list exactly when its claimed length is within the backing, and then reads the backing's first elements |
| GoWasip2Conversion.LastOnlyList | go/wasip2/conversion.go:35-80 | as written a builder leaves the last converted element behind a claimed length of the input's length, so the host reads it exactly when there is at most one element |
| GoWasip2Conversion.BuildList | go/wasip2/conversion.go:35-45 | the loop that rebuilds `result` for each element produces exactly `LastOnlyList` |
| GoWasip2Conversion.FullList | go/wasip2/conversion.go:35-80 | the evidently intended list: every converted element, in order |
| GoWasip2Conversion.LastOnlyOverruns | go/wasip2/conversion.go:37-42 | with two or more elements the host reads past the single backed element, while the full list reads back |
| GoWasip2Conversion.TraceStateList | go/wasip2/conversion.go:15-25 | as written the trace state list is readable only when empty; otherwise it holds the last member behind a claimed length of 2 |
| GoWasip2Conversion.ToWasiTraceState | go/wasip2/conversion.go:15-25 | the walk callback that rebuilds the list for every member produces exactly `TraceStateList` |
| GoWasip2Conversion.TraceStateFull | go/wasip2/conversion.go:15-25 | the intended trace state: every member, in walk order |
| GoWasip2Conversion.ValueToWasi | go/wasip2/conversion.go:102-127 | an invalid value takes the default branch `String(AsString())`, the empty string |
| GoWasip2Conversion.ValueRoundTrip | go/wasip2/conversion.go:102-127 | the value map is one for one on the eight kinds, and every host value is reached |
| GoWasip2Conversion.KeyValueToWasi | go/wasip2/conversion.go:38-41 | an attribute keeps its key and its converted value |
| GoWasip2Conversion.DateTimeToWasi | go/wasip2/conversion.go:27-33 | seconds are only the seconds of the minute (below 60); nanoseconds the time's nanosecond field |
| GoWasip2Conversion.DateTimeLosesMinutes | go/wasip2/conversion.go:27-33 | two times a minute apart cross as the same datetime, though the Unix split tells them apart |
| GoWasip2Conversion.StatusToWasi | go/wasip2/conversion.go:91-100 | `Error` carries its description, `Ok` is ok, anything else is unset |
| GoWasip2Conversion.StatusAgrees | go/wasip2/conversion.go:91-100 | the switch without an `Unset` case agrees with the `0.2.0-draft` one on every code |
| GoWasip2Conversion.GetOption | go/wasip2/conversion.go:129-136 | none exactly for the type's zero value, otherwise the value |
| GoWasip2Conversion.GetOptionString | go/wasip2/conversion.go:129-136 | on strings `getOption` is the same map as `ToWasiOptStr` |
| GoWasip2Conversion.AttributesList | go/wasip2/conversion.go:35-45 | the attribute list as written is readable exactly when there is at most one attribute |
| GoWasip2Conversion.SpanContextToWasi | go/wasip2/conversion.go:60-68 | hex ids, the flags and remote copied, the trace state as written |
| GoWasip2Conversion.EventToWasi | go/wasip2/conversion.go:47-58 | an event keeps its name, its seconds-of-minute time and its attribute list as written |
| GoWasip2Conversion.LinkToWasi | go/wasip2/conversion.go:70-80 | a link keeps its span context and its attribute list as written |
| GoWasip2Conversion.ScopeToWasi | go/wasip2/conversion.go:82-89 | the name is copied, version and schema URL are absent when empty, and the attribute list is as written |
| GoWasip2Conversion.ReadSpanContext | go/wasip2/processor.go:31-46 | the host reads a span context exactly when its trace-state list is within its backing, and then gets the ids, flags and remote as written |
| GoWasip2Conversion.ReadSpanData | go/wasip2/processor.go:54-75 | the host reads span data exactly when every list is within its backing and the kind byte is a defined discriminant; it then has the kind, name, parent, times, status and counts as written |
| TsSdk.SpanKind.Ordinal | ts/src/tracing.ts:48 | each JavaScript span kind has its enumeration number, below 5, so the index into the name list is in range |
| TsTypes.NumberJson | ts/src/types.ts:33 | `JSON.stringify` of a number is `null` exactly for NaN and the infinities, otherwise the number itself |
| TsTypes.Present | ts/src/types.ts:35-37 | the filter keeps exactly the present entries: none are left exactly when every entry is null, and each kept entry was present |
| TsTypes.PresentAll | ts/src/types.ts:35-37 | with no null entries the filter keeps every entry in place |
| TsTypes.BigInts | ts/src/types.ts:46-48 | the `BigInt64Array` holds each integral number, as a signed 64-bit value, at its own index |
| TsTypes.FillBigInt64Array | ts/src/types.ts:47-48 | the `forEach` fills a fresh array with exactly `BigInts` of the numbers |
| TsTypes.Stringify | ts/src/types.ts:25-57 | `JSON.stringify` throws the BigInt `TypeError` exactly for a `BigInt` or a non-empty `BigInt64Array`; every other argument has its JSON text |
| TsTypes.ValueText | ts/src/types.ts:25-57 | the conversion throws exactly for an integer, or for a number array whose present entries are all integers, and always with the BigInt `TypeError` |
| TsTypes.AttributeValueToWasi | ts/src/types.ts:25-57 | the branches, with the typed array filled by the loop, give exactly `ValueText`: the JSON text, or the `TypeError` |
| TsTypes.KeyValueToWasi | ts/src/types.ts:16-19 | an entry converts exactly when its value meets no BigInt, to its key and the value's text |
| TsTypes.AttributesToWasi | ts/src/types.ts:12-20 | `undefined` gives no attributes; the conversion succeeds exactly when no value meets a BigInt, and then gives one key-value per entry, in order, with the key and the value's text; otherwise it throws the `TypeError` |
| TsTypes.StringAttribute | ts/src/types.ts:26-27 | a string attribute is a JSON string literal that reads back as the string |
| TsTypes.BoolAndDefaultAttributes | ts/src/types.ts:28-56 | booleans are the texts `true` and `false`, and a missing value is the empty string literal |
| TsTypes.NumberBranch | ts/src/types.ts:30-33 | a number goes to `BigInt` exactly when it is an integer, with its exact value; any other number is the plain JSON number or null |
| TsTypes.EmptyArrays | ts/src/types.ts:38-40 | an array of any type with no present entry is the text `[]` |
| TsTypes.StringArrayEntries | ts/src/types.ts:42-43 | a string array is a JSON array of as many strings as present entries, holding exactly the present strings |
| TsTypes.NumberArrayEntries | ts/src/types.ts:44-52 | all integers: a `BigInt64Array` of the wrapped values, whose text throws; otherwise a `Float64Array` of the numbers, written as an index-keyed object |
| TsTypes.Float64JsonKeys | ts/src/types.ts:51 | the `Float64Array` object has one member per number, keyed by text that reads back as its index, holding the number or null |
| TsTypes.IntegerAttributeThrows | ts/src/types.ts:30-32 | an integer attribute value, such as `http.status_code = 200`, makes the whole attribute conversion throw the `TypeError` |
| TsTypes.IntegerArrayThrows | ts/src/types.ts:46-49 | an integer array such as `[1, null]` makes it throw too |
| TsTypes.IntendedValueText | ts/src/types.ts:30-49 | the corrected conversion never throws, agrees with the source wherever the source does not throw, and writes an integer as decimal text that reads back as the integer |
| TsTypes.IntendedIntegers | ts/src/types.ts:30-32 | with the correction, every integer within 2^53, such as 200, is sent as text that reads back as itself |
| TsTypes.DateTimeInjective | ts/src/types.ts:62-67 | two times give the same datetime exactly when they are equal |
| TsTypes.InstrumentationScopeToWasi | ts/src/types.ts:72-83 | name, version and schema URL are copied and the attributes are always empty |
| TsLogs.NumberText | ts/src/logs.ts:68-69 | `String(v)` of a finite number is the number formatter's text |
| TsLogs.TextIsJson | ts/src/logs.ts:58-81 | without NaN or infinities, the hand-built text is exactly the standard JSON text of the value, items and members in order |
| TsLogs.StringText | ts/src/logs.ts:66-67 | a string is a JSON string literal that reads back as the string |
| TsLogs.BytesText | ts/src/logs.ts:59-63 | bytes are a JSON string holding the base64 data URL, which decodes back to the bytes |
| TsLogs.ScalarTexts | ts/src/logs.ts:64-69 | null and undefined are `null`; NaN and the infinities are the bare words `NaN`, `Infinity`, `-Infinity`, which are not JSON |
| TsLogs.TestExpectedBytes | ts/src/logs.test.ts:32 | the test expects the bytes as a `{base64}:` text |
| TsLogs.TestBytesDisagree | ts/src/logs.test.ts:32 | for "Hello, world!" the code writes the data-URL prefix, so the value differs from the one the test expects |
| TsLogs.Attributes | ts/src/logs.ts:50-56 | one key-value per entry, in order, with the entry's key and the value's text |
| TsLogs.LogAttributesToWasi | ts/src/logs.ts:50-56 | the loop that pushes entry by entry yields exactly `Attributes` |
| TsLogs.Body | ts/src/logs.ts:33 | as written, a body is sent exactly when it is truthy, as its text |
| TsLogs.LogRecordHeader | ts/src/logs.ts:25-35 | timestamps are present exactly when the record has them, with their seconds; severity text and number and event name are copied |
| TsLogs.LogRecordParts | ts/src/logs.ts:34-44 | attributes are present exactly when the record has them, one for one; the resource and scope are always present, the scope without attributes; trace id, span id and flags are never sent |
| TsLogs.FalsyBodyDropped | ts/src/logs.ts:33 | a body of false, 0, "" or null is dropped, though each has a text |
| TsLogs.IntendedBody | ts/src/logs.ts:33 | the evidently intended body: absent only when undefined, otherwise its text |
| TsLogs.BodiesAgree | ts/src/logs.ts:33 | the body as written and the intended one agree exactly on truthy bodies and on undefined |
| TsLogs.WasiLogProcessor.OnEmit | ts/src/logs.ts:9-11 | the host receives exactly the converted record, appended to what it had |
| TsLogs.WasiLogProcessor.ForceFlush | ts/src/logs.ts:13-15 | flush resolves |
| TsLogs.WasiLogProcessor.Shutdown | ts/src/logs.ts:17-19 | shutdown resolves and keeps no state |
| TsLogs.EmitAfterShutdown | ts/src/logs.ts:9-19 | after two shutdowns that both resolve, an emitted record still reaches the host |
| TsTracing.SpanKindBijective | ts/src/tracing.ts:48 | the kind map is one to one and onto, and each kind keeps its name |
| TsTracing.StatusToWasi | ts/src/tracing.ts:60-62 | code 0 is unset, code 1 ok, any other code an error with the message or the empty string |
| TsTracing.EventToWasi | ts/src/tracing.ts:51-55 | an event converts exactly when its attributes do, keeping its name and its attributes' text |
| TsTracing.LinkToWasi | ts/src/tracing.ts:56-59 | a link converts exactly when its attributes do, with the converted context and the attributes' text |
| TsTracing.SpanDataHeader | ts/src/tracing.ts:43-75 | when the span data exists, name, context, times and dropped counters are copied; a missing parent is the empty id; the scope has the library's name and no attributes |
| TsTracing.SpanDataThrows | ts/src/tracing.ts:43-59 | the span data exists exactly when no attribute of the span, its events or its links meets a BigInt; otherwise building it throws the `TypeError` |
| TsTracing.SpanDataLists | ts/src/tracing.ts:50-59 | when the span data exists, attributes, events and links are converted one for one, in order, events keeping their names and links their converted contexts, each with its attributes' text |
| TsTracing.IntegerAttributeLosesSpan | ts/src/tracing.ts:43-50 | a span with an integer attribute, such as `http.status_code = 200`, throws and never reaches the host |
| TsTracing.WasiSpanProcessor.OnStart | ts/src/tracing.ts:35-37 | the host receives the converted span context |
| TsTracing.WasiSpanProcessor.OnEnd | ts/src/tracing.ts:39-76 | the host receives exactly the converted span data when no attribute meets a BigInt; otherwise `onEnd` throws the `TypeError` and the host receives nothing |
| TsTracing.WasiSpanProcessor.ForceFlush | ts/src/tracing.ts:31-33 | flush throws "Method not implemented." |
| TsTracing.WasiSpanProcessor.Shutdown | ts/src/tracing.ts:78-81 | shutdown throws "Method not implemented." |

## Left out

- Generated canonical-ABI glue (`go/wasip1/*/*.c`, `*.h`), cgo memory handling (`utils-types-primitive.go`, `allocateCArray`, pointer arithmetic) and the TypeScript declaration files: the C list builders are modelled by the values they write, not by their memory.
- Propagators, the thin SDK and host wrappers (`rust/src/metrics/exporter.rs`, `go/metrics/metrics.go`, `go/logs/logs.go`, `ts/src/metrics.ts`), the legacy Spin prototypes under `src/`, integration tests and examples: they are host calls and SDK delegation with no conversion logic of their own.
- The `MetricReader` methods of `rust/src/metrics/reader.rs` that only forward to the SDK's `ManualReader` (`register_pipeline`, `collect`, `force_flush`, `shutdown`, `shutdown_with_timeout`, lines 47-66): that reader is not part of this model; `collect` is a parameter of `Push`.
- The `From<Box<dyn Aggregation>>` implementations of `rust/crates/metrics/src/conversion.rs:349-360`: they call themselves without end, and only the `&Metric` path through `convert_aggregation` is modelled.
- Concurrency: the atomic shutdown flags are plain boolean fields with one call at a time.
- `fmt.Println` and `console.log` output, and the text of Go and Rust panic messages beyond the part each `Abort` reason keeps (for instance the `hex.DecodeString` error after "invalid trace ID: ", the `json.UnsupportedValueError` text, and the `trace.ParseTraceState` error).
- Decimal formatting of floats (the parameter `ft`) and the order of Rust `HashMap` and Go map iteration: the Rust and Go map serialisers are stated for the order the entries are given in, and Go's `encoding/json` sorts map keys, so Go's iteration order does not show in its output.
- JavaScript arrays that mix element types, and times or dropped counters outside the WIT `u64`/`u32` ranges: `TsSdk` types exclude them.
- `ts/src/types.ts` (the whole 84-line file) exports neither `spanContextToWasi` nor `wasiToSpanContext`, which ts/src/tracing.ts:16-21 imports; `TsTracing` takes the span-context conversion as the parameter `ctx`.
- TraceState.FromKeyValue: the crate's `TraceState::from_key_value` is not part of this model, and it is taken to accept exactly the lists whose keys and values follow the W3C grammar. The crate may be more lenient (an empty value, say); the round trips rely only on `SeparatorFree`, which holds for any rule that refuses ',' in keys and values and '=' in keys.
- The helper files of `go/processor.go` and of `go/wasip1/tracing`, and the Rust scope and resource converters of `rust/src`, are not part of this model. The `go/processor.go` helpers (`toWasiDateTime`, `toWasiAttributes`, `toWasiEvents`, `toWasiLinks` against the `wasiTrace` import) are taken to be those of `go/wasip2/conversion.go`, modelled as `GoWasip2Conversion`; the `go/wasip1/tracing` helpers are taken to be those of `go/wasip1/traces`, modelled as `GoWasip1Utils`. The Rust scope and resource conversions of `rust/src` (`scope.into()`, `resource.map(Into::into)`, `value.scope().into()`, `value.resource().into()`) are parameters of `RustLogs` and `RustMetrics` that may fail, as the crate's own `RustTracing.ScopeToWasi` and `RustCrateMetrics.ResourceOf` fail on an unsupported attribute; what they write and when exactly they fail are not modelled.
- `Schema.Status` as a Go `wasmTrace.Status{}` zero value is taken to be `Unset`, and a zero WIT option to be `None`.
- The Go loops that fill a pre-sized slice are modelled once, by `Seqs.MapAll` and `GoMetrics.FillEach`, rather than one loop per converter.
- RustMetrics.IdHex, RustMetrics.HexIdsTotal and GoMetrics.HexExemplarToWasi: the corrected exemplar ids write the all-zero id, which is what an exemplar taken outside any sampled span carries, as 16 or 32 '0' digits; the WIT metrics interface says such an id is empty. The corrected members keep the hex text for every id so that it always decodes back to the id bytes, and do not model the empty case.
- GoMetrics.AggregationToWasi: the Sum, Histogram and ExponentialHistogram branches dereference a nil start time when there are no data points; this is modelled as written (an `Abort`) and not corrected.
- CmList reads past the backing are an `Abort` in the host model; what the host would read from the guest's memory there is not modelled.

## Findings

| source | as written | input that shows it | evidently intended | confidence | as-written member | corrected member |
|---|---|---|---|---|---|---|
| rust/src/tracing/conversion.rs:27-28 | ids written with `{:x}`, without zero padding | the all-zero trace id gives "0"; the span id of eight 0x01 bytes gives "101010101010101" | 32 and 16 hex digits, as `TraceId`/`SpanId` `Display` writes them | not executed | RustTracing.UnpaddedIds | RustTracing.SpanContextToWasiPadded |
| rust/src/metrics/conversion.rs:187-188 | exemplar ids are raw bytes decoded with `String::from_utf8(..).unwrap()` | a span id whose first byte is 0xFF panics | the hex text of the id bytes | not executed | RustMetrics.NonUtf8SpanIdPanics | RustMetrics.HexIdsTotal |
| go/tracing/conversions.go:126-142 | the trace-state slice is made with length `Len()` and then appended to | a trace state with one member gives `[("", ""), (k, v)]`, which `toOtelSpanContext` rejects | capacity `Len()` and length 0, so only the members | not executed | GoTracing.PaddedTraceStateRejected | GoTracing.SpanContextRoundTrip |
| go/processor.go:43 | `SpanKind(s.SpanKind())` casts the Go number to the WIT discriminant | `SpanKindInternal` (1) arrives as `server`; `SpanKindConsumer` (5) has no discriminant | the `toWasiSpanKind` switch | not executed | GoTracing.KindCastMisplaces | GoTracing.SpanKindToWasi |
| go/logs/conversions.go:95-96 | `TraceID` and `SpanID` are always `Some` of the hex text | a record outside any span sends 32 and 16 zero digits | none for the invalid all-zero id | not executed | GoLogs.ZeroIdsPresent | GoLogs.IdIfValid |
| go/metrics/conversions.go:248-249 | exemplar ids are `string(e.SpanID)` and `string(e.TraceID)`, the raw id bytes | an 8-byte span id crosses as 8 bytes, not 16 hex digits, and does not decode back as hex | the lower-case hex text the WIT `span-id` and `trace-id` describe | not executed | GoMetrics.RawIdsNotHex | GoMetrics.HexExemplarToWasi |
| go/logs/conversions_test.go:44 | the test expects bytes as `{base64}:` followed by the payload | "Hello, world!" | the `data:application/octet-stream;base64,` prefix the code writes | not executed | GoLogs.TestBytesDisagree | GoLogs.BytesText |
| go/logs/conversions.go:144-149 | nested values are marshalled, read back into `any` and so into float64 | `2^53+1` inside a slice is written as `2^53` | integers written exactly at every depth | not executed | GoLogs.NestedIntegerRounds | GoLogs.ExactIntegers |
| go/wasip1/traces/processor.go:85-87 | value receivers: `Shutdown` only calls `ForceFlush` and never sets the flag | shutdown twice: both succeed and spans still reach the host | the second shutdown fails and later calls are no-ops | not executed | GoWasip1Traces.RepeatedShutdowns | GoProcessor.ShutdownTwice |
| go/wasip2/processor.go:86-88 | the same non-latching `Shutdown` | shutdown twice: both succeed | the second shutdown fails | not executed | GoWasip2Processor.RepeatedShutdowns | Lifecycle.StuckDiffers |
| go/wasip2/conversion.go:35-80 | each builder rebuilds the list from the current element alone, with the input's length | two attributes: a list of length 2 backed by one element | every element, in order | not executed | GoWasip2Conversion.LastOnlyOverruns | GoWasip2Conversion.FullList |
| go/wasip2/conversion.go:15-25 | the trace-state list is rebuilt for each member with length 2 | any non-empty trace state | every member, in walk order | not executed | GoWasip2Conversion.TraceStateList | GoWasip2Conversion.TraceStateFull |
| go/wasip2/conversion.go:27-33 | seconds are `t.Second()`, the second of the minute | Unix times 0 and 60 give the same datetime | `uint64(t.Unix())` | not executed | GoWasip2Conversion.DateTimeLosesMinutes | GoTypes.ToWasiTime |
| ts/src/logs.test.ts:32 | the test expects bytes as `{base64}:` followed by the payload | "Hello, world!" | the `data:application/octet-stream;base64,` prefix the code writes | not executed | TsLogs.TestBytesDisagree | TsLogs.BytesText |
| ts/src/logs.ts:33 | `r.body ? ... : undefined` drops every falsy body | a body of `false`, `0`, `""` or `null` | drop only an undefined body | not executed | TsLogs.FalsyBodyDropped | TsLogs.IntendedBody |
| ts/src/types.ts:30-49 | integers are handed to `JSON.stringify` as a `BigInt` or a `BigInt64Array`, which it refuses with a `TypeError` | a span attribute `http.status_code = 200`: `onEnd` throws and the span never reaches the host | the integer written as JSON decimal text | not executed | TsTypes.IntegerAttributeThrows | TsTypes.IntendedValueText |
