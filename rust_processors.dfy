/**
 * The span processor of the tracing crate (rust/crates/tracing/src/processor.rs). The flag is
 * the `AtomicBool`, read and swapped by single-threaded calls; the host's `on_start` and
 * `on_end` imports are channels that record what they receive.
 */
module RustSpanProcessor {
  import opened Wrappers
  import Sdk = RustSdk
  import W = Schema
  import RustTracing
  import L = Lifecycle

  class WasiSpanProcessor {
    var isShutdown: bool

    constructor ()
      ensures !isShutdown
    {
      isShutdown := false;
    }

    /** `on_start`: the span context of the span's exported data, unless shut down or there is none. */
    method OnStart(exported: Option<Sdk.SpanData>, host: L.Channel<W.SpanContext>)
      modifies host
      ensures isShutdown || exported.None? ==> host.sent == old(host.sent)
      ensures !isShutdown && exported.Some? ==>
        host.sent == old(host.sent) + [RustTracing.SpanContextToWasi(exported.value.spanContext)]
    {
      if isShutdown {
        return;
      }
      if exported.Some? {
        host.Send(RustTracing.SpanContextToWasi(exported.value.spanContext));
      }
    }

    /** `on_end`: the converted span, unless shut down; a span the conversion rejects panics. */
    method OnEnd(span: Sdk.SpanData, host: L.Channel<W.SpanData<W.Value>>) returns (r: Outcome<()>)
      modifies host
      ensures isShutdown ==> r == Ok(()) && host.sent == old(host.sent)
      ensures !isShutdown ==> (r.Ok? <==> RustTracing.Convertible(span))
      ensures !isShutdown && r.Ok? ==> host.sent == old(host.sent) + [RustTracing.SpanDataToWasi(span).value]
      ensures r.Abort? ==> host.sent == old(host.sent)
    {
      if isShutdown {
        return Ok(());
      }
      var data :- RustTracing.SpanDataToWasi(span);
      host.Send(data);
      r := Ok(());
    }

    method ForceFlush() returns (r: SdkResult)
      ensures r == L.FlushReply(isShutdown, AlreadyShutdown)
    {
      if isShutdown {
        return Failure(AlreadyShutdown);
      }
      r := Success;
    }

    /** `shutdown`: flushes first, then swaps the flag; a second shutdown fails. */
    method Shutdown() returns (r: SdkResult)
      modifies this
      ensures isShutdown == L.Next(old(isShutdown), L.Stop)
      ensures L.Answered(r) == L.ReplyTo(old(isShutdown), L.Stop, AlreadyShutdown)
    {
      var result := ForceFlush();
      var was := isShutdown;
      isShutdown := true;
      if was {
        return Failure(AlreadyShutdown);
      }
      r := result;
    }
  }

  /** A new processor: the first shutdown succeeds, a second fails, and so does a later flush. */
  method ShutdownTwice() returns (first: SdkResult, second: SdkResult, flush: SdkResult)
    ensures first == Success && second == Failure(AlreadyShutdown) && flush == Failure(AlreadyShutdown)
  {
    var p := new WasiSpanProcessor();
    first := p.Shutdown();
    second := p.Shutdown();
    flush := p.ForceFlush();
  }
}

/**
 * The span processor of the older guest (rust/src/processor.rs): the same machine with the
 * older error type, `TraceError::Other("Processor already shutdown")`.
 */
module RustProcessor {
  import opened Wrappers
  import Sdk = RustSdk
  import W = Schema
  import RustTracing
  import L = Lifecycle

  const ALREADY_SHUTDOWN: SdkError := Other("Processor already shutdown")

  class WasiProcessor {
    var isShutdown: bool

    constructor ()
      ensures !isShutdown
    {
      isShutdown := false;
    }

    method OnStart(exported: Option<Sdk.SpanData>, host: L.Channel<W.SpanContext>)
      modifies host
      ensures isShutdown || exported.None? ==> host.sent == old(host.sent)
      ensures !isShutdown && exported.Some? ==>
        host.sent == old(host.sent) + [RustTracing.SpanContextToWasi(exported.value.spanContext)]
    {
      if isShutdown {
        return;
      }
      if exported.Some? {
        host.Send(RustTracing.SpanContextToWasi(exported.value.spanContext));
      }
    }

    method OnEnd(span: Sdk.SpanData, host: L.Channel<W.SpanData<W.Value>>) returns (r: Outcome<()>)
      modifies host
      ensures isShutdown ==> r == Ok(()) && host.sent == old(host.sent)
      ensures !isShutdown ==> (r.Ok? <==> RustTracing.Convertible(span))
      ensures !isShutdown && r.Ok? ==> host.sent == old(host.sent) + [RustTracing.SpanDataToWasi(span).value]
      ensures r.Abort? ==> host.sent == old(host.sent)
    {
      if isShutdown {
        return Ok(());
      }
      var data :- RustTracing.SpanDataToWasi(span);
      host.Send(data);
      r := Ok(());
    }

    method ForceFlush() returns (r: SdkResult)
      ensures r == L.FlushReply(isShutdown, ALREADY_SHUTDOWN)
    {
      if isShutdown {
        return Failure(ALREADY_SHUTDOWN);
      }
      r := Success;
    }

    method Shutdown() returns (r: SdkResult)
      modifies this
      ensures isShutdown == L.Next(old(isShutdown), L.Stop)
      ensures L.Answered(r) == L.ReplyTo(old(isShutdown), L.Stop, ALREADY_SHUTDOWN)
    {
      var result := ForceFlush();
      var was := isShutdown;
      isShutdown := true;
      if was {
        return Failure(ALREADY_SHUTDOWN);
      }
      r := result;
    }
  }

  method ShutdownTwice() returns (first: SdkResult, second: SdkResult)
    ensures first == Success && second == Failure(Other("Processor already shutdown"))
  {
    var p := new WasiProcessor();
    first := p.Shutdown();
    second := p.Shutdown();
  }
}

/**
 * The log processor of the older guest (rust/src/logs/processor.rs). It keeps the resource it
 * was built with; `emit` never reads the flag.
 */
module RustLogProcessor {
  import opened Wrappers
  import Sdk = RustSdk
  import W = Schema
  import J = Json
  import RustLogs
  import L = Lifecycle

  class WasiLogProcessor {
    var isShutdown: bool
    const resource: Option<Sdk.Resource>

    constructor (resource: Option<Sdk.Resource>)
      ensures !isShutdown && this.resource == resource
    {
      this.resource := resource;
      isShutdown := false;
    }

    /**
     * `emit`: the record converted with the processor's own resource, whatever the flag says.
     * The scope and resource converters and the float formatter are the conversion's parameters.
     */
    method Emit(
      rec: Sdk.LogRecord,
      scope: Sdk.InstrumentationScope,
      host: L.Channel<W.LogRecord>,
      convertScope: RustLogs.ScopeConversion,
      convertResource: RustLogs.ResourceConversion,
      ft: J.FloatFormatter) returns (r: Outcome<()>)
      modifies host
      ensures r.Ok? <==>
        RustLogs.RecordConvertible(rec) && RustLogs.ContextConvertible(scope, resource, convertScope, convertResource)
      ensures r.Abort? ==> r.reason == RustLogs.LogRecordToWasi(rec, scope, resource, convertScope, convertResource, ft).reason
      ensures r.Ok? ==>
        host.sent == old(host.sent) + [RustLogs.LogRecordToWasi(rec, scope, resource, convertScope, convertResource, ft).value]
      ensures r.Abort? ==> host.sent == old(host.sent)
    {
      var converted :- RustLogs.LogRecordToWasi(rec, scope, resource, convertScope, convertResource, ft);
      host.Send(converted);
      r := Ok(());
    }

    method ForceFlush() returns (r: SdkResult)
      ensures r == L.FlushReply(isShutdown, AlreadyShutdown)
    {
      if isShutdown {
        return Failure(AlreadyShutdown);
      }
      r := Success;
    }

    method Shutdown() returns (r: SdkResult)
      modifies this
      ensures isShutdown == L.Next(old(isShutdown), L.Stop)
      ensures L.Answered(r) == L.ReplyTo(old(isShutdown), L.Stop, AlreadyShutdown)
    {
      var result := ForceFlush();
      var was := isShutdown;
      isShutdown := true;
      if was {
        return Failure(AlreadyShutdown);
      }
      r := result;
    }
  }

  /** After shutdown a record is still forwarded, with the resource given at construction. */
  method EmitAfterShutdown(
    rec: Sdk.LogRecord,
    scope: Sdk.InstrumentationScope,
    resource: Option<Sdk.Resource>,
    convertScope: RustLogs.ScopeConversion,
    convertResource: RustLogs.ResourceConversion,
    ft: J.FloatFormatter) returns (sent: seq<W.LogRecord>, flush: SdkResult)
    requires RustLogs.RecordConvertible(rec)
    ensures RustLogs.ContextConvertible(scope, resource, convertScope, convertResource) ==>
      sent == [RustLogs.LogRecordToWasi(rec, scope, resource, convertScope, convertResource, ft).value]
    ensures !RustLogs.ContextConvertible(scope, resource, convertScope, convertResource) ==> sent == []
    ensures flush == Failure(AlreadyShutdown)
  {
    var p := new WasiLogProcessor(resource);
    var host := new L.Channel<W.LogRecord>();
    var _ := p.Shutdown();
    var _ := p.Emit(rec, scope, host, convertScope, convertResource, ft);
    sent := host.sent;
    flush := p.ForceFlush();
  }
}

/**
 * The log processor of the logging crate (rust/crates/logging/src/processor.rs). `emit` never
 * reads the flag and panics with the host's message when the host import returns an error.
 * The crate's record conversion is a parameter here.
 */
module RustLoggingProcessor {
  import opened Wrappers
  import Sdk = RustSdk
  import L = Lifecycle

  class WasiLogProcessor {
    var isShutdown: bool

    constructor ()
      ensures !isShutdown
    {
      isShutdown := false;
    }

    /**
     * `emit`: the converted record goes to the host; an `Err(v)` from the host panics with `v`.
     * A conversion that panics does so before the host is called, and nothing is sent.
     */
    method Emit<R>(rec: Sdk.LogRecord, convert: Sdk.LogRecord -> Outcome<R>, host: L.Channel<R>, hostError: Option<string>)
      returns (r: Outcome<()>)
      modifies host
      ensures convert(rec).Ok? ==> host.sent == old(host.sent) + [convert(rec).value]
      ensures convert(rec).Abort? ==> host.sent == old(host.sent) && r == Abort(convert(rec).reason)
      ensures r.Abort? <==> convert(rec).Abort? || hostError.Some?
      ensures convert(rec).Ok? && r.Abort? ==> r.reason == hostError.value
    {
      var converted :- convert(rec);
      host.Send(converted);
      match hostError
      case None => r := Ok(());
      case Some(v) => r := Abort(v);
    }

    method ForceFlush() returns (r: SdkResult)
      ensures r == L.FlushReply(isShutdown, AlreadyShutdown)
    {
      if isShutdown {
        return Failure(AlreadyShutdown);
      }
      r := Success;
    }

    method Shutdown() returns (r: SdkResult)
      modifies this
      ensures isShutdown == L.Next(old(isShutdown), L.Stop)
      ensures L.Answered(r) == L.ReplyTo(old(isShutdown), L.Stop, AlreadyShutdown)
    {
      var result := ForceFlush();
      var was := isShutdown;
      isShutdown := true;
      if was {
        return Failure(AlreadyShutdown);
      }
      r := result;
    }
  }

  method ShutdownTwice() returns (first: SdkResult, second: SdkResult)
    ensures first == Success && second == Failure(AlreadyShutdown)
  {
    var p := new WasiLogProcessor();
    first := p.Shutdown();
    second := p.Shutdown();
  }
}

/**
 * The metric exporter of the metrics crate (rust/crates/metrics/src/exporter.rs). `export`
 * never reads the flag, and `shutdown` swaps it without flushing.
 */
module RustMetricExporter {
  import opened Wrappers
  import Sdk = RustSdk
  import RustMetrics
  import RustCrateMetrics
  import L = Lifecycle

  class WasiMetricExporter {
    var isShutdown: bool

    constructor ()
      ensures !isShutdown
    {
      isShutdown := false;
    }

    /**
     * `export`: converts and hands the metrics to the host; a host error becomes `InternalFailure`
     * with its message. A conversion that panics reaches neither the host nor a result.
     */
    method Export(
      metrics: RustCrateMetrics.ResourceMetrics,
      enc: RustMetrics.IdEncoding,
      host: L.Channel<RustCrateMetrics.WasiResourceMetrics>,
      hostError: Option<string>) returns (r: Outcome<SdkResult>)
      modifies host
      ensures r.Ok? ==> r.value == (if hostError.Some? then Failure(InternalFailure(hostError.value)) else Success)
      ensures r.Abort? ==> host.sent == old(host.sent)
      ensures r.Ok? <==> RustCrateMetrics.ResourceMetricsOf(metrics, enc).Ok?
      ensures r.Ok? ==> host.sent == old(host.sent) + [RustCrateMetrics.ResourceMetricsOf(metrics, enc).value]
    {
      var converted :- RustCrateMetrics.ResourceMetricsToWasi(metrics, enc);
      host.Send(converted);
      match hostError
      case None => r := Ok(Success);
      case Some(e) => r := Ok(Failure(InternalFailure(e)));
    }

    method ForceFlush() returns (r: SdkResult)
      ensures r == L.FlushReply(isShutdown, AlreadyShutdown)
    {
      if isShutdown {
        return Failure(AlreadyShutdown);
      }
      r := Success;
    }

    /** `shutdown`: only the swap; the reply is still the one a flush would give. */
    method Shutdown() returns (r: SdkResult)
      modifies this
      ensures isShutdown == L.Next(old(isShutdown), L.Stop)
      ensures L.Answered(r) == L.ReplyTo(old(isShutdown), L.Stop, AlreadyShutdown)
    {
      var was := isShutdown;
      isShutdown := true;
      if was {
        return Failure(AlreadyShutdown);
      }
      r := Success;
    }

    /** `temporality`: always cumulative. */
    method Temporality() returns (t: Sdk.Temporality)
      ensures t == Sdk.Cumulative
    {
      t := Sdk.Cumulative;
    }
  }

  method ShutdownTwice() returns (first: SdkResult, second: SdkResult)
    ensures first == Success && second == Failure(AlreadyShutdown)
  {
    var e := new WasiMetricExporter();
    first := e.Shutdown();
    second := e.Shutdown();
  }
}

/**
 * The metric reader of the older guest (rust/src/metrics/reader.rs): a handle on a shared
 * `ManualReader`. The SDK's reader is outside this model; of it only the temporality selector
 * it was built with and the number of collections made through it are kept.
 */
module RustMetricReader {
  import opened Wrappers
  import Sdk = RustSdk
  import W = Schema
  import M = MetricsSchema
  import RustMetrics
  import L = Lifecycle

  datatype InstrumentKind =
    | Counter | UpDownCounter | Histogram | Gauge
    | ObservableCounter | ObservableGauge | ObservableUpDownCounter

  predicate Asynchronous(k: InstrumentKind)
  {
    k.ObservableCounter? || k.ObservableGauge? || k.ObservableUpDownCounter?
  }

  const ASYNC_UNSUPPORTED := "Async InstrumentKinds are not yet supported"

  /** The SDK's `ManualReader`, shared between handles. */
  class ManualReader {
    const selector: InstrumentKind -> Sdk.Temporality
    var collections: nat

    constructor (selector: InstrumentKind -> Sdk.Temporality)
      ensures this.selector == selector && collections == 0
    {
      this.selector := selector;
      collections := 0;
    }

    /** One collection; whether the SDK's pipeline fails it is given. */
    method Collect(failure: Option<SdkError>) returns (err: Option<SdkError>)
      modifies this
      ensures collections == old(collections) + 1
      ensures err == failure
    {
      collections := collections + 1;
      err := failure;
    }
  }

  class WasiMetricReader {
    const reader: ManualReader

    constructor (selector: InstrumentKind -> Sdk.Temporality)
      ensures fresh(reader) && reader.selector == selector && reader.collections == 0
    {
      reader := new ManualReader(selector);
    }

    /** `reader()`: a second handle on the same underlying reader. */
    method Reader() returns (h: WasiMetricReader)
      ensures fresh(h) && h.reader == reader
    {
      h := new WasiMetricReader.Share(reader);
    }

    constructor Share(reader: ManualReader)
      ensures this.reader == reader
    {
      this.reader := reader;
    }

    /** `pull` is `unimplemented!()`. */
    method Pull() returns (r: Outcome<Sdk.ResourceMetrics>)
      ensures r.Abort?
    {
      r := Abort("not implemented");
    }

    /**
     * `push`: one collection into a fresh `ResourceMetrics` (`produced` is what it fills in); a collection error is returned and
     * nothing is exported; otherwise the converted metrics go to the host's `collect`, whose error
     * (already mapped to the SDK's error) is the result.
     */
    method Push(
      produced: Sdk.ResourceMetrics,
      collectError: Option<SdkError>,
      convertResource: RustMetrics.ResourceConversion,
      convertScope: RustMetrics.ScopeConversion,
      enc: RustMetrics.IdEncoding,
      host: L.Channel<M.ResourceMetrics<W.Value>>,
      hostError: Option<SdkError>) returns (r: Outcome<SdkResult>)
      modifies reader, host
      ensures reader.collections == old(reader.collections) + 1
      ensures collectError.Some? ==> r == Ok(Failure(collectError.value)) && host.sent == old(host.sent)
      ensures collectError.None? ==>
        (r.Ok? <==> RustMetrics.ResourceMetricsToWasi(produced, convertResource, convertScope, enc).Ok?)
      ensures collectError.None? && r.Ok? ==>
        host.sent == old(host.sent) + [RustMetrics.ResourceMetricsToWasi(produced, convertResource, convertScope, enc).value]
        && r.value == (if hostError.Some? then Failure(hostError.value) else Success)
      ensures r.Abort? ==> host.sent == old(host.sent)
      ensures r.Abort? ==> r.reason == RustMetrics.ResourceMetricsToWasi(produced, convertResource, convertScope, enc).reason
    {
      var err := reader.Collect(collectError);
      if err.Some? {
        return Ok(Failure(err.value));
      }
      var converted :- RustMetrics.ResourceMetricsToWasi(produced, convertResource, convertScope, enc);
      host.Send(converted);
      r := Ok(if hostError.Some? then Failure(hostError.value) else Success);
    }

    /** `temporality`: asynchronous instruments panic; every other kind asks the shared reader. */
    method Temporality(kind: InstrumentKind) returns (r: Outcome<Sdk.Temporality>)
      ensures Asynchronous(kind) ==> r == Abort(ASYNC_UNSUPPORTED)
      ensures !Asynchronous(kind) ==> r == Ok(reader.selector(kind))
    {
      if Asynchronous(kind) {
        return Abort(ASYNC_UNSUPPORTED);
      }
      r := Ok(reader.selector(kind));
    }
  }

  /** A push through the retained handle collects from the very reader the provider was given. */
  method PushThroughRetainedHandle(
    selector: InstrumentKind -> Sdk.Temporality,
    produced: Sdk.ResourceMetrics,
    convertResource: RustMetrics.ResourceConversion,
    convertScope: RustMetrics.ScopeConversion,
    enc: RustMetrics.IdEncoding) returns (installed: nat, retained: nat, kind: Outcome<Sdk.Temporality>)
    ensures installed == 1 && retained == 1
    ensures kind == Ok(selector(Counter))
  {
    var provider := new WasiMetricReader(selector);
    var handle := provider.Reader();
    assert handle.reader == provider.reader;
    var host := new L.Channel<M.ResourceMetrics<W.Value>>();
    var _ := handle.Push(produced, None, convertResource, convertScope, enc, host, None);
    assert provider.reader.collections == 1;
    installed, retained := provider.reader.collections, handle.reader.collections;
    kind := provider.Temporality(Counter);
  }
}
