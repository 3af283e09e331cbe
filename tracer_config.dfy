/**
 * The configuration decisions of `JambonzTracer` in `src/tracer.js`:
 * whether a pipeline is set up at all, which exporter it uses, the
 * diagnostic log level, the batch processor's constants and the propagator
 * it registers.  The SDK objects themselves are reduced to the values
 * these decisions choose.
 */
module TracerConfig {
  import opened Wrappers
  import opened Propagator

  /** The options object the constructor receives.  `name` (used to build
      the tracer) and `serviceName` (returned by the `name` getter) are two
      separate properties. */
  datatype TracerOptions = TracerOptions(
    name: Option<string>,
    serviceName: Option<string>,
    enabled: Option<bool>,
    version: Option<string>,
    jaegerHost: Option<string>,
    jaegerEndpoint: Option<string>,
    zipkinUrl: Option<string>,
    collectorUrl: Option<string>,
    logLevel: Option<string>)

  /** The exporter chosen, with the arguments it is constructed with. */
  datatype Exporter = Jaeger | Zipkin(zipkinUrl: string) | Otlp(collectorUrl: Option<string>)

  /** `DiagLogLevel` values the diagnostic logger may be set to. */
  datatype DiagLogLevel = Warn | Info | Debug | Verbose

  datatype BatchOptions = BatchOptions(
    maxQueueSize: nat,
    maxExportBatchSize: nat,
    scheduledDelayMillis: nat,
    exportTimeoutMillis: nat)

  /** What an enabled tracer configures: the provider's resource, the
      exporter, the diagnostic level, the batch span processor and the
      propagator it registers process-wide. */
  datatype Pipeline = Pipeline(
    serviceName: Option<string>,
    serviceVersion: Option<string>,
    exporter: Exporter,
    logLevel: DiagLogLevel,
    batch: BatchOptions,
    propagator: GlobalPropagator)

  /** `trace.getTracer(name)` together with the pipeline set up beforehand, if any. */
  datatype TracerHandle = TracerHandle(name: Option<string>, pipeline: Option<Pipeline>)

  /** Jaeger when a Jaeger host or endpoint is given (the exporter then reads
      its own settings), else Zipkin when a Zipkin URL is given, else OTLP
      with the collector URL, which may be absent. */
  function SelectExporter(o: TracerOptions): (e: Exporter)
    ensures e == Jaeger <==> TruthyString(o.jaegerHost) || TruthyString(o.jaegerEndpoint)
    ensures e.Zipkin? <==> !(TruthyString(o.jaegerHost) || TruthyString(o.jaegerEndpoint)) && TruthyString(o.zipkinUrl)
    ensures e.Zipkin? ==> e.zipkinUrl == o.zipkinUrl.value
    ensures e.Otlp? <==> !(TruthyString(o.jaegerHost) || TruthyString(o.jaegerEndpoint) || TruthyString(o.zipkinUrl))
    ensures e.Otlp? ==> e.collectorUrl == o.collectorUrl
  {
    if TruthyString(o.jaegerHost) || TruthyString(o.jaegerEndpoint) then Jaeger
    else if TruthyString(o.zipkinUrl) then Zipkin(o.zipkinUrl.value)
    else Otlp(o.collectorUrl)
  }

  /** `switch (logLevel || 'warn')`: three names map to their levels, every
      other value, absent included, to WARN. */
  function LogLevelOf(logLevel: Option<string>): (l: DiagLogLevel)
    ensures l == Info <==> logLevel == Some("info")
    ensures l == Debug <==> logLevel == Some("debug")
    ensures l == Verbose <==> logLevel == Some("trace")
    ensures l == Warn <==> logLevel !in {Some("info"), Some("debug"), Some("trace")}
  {
    match logLevel.GetOr("warn")
    case "info" => Info
    case "debug" => Debug
    case "trace" => Verbose
    case _ => Warn
  }

  /** The batch span processor's settings; an export batch never exceeds the queue. */
  function BatchProcessorOptions(): (b: BatchOptions)
    ensures b.maxExportBatchSize <= b.maxQueueSize
    ensures b == BatchOptions(100, 10, 500, 30000)
  {
    BatchOptions(100, 10, 500, 30000)
  }

  /** `buildTracer()`: when `enabled` is falsy nothing is configured and the
      result is only the tracer for `name`; otherwise a pipeline is built
      from the options and this library's propagator is registered. */
  function BuildTracer(o: TracerOptions): (t: TracerHandle)
    ensures t.name == o.name
    ensures t.pipeline.Some? <==> TruthyBool(o.enabled)
    ensures t.pipeline.Some? ==>
      && t.pipeline.value.serviceName == o.name
      && t.pipeline.value.serviceVersion == o.version
      && t.pipeline.value.exporter == SelectExporter(o)
      && t.pipeline.value.logLevel == LogLevelOf(o.logLevel)
      && t.pipeline.value.batch == BatchProcessorOptions()
      && t.pipeline.value.batch.maxExportBatchSize <= t.pipeline.value.batch.maxQueueSize
      && t.pipeline.value.propagator == JambonzPropagator
  {
    if TruthyBool(o.enabled) then
      TracerHandle(o.name, Some(Pipeline(o.name, o.version, SelectExporter(o), LogLevelOf(o.logLevel),
                                         BatchProcessorOptions(), JambonzPropagator)))
    else TracerHandle(o.name, None)
  }

  /** Once a pipeline is built, `propagation.extract` runs this library's
      extraction; without one it is the API's no-op. */
  function RegisteredPropagator(t: TracerHandle): (p: GlobalPropagator)
    ensures t.pipeline.None? ==> p == NoopPropagator
    ensures t.pipeline.Some? ==> p == t.pipeline.value.propagator
  {
    if t.pipeline.Some? then t.pipeline.value.propagator else NoopPropagator
  }

  /** Building a tracer registers this library's propagator exactly when
      tracing is enabled. */
  lemma EnabledRegistersPropagator(o: TracerOptions)
    ensures RegisteredPropagator(BuildTracer(o)) == JambonzPropagator <==> TruthyBool(o.enabled)
  {
  }

  class JambonzTracer {
    const traceOptions: TracerOptions
    /** `_tracer`, built once, when the object is constructed. */
    const tracer: TracerHandle := BuildTracer(traceOptions)

    constructor (traceOptions: TracerOptions)
      ensures this.traceOptions == traceOptions
      ensures tracer == BuildTracer(traceOptions)
    {
      this.traceOptions := traceOptions;
    }

    /** `get tracer()`. */
    function GetTracer(): (t: TracerHandle)
      ensures t == BuildTracer(traceOptions)
    {
      tracer
    }

    /** `get name()`: the `serviceName` option, not the `name` the tracer was built from. */
    function GetName(): (n: Option<string>)
      ensures n == traceOptions.serviceName
    {
      traceOptions.serviceName
    }

    /** `get enabled()`: the option as given. */
    function GetEnabled(): (e: Option<bool>)
      ensures e == traceOptions.enabled
    {
      traceOptions.enabled
    }
  }

  /** The `name` getter and the tracer's name come from different options:
      options giving only `serviceName` build a tracer with no name while
      the getter reports the service name. */
  lemma NameGetterIsNotTracerName(t: JambonzTracer)
    requires t.traceOptions.name == None && t.traceOptions.serviceName == Some("sbc")
    ensures t.GetName() == Some("sbc") && t.GetTracer().name == None
  {
  }

  /** A disabled tracer configures nothing, whatever the other options say. */
  lemma DisabledConfiguresNothing(o: TracerOptions)
    requires !TruthyBool(o.enabled)
    ensures BuildTracer(o) == TracerHandle(o.name, None)
    ensures RegisteredPropagator(BuildTracer(o)) == NoopPropagator
  {
  }
}
