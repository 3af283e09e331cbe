# jambonz tracing — a Dafny model

This project models the trace-context core of the jambonz tracing library:

- the **propagator** (`src/propagator.js`), which reads a `traceId`/`spanId` pair from a carrier into an OpenTelemetry context and writes the pair of a valid context back through a setter;
- the **span wrappers** of `src/spans.js` (`BaseSpan`, `RootSpan`, `ChildSpan`) and the earlier `RootSpan` of `lib/root-span.js`, which hold a backend span and its context, render the B3 single-header string and the two SIP headers, forward attributes, error status and `end()` to the backend, and start child spans;
- the **tracer configuration** decisions of `JambonzTracer` (`src/tracer.js`): the enabled gate, exporter choice, diagnostic log level, batch constants and propagator registration;
- the immutable **`TraceOptions`** record of `lib/trace-options.js`.

Modules, one per component:

| file | module | models |
|---|---|---|
| `wrappers.dfy` | `Wrappers` | optional values and JavaScript truthiness of strings and booleans |
| `trace_ids.dfy` | `TraceIds` | the OpenTelemetry id checks (`isValidTraceId`, `isValidSpanId`), `replaceAll('-', '')`, and the ids as 128/64-bit numbers |
| `otel.dfy` | `Otel` | span contexts, the immutable `Context`, the backend span and tracer (a class each), a logger as an event trace |
| `propagator.dfy` | `Propagator` | `fields`, `extract`, `inject`, and the process-wide propagator `propagation.extract` dispatches to |
| `spans.dfy` | `Spans` | `src/spans.js` |
| `lib_root_span.dfy` | `LibRootSpan` | `lib/root-span.js` |
| `tracer_config.dfy` | `TracerConfig` | `src/tracer.js` |
| `trace_options.dfy` | `TraceOptionsRecord` | `lib/trace-options.js` |

Modelling choices:

- Strings are `seq<char>`. A carrier property that is `undefined` or `null` is `None`. A property is "truthy" when it is present and non-empty.
- `Context` is a datatype with three parts: the span entry, the tracing-suppressed flag and every other entry. The span entry is either a bare span context or a reference to a started backend span. `trace.getSpanContext` reads a started span's ids from that span at the time of the call. `trace.setSpanContext` and `trace.setSpan` replace only the span entry.
- `RootSpan`, `ChildSpan` and `BaseSpan` of `src/spans.js` are one class, `Spans.Span`. Its `variant` field records which constructor made the object. `StartChildSpan` behaves as `RootSpan`'s override for the root variant and as `BaseSpan`'s method otherwise.
- The backend span (`Otel.BackendSpan`) is a class. Its mutable fields are `traceId`, `spanId`, `traceFlags`, `ended`, `status`, `attributes` and `endCalls`. It also records the tracer that started it, the start argument and the parent context. `Tracer.StartSpan` returns a fresh object. It may pick any ids, with one stated assumption about backend behaviour: a span started under a valid parent span context, in a context that does not suppress tracing and without asking for a new trace, inherits that context's trace id (`Otel.InheritsTraceId`). A start argument asks for a new trace when it has `root: true`, or when it is an attribute map with a truthy `root` entry, since tracers read `root` from whatever object they are given (`Otel.RequestsRoot`). Ending a backend span sets its `ended` flag.
- `context.active()` and the registered global propagator are explicit parameters of the `src/spans.js` root-span constructor. Until a tracer provider registers this library's propagator, `propagation.extract` is the API's no-op and returns the context unchanged. The `lib/root-span.js` constructor hands the whole request to whatever propagator the `lib` package registers. That propagator is not part of this model, so the context it returns is an input of that constructor.
- A JavaScript call either returns or throws. Where a span-wrapper member dereferences a logger or backend span that may be missing, the model returns a `Result`: `Success` with the value, or `Failure` for the `TypeError`.
- The carrier that `inject` writes to is a `MapCarrier` object. Its `Set` plays the default text-map setter, and it logs every write in order.
- `extract` never pads a short id, and reads only the carrier's top-level `traceId` and `spanId` properties.
- The two span-wrapper files guard `end()` differently, and the model keeps that visible. `src/spans.js` tests the wrapper's own `ended` property, which nothing assigns, so every `end()` calls the backend span's `end()` (`Spans.EndTwice`). `lib/root-span.js` tests the backend span's `ended` flag, so a second `end()` does nothing (`LibRootSpan.EndTwice`).
- The `name` getter of `JambonzTracer` returns the `serviceName` option. The tracer and its resource are built from the `name` option. The model keeps these as two separate fields (`TracerConfig.NameGetterIsNotTracerName`).

## Model

| member | source | states |
|---|---|---|
| `TraceIds.ZeroIdsAreAllZeros` | src/spans.js:110 | the reserved ids compared against are exactly the all-`'0'` strings of length 32 and 16 |
| `TraceIds.IsValidTraceId` | src/propagator.js:57 | `isValidTraceId`: exactly the strings of 32 hex digits, in either case, that are not all zeros |
| `TraceIds.IsValidSpanId` | src/propagator.js:57 | `isValidSpanId`: exactly the strings of 16 hex digits, in either case, that are not all zeros |
| `TraceIds.RemoveDashes` | src/propagator.js:55 | `replaceAll('-', '')`: the result has no dash, contains exactly the non-dash characters of the input, and is no longer than it; counts and order are stated by `RemoveDashesCounts` and `RemoveDashesConcat` |
| `TraceIds.RemoveDashesCounts` | src/propagator.js:55 | every non-dash character occurs in the result as often as in the input, and no dash remains |
| `TraceIds.RemoveDashesConcat` | src/propagator.js:55 | dash removal distributes over concatenation |
| `TraceIds.RemoveDashesKeepsDashFree` | src/propagator.js:55 | a string without dashes is returned unchanged |
| `TraceIds.RemoveDashesIgnoresInsertedDash` | src/propagator.js:55 | inserting a dash anywhere does not change the cleaned string |
| `TraceIds.RemoveDashesSplitsAtDash` | src/propagator.js:55 | cleaning `a-b` gives cleaned `a` followed by cleaned `b` |
| `TraceIds.RemoveDashesJoinsGroups` | src/propagator.js:55 | a UUID-shaped call id of dash-free groups cleans to the concatenation of its groups |
| `TraceIds.ValidIdsAreDashFree` | src/propagator.js:55-57 | a hexadecimal id contains no dash, so cleaning leaves it unchanged |
| `TraceIds.HexValueBound` | src/propagator.js:57 | a hex string of n digits denotes a number below 16^n |
| `TraceIds.HexValueZeroIff` | src/propagator.js:57 | a hex string denotes zero exactly when every digit is `'0'` |
| `TraceIds.ValidTraceIdIsNonZero128` | src/propagator.js:57 | a 32-digit hex string passes `isValidTraceId` exactly when it denotes a non-zero number, and it is below 2^128 |
| `TraceIds.ValidSpanIdIsNonZero64` | src/propagator.js:57 | a 16-digit hex string passes `isValidSpanId` exactly when it denotes a non-zero number, and it is below 2^64 |
| `Otel.IsSpanContextValid` | src/propagator.js:37 | `isSpanContextValid`: exactly the contexts whose trace id is 32 hex digits and whose span id is 16 hex digits, neither all zeros |
| `Otel.GetSpanContext` | src/propagator.js:36 | no span entry gives no span context; a bare span context is returned as stored; a started span's context is the one that span reports at the time of the call |
| `Otel.SetSpanContext` | src/propagator.js:60-65 | the new context's span context is the one given; suppression and all other entries are unchanged |
| `Otel.SetSpan` | src/spans.js:30 | the new context holds the given span; suppression and all other entries are unchanged |
| `Otel.BackendSpan.constructor` | src/spans.js:29 | a new backend span records its tracer, name, start argument, parent and ids; it is not ended, has no status and no attributes |
| `Otel.BackendSpan.SpanContextNow` | src/spans.js:85 | `spanContext()` reports the span's current ids and flags, as a local (not remote) context (assumed SDK behaviour) |
| `Otel.BackendSpan.SetAttributes` | src/spans.js:135 | given keys take the given values; other keys keep theirs |
| `Otel.BackendSpan.SetStatus` | src/spans.js:144-147 | the status becomes the one given |
| `Otel.BackendSpan.End` | src/spans.js:158 | the span is ended and the count of `end()` calls on it grows by one |
| `Otel.Tracer.constructor` | src/tracer.js:102 | the tracer keeps the name it was obtained for |
| `Otel.Tracer.StartSpan` | src/spans.js:29 | a fresh, unended span started by this tracer with the given name, argument and parent; under a valid parent, unless tracing is suppressed or the argument asks for a new trace, it inherits the trace id (assumed backend behaviour) |
| `Otel.Logger.constructor` | src/spans.js:65 | a new logger has recorded nothing |
| `Otel.Logger.Debug` | src/spans.js:157 | appends one debug event |
| `Otel.Logger.Info` | src/spans.js:160 | appends one info event |
| `Propagator.Fields` | src/propagator.js:68-70 | exactly `traceId` then `spanId` |
| `Propagator.Prefix16` | src/propagator.js:56 | `substring(0, 16)`: a prefix of at most 16 characters, exactly 16 when the input has that many, and the whole input when it is no longer than 16 |
| `Propagator.EffectiveSpanId` | src/propagator.js:56 | a truthy supplied span id is used as given; otherwise the span id is the first 16 characters of the cleaned trace id, or all of a shorter one |
| `Propagator.Extract` | src/propagator.js:50-66 | a falsy `traceId` returns the input context; any other change installs only a valid, remote, sampled span context whose trace id is the carrier's without dashes |
| `Propagator.ExtractAccepts` | src/propagator.js:55-65 | when the cleaned trace id and the effective span id are both valid, the result is the input context with exactly that remote sampled span context set |
| `Propagator.ExtractWithoutTraceId` | src/propagator.js:51-54 | absent or empty `traceId` returns the context unchanged |
| `Propagator.ExtractIgnoresDashes` | src/propagator.js:55 | adding a dash to the trace id never changes the result |
| `Propagator.ExtractKeepsSuppliedSpanId` | src/propagator.js:56-57 | a supplied span id is not cleaned: one with a dash is refused |
| `Propagator.ExtractRefusesMalformedTraceId` | src/propagator.js:57-59 | a cleaned trace id that is not 32 hex digits is refused, with no padding |
| `Propagator.ExtractRefusesZeroTraceId` | src/propagator.js:57-59 | the all-zero trace id is refused |
| `Propagator.ExtractRefusesInvalidSpanId` | src/propagator.js:57-59 | a supplied span id that is not 16 hex digits, or is all zeros, is refused |
| `Propagator.ExtractRefusesZeroDefaultSpanId` | src/propagator.js:56-59 | without a span id, a trace id whose first 16 digits are zero is refused |
| `Propagator.ExtractDefaultsSpanId` | src/propagator.js:56-65 | without a span id, a valid trace id with a non-zero first half is accepted with that half as span id |
| `Propagator.ExtractUuidExample` | src/propagator.js:55-65 | `550e8400-e29b-41d4-a716-446655440000` gives trace id `550e8400e29b41d4a716446655440000` and span id `550e8400e29b41d4` |
| `Propagator.ExampleCallIdCleans` | src/propagator.js:55 | the example call id cleans to the example trace id |
| `Propagator.ExampleCallIdGroups` | src/propagator.js:55 | the example call id is the dash-joined 8-4-4-4-12 groups |
| `Propagator.ExampleIdsValid` | src/propagator.js:56-57 | the example ids are valid and the span id is the trace id's first 16 digits |
| `Propagator.ExtractShortIdExample` | src/propagator.js:57-59 | `abc123` is refused, not padded |
| `Propagator.InjectWrites` | src/propagator.js:36-41 | no write without a span context, with an invalid one or when suppressed; otherwise exactly the two field keys in order with the trace id and span id |
| `Propagator.ApplyTwoWrites` | src/propagator.js:40-41 | two setter calls leave the carrier updated at both keys, the later write last |
| `Propagator.InjectChangesOnlyFields` | src/propagator.js:40-41 | every key other than the two fields keeps its value |
| `Propagator.MapCarrier.constructor` | src/propagator.js:40-41 | a carrier starts with its given entries and no writes |
| `Propagator.MapCarrier.Set` | src/propagator.js:40 | `setter.set` updates one key and records the write |
| `Propagator.MapCarrier.AsCarrier` | src/propagator.js:51 | the carrier's `traceId` and `spanId` are present exactly when the map holds those keys, with the stored values |
| `Propagator.Inject` | src/propagator.js:35-42 | the carrier receives exactly the writes `InjectWrites` names, in order, and its entries change accordingly |
| `Propagator.InjectExtractRoundTrip` | src/propagator.js:40-41 | extracting what `inject` wrote for a valid context gives back the same trace id and span id as a remote sampled span context |
| `Propagator.PropagationExtract` | src/spans.js:28 | the no-op propagator returns the context; this library's propagator runs `extract` |
| `Spans.B3Single` | src/spans.js:111 | `traceId-spanId-1` for ids of any length: the trace id, a dash, the span id, then `-1`, three characters longer than the two ids |
| `Spans.B3SingleLayout` | src/spans.js:111 | `traceId-spanId-1` for standard-length ids splits back by position into the trace id, the span id and `-1` |
| `Spans.B3SingleInjective` | src/spans.js:111 | distinct standard-length id pairs render distinct strings |
| `Spans.Span.Root` | src/spans.js:27-31 | keeps the logger as given, possibly none; extracts `{traceId, spanId}` from the active context, starts a CONSUMER, non-root span on the given tracer with attributes defaulting to `{}`, and keeps the extracted context with that span set; outside a tracing-suppressed context, accepted ids become the root span's trace id (under the inheritance assumption) |
| `Spans.Span.Child` | src/spans.js:55-70 | stores the given name, span, context, tracer and logger; `ended` is falsy |
| `Spans.Span.GetContext` | src/spans.js:76-78 | returns the stored context |
| `Spans.Span.GetTraceId` | src/spans.js:84-86 | the backend span's current trace id, read on each access; throws exactly when there is no backend span |
| `Spans.Span.GetSpanId` | src/spans.js:92-94 | the backend span's current span id, read on each access; throws exactly when there is no backend span |
| `Spans.Span.GetTraceFlags` | src/spans.js:100-102 | the backend span's current flags, read on each access; throws exactly when there is no backend span |
| `Spans.Span.GetTracingPropagation` | src/spans.js:108-113 | present exactly when a backend span is held and its trace id is not the zero id, and then `traceId-spanId-1` |
| `Spans.Span.GetSIPTracingPropagationHeaders` | src/spans.js:119-127 | under the same guard exactly the keys `X-Trace-ID` and `X-Span-ID` mapped to the ids, otherwise the empty map |
| `Spans.Span.SetAttributes` | src/spans.js:133-137 | a debug event is logged, the backend span's attributes are merged with the given map, and the same wrapper is returned; without a logger it throws before either step, without a backend span after the log |
| `Spans.Span.SetError` | src/spans.js:143-149 | the backend status becomes ERROR with the message, and the same wrapper is returned; throws exactly when there is no backend span |
| `Spans.Span.End` | src/spans.js:155-163 | with `ended` falsy, a debug event is logged and the backend span's `end()` is called once more; otherwise the backend is untouched and an info event is logged; it throws exactly when there is no logger, or when `ended` is falsy and there is no backend span, and then the backend is not ended |
| `Spans.Span.EndWithError` | src/spans.js:170-177 | the backend status becomes ERROR with the message, and the rest is exactly what `End` does; throws at once, changing nothing, without a backend span |
| `Spans.Span.StartChildSpan` | src/spans.js:33-38 | a fresh child wrapping a fresh span started on the same tracer with this span's context as parent; the child's context is that context with the new span set; the root variant logs and passes the attributes as given, the others default them to `{}`; it throws exactly for a root variant without a logger; this span is unchanged; outside a tracing-suppressed context and unless the attributes carry a truthy `root` entry, the child stays in a valid parent's trace (under the inheritance assumption) |
| `Spans.EndTwice` | src/spans.js:155-163 | two `end()` calls on a fresh wrapper with a logger call the backend span's `end()` twice |
| `Spans.RootWithoutLoggerStaysOpen` | src/spans.js:24-31 | a root span built without a logger, as documented, cannot be ended: `end()` throws and the backend span stays open |
| `Spans.NewRootSpan` | src/spans.js:24-31 | the documented construction: a missing logger is replaced by a fresh no-op logger; the rest is what `Root` does, including that, outside a tracing-suppressed context, ids accepted by extract become the root span's trace id (under the inheritance assumption) |
| `Spans.NoopLoggerRootSpanEnds` | src/spans.js:155-163 | a root span built through `NewRootSpan` without a logger ends: `end()` returns the span and the backend span is ended once |
| `LibRootSpan.RootSpan.constructor` | lib/root-span.js:5-15 | takes the request's tracer, starts a CONSUMER, non-root span with the attributes as given under the context extracted from the request, and keeps that context with the span set; a valid extracted span context in a context that does not suppress tracing becomes the span's trace (under the inheritance assumption) |
| `LibRootSpan.RootSpan.GetContext` | lib/root-span.js:17-19 | returns the stored context |
| `LibRootSpan.RootSpan.GetTraceId` | lib/root-span.js:21-23 | the backend span's current trace id |
| `LibRootSpan.RootSpan.GetSpanId` | lib/root-span.js:25-27 | the backend span's current span id |
| `LibRootSpan.RootSpan.GetTraceFlags` | lib/root-span.js:29-31 | the backend span's current flags |
| `LibRootSpan.RootSpan.GetTracingPropagation` | lib/root-span.js:33-38 | present exactly when the trace id is not the zero id, and then `traceId-spanId-1` |
| `LibRootSpan.RootSpan.SetAttributes` | lib/root-span.js:40-42 | the backend span's attributes are merged with the given map; nothing is returned |
| `LibRootSpan.RootSpan.End` | lib/root-span.js:44-48 | the backend span ends, and its end count grows only if it was not already ended |
| `LibRootSpan.RootSpan.StartChildSpan` | lib/root-span.js:50-54 | returns `{span, ctx}`: a fresh span on the stored tracer under this root's context, and that context with the span set; the root is unchanged; outside a tracing-suppressed context and unless the attributes carry a truthy `root` entry, the child stays in a valid root's trace (under the inheritance assumption) |
| `LibRootSpan.EndTwice` | lib/root-span.js:44-48 | two `end()` calls end the backend span exactly once |
| `TracerConfig.SelectExporter` | src/tracer.js:52-61 | Jaeger exactly when a Jaeger host or endpoint is truthy; else Zipkin with the URL exactly when that is truthy; else OTLP with the collector URL, possibly absent |
| `TracerConfig.LogLevelOf` | src/tracer.js:63-76 | `info` to INFO, `debug` to DEBUG, `trace` to VERBOSE, and exactly every other value, absent included, to WARN |
| `TracerConfig.BatchProcessorOptions` | src/tracer.js:78-87 | queue 100, batch 10, delay 500 ms, timeout 30000 ms; the batch size does not exceed the queue size |
| `TracerConfig.BuildTracer` | src/tracer.js:34-103 | the tracer is named by `name`; a pipeline exists exactly when `enabled` is truthy, built from `name`, `version`, the chosen exporter, the mapped level and exactly the batch constants of `BatchProcessorOptions`, and it registers this library's propagator |
| `TracerConfig.RegisteredPropagator` | src/tracer.js:90-92 | no pipeline leaves the no-op propagator in place; a pipeline registers its propagator |
| `TracerConfig.EnabledRegistersPropagator` | src/tracer.js:90-92 | this library's propagator is registered exactly when tracing is enabled |
| `TracerConfig.DisabledConfiguresNothing` | src/tracer.js:45 | with `enabled` falsy the result is only the named tracer and no propagator is registered |
| `TracerConfig.JambonzTracer.constructor` | src/tracer.js:29-32 | keeps the options and builds the tracer from them once |
| `TracerConfig.JambonzTracer.GetTracer` | src/tracer.js:109-111 | the tracer built from the stored options |
| `TracerConfig.JambonzTracer.GetName` | src/tracer.js:117-119 | the `serviceName` option |
| `TracerConfig.JambonzTracer.GetEnabled` | src/tracer.js:125-127 | the `enabled` option as given |
| `TracerConfig.NameGetterIsNotTracerName` | src/tracer.js:117-119 | options giving only `serviceName` build an unnamed tracer while the getter reports the service name |
| `TraceOptionsRecord.NewTraceOptions` | lib/trace-options.js:2-24 | the `enabled`, `jaegerHost`, `jaegerEndpoint` and `zipkinUrl` getters, and the corrected collector URL getter, return the constructor arguments |
| `TraceOptionsRecord.ServiceNameIsDropped` | lib/trace-options.js:2-8 | records that differ only in `serviceName` are equal |
| `TraceOptionsRecord.TraceOptions.GetEnabled` | lib/trace-options.js:10-12 | the stored `enabled` value |
| `TraceOptionsRecord.TraceOptions.GetJaegerHost` | lib/trace-options.js:14-16 | the stored Jaeger host |
| `TraceOptionsRecord.TraceOptions.GetJaegerEndpoint` | lib/trace-options.js:18-20 | the stored Jaeger endpoint |
| `TraceOptionsRecord.TraceOptions.GetZipkinUrl` | lib/trace-options.js:22-24 | the stored Zipkin URL |
| `TraceOptionsRecord.TraceOptions.GetCollectUrl` | lib/trace-options.js:26-28 | as written, always absent |
| `TraceOptionsRecord.TraceOptions.GetCollectorUrl` | lib/trace-options.js:7 | the stored collector URL |
| `TraceOptionsRecord.CollectUrlLosesCollectorUrl` | lib/trace-options.js:26-28 | a collector URL given to the constructor is not returned by `collectUrl`, but is by the corrected getter |

## Findings

| source | as written | input that shows it | evidently intended | confidence | as-written member | corrected member |
|---|---|---|---|---|---|---|
| lib/trace-options.js:26-28 | the `collectUrl` getter returns `this._collectUrl`, a field no code assigns; the constructor stores `_collectorUrl` | `new TraceOptions('svc', true, undefined, undefined, undefined, 'http://collector:4318').collectUrl` is `undefined` | return the stored `_collectorUrl` | high, not executed | `TraceOptionsRecord.CollectUrlLosesCollectorUrl` | `TraceOptionsRecord.TraceOptions.GetCollectorUrl` |
| src/spans.js:155-163 | the root-span constructor documents the logger as optional at line 24 ("leave null for noop"), but `startChildSpan` (line 34) of a root span, `setAttributes` (line 134) and `end` (lines 157 and 160) call `this.logger.debug` or `this.logger.info` unguarded | `new RootSpan('call', tid, sid, {}, tracer).end()` throws a `TypeError` at line 157 before line 158 ends the backend span | substitute a no-op logger when none is given, so these calls log nothing and go on | high, not executed | `Spans.RootWithoutLoggerStaysOpen` | `Spans.NewRootSpan` |

## Left out

- OpenTelemetry SDK internals are not modelled: `NodeTracerProvider`, the Jaeger, Zipkin and OTLP exporters, `BatchSpanProcessor` scheduling, `Resource` and `diag` logging. The tracer configuration records only the values the code chooses for them.
- `Otel.Tracer.StartSpan`: ids, flags, timestamps and sampling are left to the backend. The contract constrains only the inherited trace id, and that is an assumption about backend behaviour, not library code. Under a context that suppresses tracing, the SDK returns a span with the all-zero ids, while the API's no-op tracer may still return the parent's context. The model promises neither and leaves the ids unconstrained.
- `Otel.BackendSpan.End`: marking the span ended is assumed SDK behaviour. `endCalls` counts calls; the SDK ignores every `end()` after the first, apart from a diagnostic message. A non-recording span has no `ended` flag, and backends ignore attribute and status updates after a span ends; neither is modelled.
- `Otel.BackendSpan.SpanContextNow`: that a started span reports a local context is assumed SDK behaviour. The API's no-op tracer, whose spans may report a remote parent's context, is not modelled.
- `Otel.BackendSpan.SetAttributes`: the `attributes` field holds only attributes set after the start. Attributes given in the start options stay in the span's start argument, and how the backend merges the two is not modelled.
- `LibRootSpan.RootSpan.constructor`: the context extracted from the request is an input. The propagator the `lib` package registers (`lib/propagator.js`) is not part of this model, so what it reads of the request is not captured.
- Process-wide state is not modelled as global state. `context.active()` and the registered propagator are parameters. `BuildTracer` returns a value, so the effects of one tracer's registration on another tracer are not captured.
- Pino logger calls are kept only as an ordered list of debug and info messages. The structured objects passed with them are dropped.
- Attribute values are strings, and the `enabled` option is a boolean or absent. Other JavaScript values and their truthiness are not modelled.
- A non-string truthy `traceId` in the carrier would make `replaceAll` throw. It is not modelled: carrier properties are strings or absent.
- The attribute map passed as the second argument of `startSpan` on the child-span paths is kept as the opaque `RawAttributes` start argument. What the backend makes of it is not modelled.
- `inject` is modelled with the default map setter (`Propagator.MapCarrier`). Setters that write somewhere other than a key/value map are not modelled.
- In `src/spans.js` the subclasses are declared before `BaseSpan`, which JavaScript module loading rejects. The model follows the intended inheritance.
- `lib/tracer.js` and `lib/propagator.js` are not part of this model. Neither are the `.d.ts` declaration files or the re-export modules `index.js` and `src/index.js`.
