/**
 * The parts of the OpenTelemetry API and SDK the library calls: span
 * contexts, the immutable `Context`, a started backend span, a tracer that
 * starts spans, and a structured logger.  None of this is the library's own
 * code; it is modelled only as far as the library depends on it.
 */
module Otel {
  import opened Wrappers
  import opened TraceIds

  /** `TraceFlags`: whether the trace is sampled. */
  datatype TraceFlags = Unsampled | Sampled

  /** `SpanContext`: the ids and flags carried across process boundaries. */
  datatype SpanContext = SpanContext(traceId: string, spanId: string, isRemote: bool, traceFlags: TraceFlags)

  /** `isSpanContextValid`: both ids valid, so a 32-digit hex trace id and
      a 16-digit hex span id, neither all zeros. */
  predicate IsSpanContextValid(sc: SpanContext)
    ensures IsSpanContextValid(sc) <==> |sc.traceId| == 32 && IsHex(sc.traceId) && !AllZeros(sc.traceId)
                                        && |sc.spanId| == 16 && IsHex(sc.spanId) && !AllZeros(sc.spanId)
  {
    IsValidTraceId(sc.traceId) && IsValidSpanId(sc.spanId)
  }

  /** Attribute maps; the values are opaque to this library. */
  type Attributes = map<string, string>

  /** `SpanStatusCode` with the message `setStatus` is given. */
  datatype SpanStatus = Unset | Ok | Error(message: string)

  datatype SpanKind = Internal | Server | Client | Producer | Consumer

  /** The second argument of `tracer.startSpan`: either real span options or,
      at the child-span call sites, an attribute map passed where options
      belong (kept as given, its meaning to the backend left opaque). */
  datatype StartArg =
    | Options(kind: SpanKind, attributes: Option<Attributes>, root: bool)
    | RawAttributes(attrs: Option<Attributes>)

  /** What a context holds under the span key: a non-recording span wrapping a
      bare span context (`trace.setSpanContext`), or a started span
      (`trace.setSpan`), whose span context is read from it on demand. */
  datatype ActiveSpan = NonRecording(sc: SpanContext) | Started(span: BackendSpan)

  /** `Context`: immutable; the span entry, the tracing-suppressed entry and
      every other entry, which the library never touches. */
  datatype Context = Context(span: Option<ActiveSpan>, suppressed: bool, rest: map<string, string>)

  /** The heap objects `GetSpanContext(ctx)` reads. */
  function SpanObjects(ctx: Context): set<object> {
    if ctx.span.Some? && ctx.span.value.Started? then {ctx.span.value.span} else {}
  }

  /** `trace.getSpanContext(ctx)`. */
  function GetSpanContext(ctx: Context): (r: Option<SpanContext>)
    reads SpanObjects(ctx)
    ensures ctx.span.None? ==> r.None?
    ensures ctx.span.Some? && ctx.span.value.NonRecording? ==> r == Some(ctx.span.value.sc)
    ensures ctx.span.Some? && ctx.span.value.Started? ==> r == Some(ctx.span.value.span.SpanContextNow())
  {
    match ctx.span
    case None => None
    case Some(NonRecording(sc)) => Some(sc)
    case Some(Started(s)) => Some(s.SpanContextNow())
  }

  /** `trace.setSpanContext(ctx, sc)`: replaces only the span entry. */
  function SetSpanContext(ctx: Context, sc: SpanContext): (r: Context)
    ensures GetSpanContext(r) == Some(sc)
    ensures r.suppressed == ctx.suppressed && r.rest == ctx.rest
  {
    ctx.(span := Some(NonRecording(sc)))
  }

  /** `trace.setSpan(ctx, span)`: replaces only the span entry. */
  function SetSpan(ctx: Context, s: BackendSpan): (r: Context)
    ensures r.span == Some(Started(s)) && SpanObjects(r) == {s}
    ensures r.suppressed == ctx.suppressed && r.rest == ctx.rest
  {
    ctx.(span := Some(Started(s)))
  }

  /** A span as the tracing backend holds it.  The ids and flags are fields
      the wrappers read afresh on every access. */
  class BackendSpan {
    const name: string
    const arg: StartArg
    /** The tracer whose `startSpan` made this span. */
    const startedBy: Tracer
    /** The context the span was started under. */
    const parent: Context
    var traceId: string
    var spanId: string
    var traceFlags: TraceFlags
    var ended: bool
    var status: SpanStatus
    /** Attributes set through `setAttributes` after the start.  Attributes
        given in the start options stay in `arg`; how the backend merges the
        two is not modelled. */
    var attributes: Attributes
    /** How many times `end()` has been called on this span. */
    var endCalls: nat

    constructor (startedBy: Tracer, name: string, arg: StartArg, parent: Context, traceId: string, spanId: string, traceFlags: TraceFlags)
      ensures this.startedBy == startedBy && this.name == name && this.arg == arg && this.parent == parent
      ensures this.traceId == traceId && this.spanId == spanId && this.traceFlags == traceFlags
      ensures !ended && endCalls == 0 && status == Unset && attributes == map[]
    {
      this.startedBy, this.name, this.arg, this.parent := startedBy, name, arg, parent;
      this.traceId, this.spanId, this.traceFlags := traceId, spanId, traceFlags;
      ended, endCalls, status, attributes := false, 0, Unset, map[];
    }

    /** `span.spanContext()`.  Assumed backend behaviour: a span the SDK
        started reports a local, not remote, context.  The API's no-op
        tracer, whose spans may report a remote parent's context, is not
        modelled. */
    function SpanContextNow(): (sc: SpanContext)
      reads this
      ensures sc.traceId == traceId && sc.spanId == spanId && sc.traceFlags == traceFlags
      ensures !sc.isRemote
    {
      SpanContext(traceId, spanId, false, traceFlags)
    }

    /** `span.setAttributes(attrs)`: later values replace earlier ones per key. */
    method SetAttributes(attrs: Attributes)
      modifies this`attributes
      ensures attributes.Keys == old(attributes).Keys + attrs.Keys
      ensures forall k :: k in attrs ==> attributes[k] == attrs[k]
      ensures forall k :: k in old(attributes) && k !in attrs ==> attributes[k] == old(attributes)[k]
    {
      attributes := attributes + attrs;
    }

    /** `span.setStatus(status)`. */
    method SetStatus(st: SpanStatus)
      modifies this`status
      ensures status == st
    {
      status := st;
    }

    /** `span.end()`.  Assumed backend behaviour: ending marks the span ended. */
    method End()
      modifies this`ended, this`endCalls
      ensures ended && endCalls == old(endCalls) + 1
    {
      ended := true;
      endCalls := endCalls + 1;
    }
  }

  /** Whether `startSpan` reads its second argument as asking for a new
      trace: tracers read `options.root` from whatever object they are
      given, so an attribute map with a truthy `root` entry asks too. */
  predicate RequestsRoot(arg: StartArg) {
    match arg
    case Options(_, _, root) => root
    case RawAttributes(attrs) => attrs.Some? && "root" in attrs.value && attrs.value["root"] != ""
  }

  /** Assumed backend behaviour (OpenTelemetry SDK, not this library): a span
      started without asking for a new trace, under a context that does not
      suppress tracing and holds a valid span context, belongs to that span
      context's trace. */
  predicate InheritsTraceId(arg: StartArg, parent: Context, traceId: string)
    reads SpanObjects(parent)
  {
    var psc := GetSpanContext(parent);
    !RequestsRoot(arg) && !parent.suppressed && psc.Some? && IsSpanContextValid(psc.value) ==> traceId == psc.value.traceId
  }

  /** A tracer obtained from `trace.getTracer(name)`. */
  class Tracer {
    const name: Option<string>

    constructor (name: Option<string>)
      ensures this.name == name
    {
      this.name := name;
    }

    /** `tracer.startSpan(name, arg, parent)`: a fresh span, not ended, no
        status, no attributes of its own yet.  Apart from the trace id
        inherited from a valid parent (ASSUMED, see `InheritsTraceId`), the
        ids and flags are the backend's choice and may be anything,
        including the all-zero ids of a non-recording span. */
    method StartSpan(name: string, arg: StartArg, parent: Context) returns (s: BackendSpan)
      ensures fresh(s) && s.startedBy == this
      ensures s.name == name && s.arg == arg && s.parent == parent
      ensures !s.ended && s.endCalls == 0 && s.status == Unset && s.attributes == map[]
      ensures InheritsTraceId(arg, parent, s.traceId)
    {
      var psc := GetSpanContext(parent);
      var traceId: string := *;
      if !RequestsRoot(arg) && !parent.suppressed && psc.Some? && IsSpanContextValid(psc.value) {
        traceId := psc.value.traceId;
      }
      var spanId: string := *;
      var flags: TraceFlags := *;
      s := new BackendSpan(this, name, arg, parent, traceId, spanId, flags);
    }
  }

  datatype LogEvent = Debug(message: string) | Info(message: string)

  /** A Pino-style logger, reduced to the events it records. */
  class Logger {
    var events: seq<LogEvent>

    constructor ()
      ensures events == []
    {
      events := [];
    }

    method Debug(message: string)
      modifies this
      ensures events == old(events) + [LogEvent.Debug(message)]
    {
      events := events + [LogEvent.Debug(message)];
    }

    method Info(message: string)
      modifies this
      ensures events == old(events) + [LogEvent.Info(message)]
    {
      events := events + [LogEvent.Info(message)];
    }
  }
}
