/**
 * The earlier root-span wrapper of `lib/root-span.js`: a single class that
 * takes its tracer from the request, guards `end()` on the backend span's
 * own `ended` flag, and returns children as bare `{span, ctx}` pairs.
 */
module LibRootSpan {
  import opened Wrappers
  import opened TraceIds
  import opened Otel
  import Spans

  /** What the constructor itself reads of the request:
      `req.srf.locals.otel.tracer`.  The whole request also goes to the
      registered propagator; that propagator is not part of this model, so
      its result is the constructor's `extracted` argument. */
  datatype Request = Request(tracer: Tracer)

  /** The `{span, ctx}` pair `startChildSpan` returns. */
  datatype ChildSpanContext = ChildSpanContext(span: BackendSpan, ctx: Context)

  class RootSpan {
    /** `_span` */
    const span: BackendSpan
    /** `_ctx` */
    const ctx: Context
    const tracer: Tracer

    /** `new RootSpan(callType, attributes, req)`: start a CONSUMER span that
        is not a trace root on the request's tracer under `extracted`, the
        context `propagation.extract(context.active(), req)` returned, and
        keep that context with the span set. */
    constructor (callType: string, attributes: Option<Attributes>, req: Request, extracted: Context)
      ensures tracer == req.tracer && fresh(span) && span.startedBy == req.tracer
      ensures span.parent == extracted && ctx == SetSpan(extracted, span)
      ensures span.name == callType && span.arg == Options(Consumer, attributes, false)
      ensures !span.ended && span.endCalls == 0 && span.status == Unset && span.attributes == map[]
      // Under the assumed inheritance of trace ids: a valid extracted span
      // context becomes the root span's trace.
      ensures InheritsTraceId(span.arg, extracted, span.traceId)
    {
      var t := req.tracer;
      var s := t.StartSpan(callType, Options(Consumer, attributes, false), extracted);
      span := s;
      ctx := SetSpan(extracted, s);
      tracer := t;
    }

    /** `get context()`. */
    function GetContext(): (r: Context)
      reads this
      ensures r == ctx
    {
      ctx
    }

    /** `get traceId()`: read from the backend span on every access. */
    function GetTraceId(): (r: string)
      reads this, span
      ensures r == span.traceId
    {
      span.SpanContextNow().traceId
    }

    /** `get spanId()`: read from the backend span on every access. */
    function GetSpanId(): (r: string)
      reads this, span
      ensures r == span.spanId
    {
      span.SpanContextNow().spanId
    }

    /** `get traceFlags()`: read from the backend span on every access. */
    function GetTraceFlags(): (r: TraceFlags)
      reads this, span
      ensures r == span.traceFlags
    {
      span.SpanContextNow().traceFlags
    }

    /** `getTracingPropagation(encoding)`: the B3 single-header string, or
        nothing for the zero trace id (the backend span is always present). */
    function GetTracingPropagation(encoding: string): (r: Option<string>)
      reads this, span
      ensures r.Some? <==> span.traceId != ZeroTraceId
      ensures r.Some? ==> r.value == Spans.B3Single(span.traceId, span.spanId)
    {
      if GetTraceId() != ZeroTraceId then Some(Spans.B3Single(GetTraceId(), GetSpanId())) else None
    }

    /** `setAttributes(attrs)`: forwarded to the backend span; returns nothing. */
    method SetAttributes(attrs: Attributes)
      modifies span`attributes
      ensures span.attributes == old(span.attributes) + attrs
    {
      span.SetAttributes(attrs);
    }

    /** `end()`: forwards to the backend only while the backend span is not
        ended, so once the backend has ended the span it is a no-op. */
    method End()
      modifies span`ended, span`endCalls
      ensures span.ended
      ensures span.endCalls == old(span.endCalls) + (if old(span.ended) then 0 else 1)
    {
      if !span.ended {
        span.End();
      }
    }

    /** `startChildSpan(name, attributes)`: start a span on the stored tracer
        under this root's context and return it with that context plus the
        new span; the root's own fields are left alone. */
    method StartChildSpan(name: string, attributes: Option<Attributes>) returns (r: ChildSpanContext)
      ensures fresh(r.span) && r.span.startedBy == tracer
      ensures r.span.name == name && r.span.parent == ctx && r.span.arg == RawAttributes(attributes)
      ensures r.ctx == SetSpan(ctx, r.span)
      ensures !r.span.ended && r.span.endCalls == 0 && r.span.status == Unset && r.span.attributes == map[]
      ensures unchanged(this)
      // Under the assumed inheritance of trace ids: the child stays in this root's trace.
      ensures ctx.span == Some(Started(span)) && !ctx.suppressed && !RequestsRoot(r.span.arg)
              && IsSpanContextValid(span.SpanContextNow())
              ==> r.span.traceId == span.traceId
    {
      var s := tracer.StartSpan(name, RawAttributes(attributes), ctx);
      r := ChildSpanContext(s, SetSpan(ctx, s));
    }
  }

  /** Ending twice ends the backend span once: the second call sees the
      backend's `ended` flag and does nothing. */
  method EndTwice(r: RootSpan)
    requires !r.span.ended
    modifies r.span`ended, r.span`endCalls
    ensures r.span.ended && r.span.endCalls == old(r.span.endCalls) + 1
  {
    r.End();
    r.End();
  }
}
