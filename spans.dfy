/**
 * The span wrappers of `src/spans.js`.  `RootSpan` and `ChildSpan` both
 * extend `BaseSpan` and differ only in how they are constructed and in
 * `RootSpan`'s override of `startChildSpan`; here they are one class whose
 * `variant` records which constructor made the object.
 */
module Spans {
  import opened Wrappers
  import opened TraceIds
  import opened Otel
  import opened Propagator

  datatype Variant = RootVariant | ChildVariant

  /** The B3 single-header propagation string `{traceId}-{spanId}-1`
      (openzipkin b3-propagation, sampling state "1"). */
  function B3Single(traceId: string, spanId: string): (h: string)
    ensures |h| == |traceId| + |spanId| + 3
    ensures h[..|traceId|] == traceId && h[|traceId|] == '-' && h[|h| - 2..] == "-1"
    ensures h[|traceId| + 1..|h| - 2] == spanId
  {
    traceId + "-" + spanId + "-1"
  }

  /** For ids of the standard lengths the string can be taken apart again
      by position: trace id, dash, span id, dash, sampling state. */
  lemma B3SingleLayout(traceId: string, spanId: string)
    requires |traceId| == 32 && |spanId| == 16
    ensures var h := B3Single(traceId, spanId);
            |h| == 51 && h[..32] == traceId && h[32] == '-' && h[33..49] == spanId && h[49..] == "-1"
  {
    var h := B3Single(traceId, spanId);
    assert h == traceId + ("-" + spanId + "-1");
    assert h[33..49] == ("-" + spanId + "-1")[1..17];
  }

  /** Distinct id pairs of the standard lengths give distinct strings. */
  lemma B3SingleInjective(t1: string, s1: string, t2: string, s2: string)
    requires |t1| == 32 && |s1| == 16 && |t2| == 32 && |s2| == 16
    requires B3Single(t1, s1) == B3Single(t2, s2)
    ensures t1 == t2 && s1 == s2
  {
    B3SingleLayout(t1, s1);
    B3SingleLayout(t2, s2);
  }

  const TraceIdHeader: string := "X-Trace-ID"
  const SpanIdHeader: string := "X-Span-ID"

  /** The error a member access on `null` or `undefined` throws. */
  const NullDereference: string := "TypeError"

  class Span {
    const variant: Variant
    const name: string
    const tracer: Tracer
    /** `logger`: documented as optional ("leave null for noop"), yet every
        use dereferences it. */
    const logger: Logger?
    /** `_span`: the backend span. */
    var span: BackendSpan?
    /** `_ctx`: the context holding this span, handed to children as parent. */
    var ctx: Context
    /** `ended`: read by `end()` and assigned by no member, so it stays falsy. */
    var ended: bool

    /** The backend span, if any, as a frame. */
    function SpanFrame(): set<BackendSpan>
      reads this
    {
      if span == null then {} else {span}
    }

    /** The context holds this span's own backend span, as every context
        built by the constructors below does. */
    predicate HoldsOwnSpan()
      reads this
    {
      span != null && ctx.span == Some(Started(span))
    }

    /** `new RootSpan(name, traceId, spanId, attributes, tracer, logger)`:
        extract `{traceId, spanId}` from the active context through the
        registered propagator, start a CONSUMER span that is not a trace
        root under it, and keep the extracted context with that span set. */
    constructor Root(name: string, traceId: Option<string>, spanId: Option<string>, attributes: Option<Attributes>,
                     tracer: Tracer, logger: Logger?, active: Context, propagator: GlobalPropagator)
      ensures variant == RootVariant && this.name == name && this.tracer == tracer && this.logger == logger && !ended
      ensures span != null && fresh(span) && span.startedBy == tracer && HoldsOwnSpan()
      ensures var extracted := PropagationExtract(propagator, active, Carrier(traceId, spanId));
              span.parent == extracted && ctx == SetSpan(extracted, span)
      ensures span.name == name && span.arg == Options(Consumer, Some(attributes.GetOr(map[])), false)
      ensures !span.ended && span.endCalls == 0 && span.status == Unset && span.attributes == map[]
      // Under the assumed inheritance of trace ids: ids accepted by extract
      // become the root span's trace.
      ensures var t := RemoveDashes(traceId.GetOr(""));
              propagator == JambonzPropagator && TruthyString(traceId) && !active.suppressed
              && IsValidTraceId(t) && IsValidSpanId(EffectiveSpanId(t, spanId))
              ==> span.traceId == t
    {
      var extracted := PropagationExtract(propagator, active, Carrier(traceId, spanId));
      var s := tracer.StartSpan(name, Options(Consumer, Some(attributes.GetOr(map[])), false), extracted);
      this.variant := RootVariant;
      this.name := name;
      this.tracer := tracer;
      this.logger := logger;
      this.span := s;
      this.ctx := SetSpan(extracted, s);
      this.ended := false;
    }

    /** `new ChildSpan(name, span, ctx, tracer, logger)`. */
    constructor Child(name: string, span: BackendSpan?, ctx: Context, tracer: Tracer, logger: Logger?)
      ensures variant == ChildVariant && this.name == name && this.span == span && this.ctx == ctx
      ensures this.tracer == tracer && this.logger == logger && !ended
    {
      this.variant := ChildVariant;
      this.name := name;
      this.tracer := tracer;
      this.logger := logger;
      this.span := span;
      this.ctx := ctx;
      this.ended := false;
    }

    /** `get context()`. */
    function GetContext(): (r: Context)
      reads this
      ensures r == ctx
    {
      ctx
    }

    /** `get traceId()`: read from the backend span on every access; throws
        without one. */
    function GetTraceId(): (r: Result<string>)
      reads this, span
      ensures r.Success? <==> span != null
      ensures r.Success? ==> r.value == span.traceId
    {
      if span == null then Failure(NullDereference) else Success(span.SpanContextNow().traceId)
    }

    /** `get spanId()`: read from the backend span on every access; throws
        without one. */
    function GetSpanId(): (r: Result<string>)
      reads this, span
      ensures r.Success? <==> span != null
      ensures r.Success? ==> r.value == span.spanId
    {
      if span == null then Failure(NullDereference) else Success(span.SpanContextNow().spanId)
    }

    /** `get traceFlags()`: read from the backend span on every access;
        throws without one. */
    function GetTraceFlags(): (r: Result<TraceFlags>)
      reads this, span
      ensures r.Success? <==> span != null
      ensures r.Success? ==> r.value == span.traceFlags
    {
      if span == null then Failure(NullDereference) else Success(span.SpanContextNow().traceFlags)
    }

    /** The guard shared by the two propagation renderings; the backend span
        is tested first, so the getters are only reached when it exists. */
    predicate Propagates()
      reads this, span
    {
      span != null && GetTraceId().value != ZeroTraceId
    }

    /** `getTracingPropagation(encoding)`: the B3 single-header string, or
        nothing when there is no backend span or its trace id is the zero id.
        The encoding is accepted and ignored. */
    function GetTracingPropagation(encoding: string): (r: Option<string>)
      reads this, span
      ensures r.Some? <==> span != null && span.traceId != ZeroTraceId
      ensures r.Some? ==> r.value == B3Single(span.traceId, span.spanId)
    {
      if Propagates() then Some(B3Single(GetTraceId().value, GetSpanId().value)) else None
    }

    /** `getSIPTracingPropagationHeaders()`: the two SIP headers under the
        same guard, otherwise the empty map. */
    function GetSIPTracingPropagationHeaders(): (r: map<string, string>)
      reads this, span
      ensures r != map[] <==> span != null && span.traceId != ZeroTraceId
      ensures r != map[] ==> r.Keys == {TraceIdHeader, SpanIdHeader}
                             && r[TraceIdHeader] == span.traceId && r[SpanIdHeader] == span.spanId
    {
      if Propagates() then
        var headers := map[TraceIdHeader := GetTraceId().value, SpanIdHeader := GetSpanId().value];
        assert TraceIdHeader in headers;
        headers
      else map[]
    }

    /** `setAttributes(attributes)`: logs at debug level, then forwards to
        the backend span; fluent.  Without a logger the first step throws,
        without a backend span the second. */
    method SetAttributes(attributes: Attributes) returns (r: Result<Span>)
      modifies SpanFrame()`attributes, logger
      ensures r.Success? <==> logger != null && span != null
      ensures r.Success? ==> r.value == this
      ensures logger != null ==> logger.events == old(logger.events) + [LogEvent.Debug("setting attributes for span: " + name)]
      ensures span != null ==> span.attributes == if logger != null then old(span.attributes) + attributes else old(span.attributes)
    {
      if logger == null {
        return Failure(NullDereference);
      }
      logger.Debug("setting attributes for span: " + name);
      if span == null {
        return Failure(NullDereference);
      }
      span.SetAttributes(attributes);
      r := Success(this);
    }

    /** `setError(message)`: the backend status becomes ERROR with the
        message; fluent.  Throws without a backend span. */
    method SetError(message: string) returns (r: Result<Span>)
      modifies SpanFrame()`status
      ensures r.Success? <==> span != null
      ensures r.Success? ==> r.value == this && span.status == Error(message)
    {
      if span == null {
        return Failure(NullDereference);
      }
      span.SetStatus(Error(message));
      r := Success(this);
    }

    /** `end()`: unless this wrapper's `ended` is set, logs at debug level
        and ends the backend span; otherwise only logs at info level;
        fluent.  A missing logger throws before anything else happens, a
        missing backend span after the debug event. */
    method End() returns (r: Result<Span>)
      modifies SpanFrame()`ended, SpanFrame()`endCalls, logger
      ensures r.Success? <==> logger != null && (ended || span != null)
      ensures r.Success? ==> r.value == this
      ensures logger != null ==> logger.events == old(logger.events) + [
                if ended then LogEvent.Info("cannot span that has already ended: " + name)
                else LogEvent.Debug("ending span: " + name)]
      ensures span != null && !ended && logger != null ==> span.ended && span.endCalls == old(span.endCalls) + 1
      ensures span != null && (ended || logger == null) ==> span.ended == old(span.ended) && span.endCalls == old(span.endCalls)
    {
      if !ended {
        if logger == null {
          return Failure(NullDereference);
        }
        logger.Debug("ending span: " + name);
        if span == null {
          return Failure(NullDereference);
        }
        span.End();
      } else {
        if logger == null {
          return Failure(NullDereference);
        }
        logger.Info("cannot span that has already ended: " + name);
      }
      r := Success(this);
    }

    /** `endWithError(message)`: sets the ERROR status, then does what
        `end()` does; fluent.  Throws at once without a backend span. */
    method EndWithError(message: string) returns (r: Result<Span>)
      modifies SpanFrame()`status, SpanFrame()`ended, SpanFrame()`endCalls, logger
      ensures r.Success? <==> span != null && logger != null
      ensures r.Success? ==> r.value == this
      ensures span != null ==> span.status == Error(message)
      ensures span == null && logger != null ==> logger.events == old(logger.events)
      ensures span != null && logger != null ==> logger.events == old(logger.events) + [
                if ended then LogEvent.Info("cannot span that has already ended: " + name)
                else LogEvent.Debug("ending span: " + name)]
      ensures span != null && !ended && logger != null ==> span.ended && span.endCalls == old(span.endCalls) + 1
      ensures span != null && (ended || logger == null) ==> span.ended == old(span.ended) && span.endCalls == old(span.endCalls)
    {
      if span == null {
        return Failure(NullDereference);
      }
      span.SetStatus(Error(message));
      r := End();
    }

    /** `startChildSpan(name, attributes)`: start a backend span whose parent
        is this span's context and wrap it, with that context plus the new
        span, in a new child.  `BaseSpan` defaults the attributes to `{}`;
        `RootSpan`'s override passes them as given and first logs at debug
        level, which throws without a logger.  This span's own fields and
        backend span are left alone. */
    method StartChildSpan(name: string, attributes: Option<Attributes>) returns (r: Result<Span>)
      modifies logger
      ensures r.Success? <==> variant == ChildVariant || logger != null
      ensures logger != null ==> logger.events == old(logger.events) + (if variant == RootVariant then [LogEvent.Debug("starting child span of rootSpan")] else [])
      ensures unchanged(this)
      ensures r.Success? ==> fresh(r.value) && r.value.span != null && fresh(r.value.span)
      ensures r.Success? ==> r.value.variant == ChildVariant && r.value.name == name && !r.value.ended
      ensures r.Success? ==> r.value.tracer == tracer && r.value.logger == logger && r.value.span.startedBy == tracer
      ensures r.Success? ==> r.value.span.name == name && r.value.span.parent == ctx
      ensures r.Success? ==> r.value.span.arg == RawAttributes(if variant == RootVariant then attributes else Some(attributes.GetOr(map[])))
      ensures r.Success? ==> r.value.ctx == SetSpan(ctx, r.value.span) && r.value.HoldsOwnSpan()
      ensures r.Success? ==> !r.value.span.ended && r.value.span.endCalls == 0 && r.value.span.status == Unset && r.value.span.attributes == map[]
      // Under the assumed inheritance of trace ids: a child of a span with
      // a valid span context stays in that span's trace.
      ensures r.Success? && HoldsOwnSpan() && !ctx.suppressed && !RequestsRoot(r.value.span.arg)
              && IsSpanContextValid(span.SpanContextNow())
              ==> r.value.span.traceId == span.traceId
    {
      var s: BackendSpan;
      if variant == RootVariant {
        if logger == null {
          return Failure(NullDereference);
        }
        logger.Debug("starting child span of rootSpan");
        s := tracer.StartSpan(name, RawAttributes(attributes), ctx);
      } else {
        s := tracer.StartSpan(name, RawAttributes(Some(attributes.GetOr(map[]))), ctx);
      }
      var child := new Span.Child(name, s, SetSpan(ctx, s), tracer, logger);
      r := Success(child);
    }
  }

  /** Because no member assigns `ended`, a second `end()` reaches the backend
      again: two calls end the backend span twice. */
  method EndTwice(s: Span)
    requires s.span != null && s.logger != null && !s.ended
    modifies s.span`ended, s.span`endCalls, s.logger
    ensures s.span.ended && s.span.endCalls == old(s.span.endCalls) + 2
  {
    var _ := s.End();
    var _ := s.End();
  }

  /** A root span built without a logger, which the constructor's
      documentation allows, cannot be ended: `end()` throws at its debug
      call before it reaches the backend span, which stays open. */
  method RootWithoutLoggerStaysOpen(name: string, traceId: Option<string>, spanId: Option<string>, attributes: Option<Attributes>,
                                    tracer: Tracer, active: Context, propagator: GlobalPropagator) returns (s: Span, r: Result<Span>)
    ensures s.logger == null && s.span != null
    ensures r.Failure? && !s.span.ended && s.span.endCalls == 0
  {
    s := new Span.Root(name, traceId, spanId, attributes, tracer, null, active, propagator);
    r := s.End();
  }

  /** The root-span construction the documentation describes: a missing
      logger is replaced by a no-op logger, whose events nobody reads. */
  method NewRootSpan(name: string, traceId: Option<string>, spanId: Option<string>, attributes: Option<Attributes>,
                     tracer: Tracer, logger: Logger?, active: Context, propagator: GlobalPropagator) returns (s: Span)
    ensures fresh(s) && s.logger != null && (logger != null ==> s.logger == logger) && (logger == null ==> fresh(s.logger))
    ensures s.variant == RootVariant && s.name == name && s.tracer == tracer && !s.ended
    ensures s.span != null && fresh(s.span) && s.span.startedBy == tracer && s.HoldsOwnSpan()
    ensures var extracted := PropagationExtract(propagator, active, Carrier(traceId, spanId));
            s.span.parent == extracted && s.ctx == SetSpan(extracted, s.span)
    ensures s.span.name == name && s.span.arg == Options(Consumer, Some(attributes.GetOr(map[])), false)
    ensures !s.span.ended && s.span.endCalls == 0 && s.span.status == Unset && s.span.attributes == map[]
    // Under the assumed inheritance of trace ids: ids accepted by extract
    // become the root span's trace.
    ensures var t := RemoveDashes(traceId.GetOr(""));
            propagator == JambonzPropagator && TruthyString(traceId) && !active.suppressed
            && IsValidTraceId(t) && IsValidSpanId(EffectiveSpanId(t, spanId))
            ==> s.span.traceId == t
  {
    var l := logger;
    if l == null {
      l := new Logger();
    }
    s := new Span.Root(name, traceId, spanId, attributes, tracer, l, active, propagator);
  }

  /** With the no-op logger in place, a root span built without a logger
      ends: `end()` returns the span and the backend span is ended once. */
  method NoopLoggerRootSpanEnds(name: string, traceId: Option<string>, spanId: Option<string>, attributes: Option<Attributes>,
                                tracer: Tracer, active: Context, propagator: GlobalPropagator) returns (s: Span, r: Result<Span>)
    ensures s.logger != null && s.span != null
    ensures r == Success(s) && s.span.ended && s.span.endCalls == 1
  {
    s := NewRootSpan(name, traceId, spanId, attributes, tracer, null, active, propagator);
    r := s.End();
  }
}
