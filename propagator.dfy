/**
 * The library's text-map propagator: it moves a trace id and a span id
 * through a carrier under the keys `traceId` and `spanId`.
 */
module Propagator {
  import opened Wrappers
  import opened TraceIds
  import opened Otel

  const TraceIdKey: string := "traceId"
  const SpanIdKey: string := "spanId"

  /** The two top-level carrier properties `extract` reads; every other
      property of the carrier is ignored. */
  datatype Carrier = Carrier(traceId: Option<string>, spanId: Option<string>)

  /** `fields()`: the carrier keys this propagator uses, in order. */
  function Fields(): (r: seq<string>)
    ensures |r| == 2 && r[0] == TraceIdKey && r[1] == SpanIdKey
  {
    [TraceIdKey, SpanIdKey]
  }

  /** `traceId.substring(0, 16)`: the first 16 characters, or all of a shorter string. */
  function Prefix16(s: string): (r: string)
    ensures |r| <= 16 && r <= s
    ensures |s| >= 16 ==> |r| == 16
    ensures |s| <= 16 ==> r == s
  {
    if |s| <= 16 then s else s[..16]
  }

  /** The span id `extract` validates: the supplied one when truthy, as it is
      (no dash removal), otherwise the first 16 characters of the cleaned trace id. */
  function EffectiveSpanId(cleanTraceId: string, spanId: Option<string>): (r: string)
    ensures TruthyString(spanId) ==> r == spanId.value
    ensures !TruthyString(spanId) ==> r <= cleanTraceId && |r| == if |cleanTraceId| < 16 then |cleanTraceId| else 16
  {
    if TruthyString(spanId) then spanId.value else Prefix16(cleanTraceId)
  }

  /** The span context `extract` installs on success. */
  function RemoteSampled(traceId: string, spanId: string): SpanContext {
    SpanContext(traceId, spanId, true, Sampled)
  }

  /** `extract(context, carrier)`.  Either the input context comes back as it
      is, or the input context with only its span entry replaced by a valid,
      remote, sampled span context whose trace id is the carrier's with the
      dashes removed. */
  function Extract(ctx: Context, carrier: Carrier): (r: Context)
    ensures !TruthyString(carrier.traceId) ==> r == ctx
    ensures r != ctx ==>
      && TruthyString(carrier.traceId)
      && r.span.Some? && r.span.value.NonRecording?
      && r == SetSpanContext(ctx, r.span.value.sc)
      && r.span.value.sc.traceId == RemoveDashes(carrier.traceId.value)
      && IsSpanContextValid(r.span.value.sc)
      && r.span.value.sc.isRemote && r.span.value.sc.traceFlags == Sampled
  {
    if !TruthyString(carrier.traceId) then ctx
    else
      var traceId := RemoveDashes(carrier.traceId.value);
      var spanId := EffectiveSpanId(traceId, carrier.spanId);
      if !IsValidTraceId(traceId) || !IsValidSpanId(spanId) then ctx
      else SetSpanContext(ctx, RemoteSampled(traceId, spanId))
  }

  /** Success: exactly when the cleaned trace id and the effective span id
      are both valid, the span context set is made of those two ids. */
  lemma ExtractAccepts(ctx: Context, carrier: Carrier)
    requires TruthyString(carrier.traceId)
    ensures var t := RemoveDashes(carrier.traceId.value);
            var s := EffectiveSpanId(t, carrier.spanId);
            IsValidTraceId(t) && IsValidSpanId(s) ==> Extract(ctx, carrier) == SetSpanContext(ctx, RemoteSampled(t, s))
  {
  }

  /** Missing, null or empty `traceId`: the context comes back unchanged. */
  lemma ExtractWithoutTraceId(ctx: Context, spanId: Option<string>)
    ensures Extract(ctx, Carrier(None, spanId)) == ctx
    ensures Extract(ctx, Carrier(Some(""), spanId)) == ctx
  {
  }

  /** Dashes anywhere in the trace id are ignored. */
  lemma ExtractIgnoresDashes(ctx: Context, a: string, b: string, spanId: Option<string>)
    ensures Extract(ctx, Carrier(Some(a + "-" + b), spanId)) == Extract(ctx, Carrier(Some(a + b), spanId))
  {
    RemoveDashesIgnoresInsertedDash(a, b);
    if a + b == "" {
      assert RemoveDashes(a + "-" + b) == "";
    }
  }

  /** A supplied span id is used as it is: one containing a dash is refused,
      not cleaned. */
  lemma ExtractKeepsSuppliedSpanId(ctx: Context, traceId: string, spanId: string)
    requires '-' in spanId
    ensures Extract(ctx, Carrier(Some(traceId), Some(spanId))) == ctx
  {
  }

  /** A cleaned trace id that is not 32 hex digits is refused; short ids are
      not padded. */
  lemma ExtractRefusesMalformedTraceId(ctx: Context, carrier: Carrier)
    requires TruthyString(carrier.traceId)
    requires var t := RemoveDashes(carrier.traceId.value); |t| != 32 || !IsHex(t)
    ensures Extract(ctx, carrier) == ctx
  {
  }

  /** The all-zero trace id is refused, with or without dashes. */
  lemma ExtractRefusesZeroTraceId(ctx: Context, traceId: string, spanId: Option<string>)
    requires RemoveDashes(traceId) == ZeroTraceId
    ensures Extract(ctx, Carrier(Some(traceId), spanId)) == ctx
  {
  }

  /** A supplied span id that is not a valid span id is refused. */
  lemma ExtractRefusesInvalidSpanId(ctx: Context, traceId: string, spanId: string)
    requires spanId != "" && !IsValidSpanId(spanId)
    ensures Extract(ctx, Carrier(Some(traceId), Some(spanId))) == ctx
  {
  }

  /** With no span id supplied, a trace id whose first 16 digits are zero is
      refused even though the trace id itself is valid. */
  lemma ExtractRefusesZeroDefaultSpanId(ctx: Context, traceId: string, spanId: Option<string>)
    requires !TruthyString(spanId)
    requires var t := RemoveDashes(traceId); |t| >= 16 && AllZeros(t[..16])
    ensures Extract(ctx, Carrier(Some(traceId), spanId)) == ctx
  {
    var t := RemoveDashes(traceId);
    ZeroIdsAreAllZeros(t[..16]);
  }

  /** With no span id supplied, a valid trace id whose first 16 digits are
      not all zero is accepted with those 16 digits as span id. */
  lemma {:induction false} ExtractDefaultsSpanId(ctx: Context, traceId: string, spanId: Option<string>)
    requires !TruthyString(spanId)
    requires var t := RemoveDashes(traceId); IsValidTraceId(t) && !AllZeros(t[..16])
    ensures var t := RemoveDashes(traceId);
            Extract(ctx, Carrier(Some(traceId), spanId)) == SetSpanContext(ctx, RemoteSampled(t, t[..16]))
  {
    var t := RemoveDashes(traceId);
    ZeroIdsAreAllZeros(t[..16]);
    assert IsValidSpanId(t[..16]);
  }

  const ExampleCallId: string := "550e8400-e29b-41d4-a716-446655440000"
  const ExampleTraceId: string := "550e8400e29b41d4a716446655440000"
  const ExampleSpanId: string := "550e8400e29b41d4"

  /** A UUID call id used as trace id: the dashes go, and the span id is the
      first 16 digits of the result. */
  lemma ExtractUuidExample(ctx: Context)
    ensures Extract(ctx, Carrier(Some(ExampleCallId), None))
         == SetSpanContext(ctx, RemoteSampled(ExampleTraceId, ExampleSpanId))
  {
    ExampleCallIdCleans();
    ExampleIdsValid();
  }

  lemma ExampleCallIdCleans()
    ensures RemoveDashes(ExampleCallId) == ExampleTraceId
  {
    var a, b, c, d, e := "550e8400", "e29b", "41d4", "a716", "446655440000";
    ExampleCallIdGroups();
    RemoveDashesJoinsGroups(a, b, c, d, e);
  }

  lemma ExampleCallIdGroups()
    ensures ExampleCallId == "550e8400" + "-" + "e29b" + "-" + "41d4" + "-" + "a716" + "-" + "446655440000"
    ensures ExampleTraceId == "550e8400" + "e29b" + "41d4" + "a716" + "446655440000"
  {
  }

  lemma ExampleIdsValid()
    ensures IsValidTraceId(ExampleTraceId) && IsValidSpanId(ExampleSpanId)
    ensures Prefix16(ExampleTraceId) == ExampleSpanId
  {
    assert ExampleTraceId[0] != ZeroTraceId[0];
    assert ExampleSpanId[0] != ZeroSpanId[0];
  }

  /** The short id "abc123" is refused rather than padded. */
  lemma ExtractShortIdExample(ctx: Context)
    ensures Extract(ctx, Carrier(Some("abc123"), None)) == ctx
  {
    RemoveDashesKeepsDashFree("abc123");
  }

  /** The writes `inject` makes through the setter, in order: none when the
      context has no span context, an invalid one, or tracing suppressed;
      otherwise the trace id and then the span id. */
  function InjectWrites(sc: Option<SpanContext>, suppressed: bool): (w: seq<(string, string)>)
    ensures w == [] <==> sc.None? || !IsSpanContextValid(sc.value) || suppressed
    ensures w != [] ==> w == [(Fields()[0], sc.value.traceId), (Fields()[1], sc.value.spanId)]
  {
    if sc.None? || !IsSpanContextValid(sc.value) || suppressed then []
    else [(TraceIdKey, sc.value.traceId), (SpanIdKey, sc.value.spanId)]
  }

  /** The carrier contents after a sequence of `setter.set` calls. */
  function ApplyWrites(m: map<string, string>, w: seq<(string, string)>): map<string, string>
    decreases |w|
  {
    if w == [] then m else ApplyWrites(m[w[0].0 := w[0].1], w[1..])
  }

  lemma ApplyTwoWrites(m: map<string, string>, a: string, x: string, b: string, y: string)
    ensures ApplyWrites(m, [(a, x), (b, y)]) == m[a := x][b := y]
  {
    var w := [(a, x), (b, y)];
    assert w[1..] == [(b, y)] && w[1..][1..] == [];
    calc {
      ApplyWrites(m, w);
      ApplyWrites(m[a := x], [(b, y)]);
      ApplyWrites(m[a := x][b := y], []);
      m[a := x][b := y];
    }
  }

  /** Injection changes no key other than the propagator's two fields. */
  lemma InjectChangesOnlyFields(m: map<string, string>, sc: Option<SpanContext>, suppressed: bool, k: string)
    requires k in m && k !in Fields()
    ensures var r := ApplyWrites(m, InjectWrites(sc, suppressed)); k in r && r[k] == m[k]
  {
    var w := InjectWrites(sc, suppressed);
    if w != [] {
      ApplyTwoWrites(m, TraceIdKey, sc.value.traceId, SpanIdKey, sc.value.spanId);
    }
  }

  /** A carrier held as a key/value map, written through the default text-map
      setter.  `writes` records every `setter.set` call in order. */
  class MapCarrier {
    var entries: map<string, string>
    var writes: seq<(string, string)>

    constructor (entries: map<string, string>)
      ensures this.entries == entries && writes == []
    {
      this.entries := entries;
      writes := [];
    }

    /** `setter.set(carrier, key, value)`. */
    method Set(key: string, value: string)
      modifies this
      ensures entries == old(entries)[key := value]
      ensures writes == old(writes) + [(key, value)]
    {
      entries := entries[key := value];
      writes := writes + [(key, value)];
    }

    /** The view of this carrier `extract` reads. */
    function AsCarrier(): (c: Carrier)
      reads this
      ensures c.traceId.Some? <==> TraceIdKey in entries
      ensures c.spanId.Some? <==> SpanIdKey in entries
      ensures c.traceId.Some? ==> c.traceId.value == entries[TraceIdKey]
      ensures c.spanId.Some? ==> c.spanId.value == entries[SpanIdKey]
    {
      Carrier(if TraceIdKey in entries then Some(entries[TraceIdKey]) else None,
              if SpanIdKey in entries then Some(entries[SpanIdKey]) else None)
    }
  }

  /** `inject(context, carrier, setter)`. */
  method Inject(ctx: Context, carrier: MapCarrier)
    modifies carrier
    ensures carrier.writes == old(carrier.writes) + InjectWrites(GetSpanContext(ctx), ctx.suppressed)
    ensures carrier.entries == ApplyWrites(old(carrier.entries), InjectWrites(GetSpanContext(ctx), ctx.suppressed))
  {
    var spanContext := GetSpanContext(ctx);
    if spanContext.None? || !IsSpanContextValid(spanContext.value) || ctx.suppressed {
      return;
    }
    carrier.Set(TraceIdKey, spanContext.value.traceId);
    carrier.Set(SpanIdKey, spanContext.value.spanId);
    ApplyTwoWrites(old(carrier.entries), TraceIdKey, spanContext.value.traceId, SpanIdKey, spanContext.value.spanId);
  }

  /** Round trip: extracting from what `inject` wrote for a valid,
      unsuppressed span context yields the same trace id and span id, as a
      remote sampled span context. */
  lemma {:induction false} InjectExtractRoundTrip(ctx0: Context, m: map<string, string>, sc: SpanContext)
    requires IsSpanContextValid(sc)
    ensures var m' := ApplyWrites(m, InjectWrites(Some(sc), false));
            && TraceIdKey in m' && SpanIdKey in m'
            && Extract(ctx0, Carrier(Some(m'[TraceIdKey]), Some(m'[SpanIdKey])))
               == SetSpanContext(ctx0, RemoteSampled(sc.traceId, sc.spanId))
  {
    ApplyTwoWrites(m, TraceIdKey, sc.traceId, SpanIdKey, sc.spanId);
    ValidIdsAreDashFree(sc.traceId);
  }

  /** The process-wide propagator `propagation.extract` dispatches to: the
      API's no-op propagator until a tracer provider registers this
      library's propagator. */
  datatype GlobalPropagator = NoopPropagator | JambonzPropagator

  /** `propagation.extract(ctx, carrier)` through the registered propagator. */
  function PropagationExtract(p: GlobalPropagator, ctx: Context, carrier: Carrier): (r: Context)
    ensures p == NoopPropagator ==> r == ctx
    ensures p == JambonzPropagator ==> r == Extract(ctx, carrier)
  {
    match p
    case NoopPropagator => ctx
    case JambonzPropagator => Extract(ctx, carrier)
  }
}
