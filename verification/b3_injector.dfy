/**
 * The B3 span injector: writes a span context into a carrier. Ids are
 * written only for a valid context; Debug takes precedence over Sampled; an
 * unset Sampled writes nothing.
 */
module B3Injector {
  import opened Wrappers
  import opened WTracing
  import opened B3Carrier

  /** The id headers: trace, span and (when set) parent, or nothing for an invalid context. */
  function IdHeaders(sc: SpanContext): Carrier
  {
    if !sc.IsValid() then map[]
    else
      var ids := map[TraceIdField := sc.traceId, SpanIdField := sc.id];
      if sc.parentId.Some? then ids[ParentSpanIdField := sc.parentId.value] else ids
  }

  /** The sampling headers: Flags when debugging, otherwise Sampled when it is set. */
  function SamplingHeaders(sc: SpanContext): Carrier
  {
    if sc.debug then map[FlagsField := On]
    else if sc.sampled.Some? then map[SampledField := if sc.sampled.value then On else Off]
    else map[]
  }

  /** The headers written for `sc` into an empty carrier; nothing else is written. */
  function Inject(sc: SpanContext): (c: Carrier)
    // the id headers appear together, and only for a valid context
    ensures TraceIdField in c <==> sc.IsValid()
    ensures SpanIdField in c <==> sc.IsValid()
    ensures ParentSpanIdField in c <==> sc.IsValid() && sc.parentId.Some?
    ensures TraceIdField in c ==> c[TraceIdField] == sc.traceId && c[SpanIdField] == sc.id
    ensures ParentSpanIdField in c ==> c[ParentSpanIdField] == sc.parentId.value
    // Debug writes Flags and suppresses Sampled; an unset Sampled writes nothing
    ensures FlagsField in c <==> sc.debug
    ensures FlagsField in c ==> c[FlagsField] == On
    ensures SampledField in c <==> !sc.debug && sc.sampled.Some?
    ensures SampledField in c ==> (c[SampledField] == On <==> sc.sampled.value)
    ensures SampledField in c ==> c[SampledField] in {On, Off}
  {
    IdHeaders(sc) + SamplingHeaders(sc)
  }
}
