/**
 * The behaviour table of the B3 injector: for each row, the carrier holds
 * exactly the listed headers and nothing else.
 */
module B3InjectorTable {
  import opened Wrappers
  import opened WTracing
  import opened B3Carrier
  import opened B3Injector

  /** A valid context with a parent, sampled and not debugging: all four headers. */
  lemma FullContextInjection(sc: SpanContext)
    requires sc.IsValid() && sc.parentId.Some? && !sc.debug && sc.sampled == Some(true)
    ensures Inject(sc) == map[TraceIdField := sc.traceId, SpanIdField := sc.id,
                              ParentSpanIdField := sc.parentId.value, SampledField := "1"]
  {
  }

  /** No span id: no id headers at all, not even the parent, but Sampled still written. */
  lemma IdsOnlyForValidContext(sc: SpanContext)
    requires sc.id == "" && !sc.debug && sc.sampled == Some(true)
    ensures Inject(sc) == map[SampledField := "1"]
  {
  }

  /** Debugging: Flags "1" replaces Sampled, whatever Sampled holds; ids still written. */
  lemma DebugSuppressesSampled(sc: SpanContext)
    requires sc.IsValid() && sc.parentId.Some? && sc.debug
    ensures Inject(sc) == map[TraceIdField := sc.traceId, SpanIdField := sc.id,
                              ParentSpanIdField := sc.parentId.value, FlagsField := "1"]
  {
  }

  /** Sampled unset and not debugging: only the id headers. */
  lemma UnsetSampledNotWritten(sc: SpanContext)
    requires sc.IsValid() && sc.parentId.None? && !sc.debug && sc.sampled.None?
    ensures Inject(sc) == map[TraceIdField := sc.traceId, SpanIdField := sc.id]
  {
  }
}
