/**
 * The behaviour table of the B3 extractor, stated for every carrier that
 * matches a row's pattern of present and absent headers. No row sets the
 * Flags header, and each row expects Debug to stay false.
 */
module B3ExtractorTable {
  import opened Wrappers
  import opened WTracing
  import opened B3Carrier
  import opened B3Extractor

  /** All three ids and Sampled "1": every field filled, no error. */
  lemma ValuesExtracted(c: Carrier)
    requires Lookup(c, TraceIdField) != "" && Lookup(c, SpanIdField) != ""
    requires Lookup(c, ParentSpanIdField) != "" && Lookup(c, SampledField) == On
    requires Lookup(c, FlagsField) == ""
    ensures var sc := Extract(c);
      && sc.traceId == c[TraceIdField] && sc.id == c[SpanIdField]
      && sc.parentId == Some(c[ParentSpanIdField])
      && sc.sampled == Some(true) && !sc.debug
      && sc.err == None
  {
  }

  /** Only Sampled "1": both ids empty, sampled, and both ids reported missing. */
  lemma BothIdsAbsent(c: Carrier)
    requires Lookup(c, TraceIdField) == "" && Lookup(c, SpanIdField) == ""
    requires Lookup(c, ParentSpanIdField) == "" && Lookup(c, SampledField) == On
    requires Lookup(c, FlagsField) == ""
    ensures var sc := Extract(c);
      && sc.traceId == "" && sc.id == "" && sc.parentId == None
      && sc.sampled == Some(true) && !sc.debug
      && sc.err == Some(TraceError(MessagesOf([TraceIdMissing, SpanIdMissing]), map[]))
      && sc.err.value.Text() == "TraceID missing" + "; " + "SpanID missing"
  {
    assert Problems(c) == [TraceIdMissing, SpanIdMissing];
    JoinPair(TraceIdMissing.Message(), SpanIdMissing.Message(), MessageSeparator);
  }

  /** Trace id without span id and without parent: only "SpanID missing". */
  lemma SpanIdAbsent(c: Carrier)
    requires Lookup(c, TraceIdField) != "" && Lookup(c, SpanIdField) == ""
    requires Lookup(c, ParentSpanIdField) == "" && Lookup(c, SampledField) == On
    requires Lookup(c, FlagsField) == ""
    ensures var sc := Extract(c);
      && sc.traceId == c[TraceIdField] && sc.id == "" && sc.parentId == None
      && sc.sampled == Some(true) && !sc.debug
      && sc.err == Some(TraceError(MessagesOf([SpanIdMissing]), map[]))
      && sc.err.value.Text() == "SpanID missing"
  {
    assert Problems(c) == [SpanIdMissing];
  }

  /** Span id without trace id and without parent: only "TraceID missing". */
  lemma TraceIdAbsent(c: Carrier)
    requires Lookup(c, TraceIdField) == "" && Lookup(c, SpanIdField) != ""
    requires Lookup(c, ParentSpanIdField) == "" && Lookup(c, SampledField) == On
    requires Lookup(c, FlagsField) == ""
    ensures var sc := Extract(c);
      && sc.traceId == "" && sc.id == c[SpanIdField] && sc.parentId == None
      && sc.sampled == Some(true) && !sc.debug
      && sc.err == Some(TraceError(MessagesOf([TraceIdMissing]), map[]))
      && sc.err.value.Text() == "TraceID missing"
  {
    assert Problems(c) == [TraceIdMissing];
  }

  /** Parent and span id without trace id: the parent is kept and reported as orphaned. */
  lemma ParentWithoutTrace(c: Carrier)
    requires Lookup(c, TraceIdField) == "" && Lookup(c, SpanIdField) != ""
    requires Lookup(c, ParentSpanIdField) != "" && Lookup(c, SampledField) == On
    requires Lookup(c, FlagsField) == ""
    ensures var sc := Extract(c);
      && sc.traceId == "" && sc.id == c[SpanIdField]
      && sc.parentId == Some(c[ParentSpanIdField])
      && sc.sampled == Some(true) && !sc.debug
      && sc.err == Some(TraceError(MessagesOf([TraceIdMissing, ParentWithoutTraceId]), map[]))
      && sc.err.value.Text() == "TraceID missing" + "; " + "ParentID present but TraceID missing"
  {
    assert Problems(c) == [TraceIdMissing, ParentWithoutTraceId];
    JoinPair(TraceIdMissing.Message(), ParentWithoutTraceId.Message(), MessageSeparator);
  }

  /** Parent and trace id without span id: the parent is kept and reported as orphaned. */
  lemma ParentWithoutSpan(c: Carrier)
    requires Lookup(c, TraceIdField) != "" && Lookup(c, SpanIdField) == ""
    requires Lookup(c, ParentSpanIdField) != "" && Lookup(c, SampledField) == On
    requires Lookup(c, FlagsField) == ""
    ensures var sc := Extract(c);
      && sc.traceId == c[TraceIdField] && sc.id == ""
      && sc.parentId == Some(c[ParentSpanIdField])
      && sc.sampled == Some(true) && !sc.debug
      && sc.err == Some(TraceError(MessagesOf([SpanIdMissing, ParentWithoutSpanId]), map[]))
      && sc.err.value.Text() == "SpanID missing" + "; " + "ParentID present but SpanID missing"
  {
    assert Problems(c) == [SpanIdMissing, ParentWithoutSpanId];
    JoinPair(SpanIdMissing.Message(), ParentWithoutSpanId.Message(), MessageSeparator);
  }

  /** A parent alone: three messages, in the fixed order. */
  lemma ParentAlone(c: Carrier)
    requires Lookup(c, TraceIdField) == "" && Lookup(c, SpanIdField) == ""
    requires Lookup(c, ParentSpanIdField) != "" && Lookup(c, SampledField) == On
    requires Lookup(c, FlagsField) == ""
    ensures var sc := Extract(c);
      && sc.traceId == "" && sc.id == ""
      && sc.parentId == Some(c[ParentSpanIdField])
      && sc.sampled == Some(true) && !sc.debug
      && sc.err == Some(TraceError(MessagesOf([TraceIdMissing, SpanIdMissing, ParentWithoutIds]), map[]))
      && sc.err.value.Text()
         == "TraceID missing" + "; " + "SpanID missing" + "; "
            + "ParentID present but TraceID and SpanID missing"
  {
    assert Problems(c) == [TraceIdMissing, SpanIdMissing, ParentWithoutIds];
    assert MessagesOf(Problems(c)) == [TraceIdMissing.Message(), SpanIdMissing.Message(), ParentWithoutIds.Message()];
    JoinTriple(TraceIdMissing.Message(), SpanIdMissing.Message(), ParentWithoutIds.Message(), MessageSeparator);
  }

  /** Valid ids and an unreadable Sampled value: ids kept, Sampled unset, the raw value reported. */
  lemma SampledValueInvalid(c: Carrier)
    requires Lookup(c, TraceIdField) != "" && Lookup(c, SpanIdField) != ""
    requires Lookup(c, ParentSpanIdField) == "" && Lookup(c, SampledField) !in {"", On, Off}
    requires Lookup(c, FlagsField) == ""
    ensures var sc := Extract(c);
      && sc.traceId == c[TraceIdField] && sc.id == c[SpanIdField] && sc.parentId == None
      && sc.sampled == None && !sc.debug
      && sc.err == Some(TraceError(MessagesOf([SampledInvalid]), map[SampledParam := c[SampledField]]))
      && sc.err.value.Text() == "Sampled invalid"
  {
    assert Problems(c) == [SampledInvalid];
  }
}
