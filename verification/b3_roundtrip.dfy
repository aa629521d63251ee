/**
 * The extractor and injector as partners: injecting then extracting a
 * well-formed context gives it back, and extracting then injecting a
 * canonical carrier gives the carrier back.
 */
module B3RoundTrip {
  import opened Wrappers
  import opened WTracing
  import opened B3Carrier
  import opened B3Extractor
  import opened B3Injector

  /** A context the injector can write without losing information: valid, no empty parent, no error. */
  predicate Transmissible(sc: SpanContext)
  {
    sc.IsValid() && sc.parentId != Some("") && sc.err.None?
  }

  /**
   * A carrier in the form the injector writes: both ids, no empty values,
   * Sampled "0" or "1", Flags only "1", and never both Flags and Sampled.
   */
  predicate Canonical(c: Carrier)
  {
    && Lookup(c, TraceIdField) != "" && Lookup(c, SpanIdField) != ""
    && (forall f :: f in c ==> c[f] != "")
    && (SampledField in c ==> c[SampledField] in {On, Off})
    && (FlagsField in c ==> c[FlagsField] == On)
    && !(SampledField in c && FlagsField in c)
  }

  /**
   * Extracting what was injected restores the context; with Debug set the
   * Sampled decision is not carried (Flags replaces it) and comes back unset.
   */
  lemma ExtractInject(sc: SpanContext)
    requires Transmissible(sc)
    ensures Extract(Inject(sc)) == if sc.debug then sc.(sampled := None) else sc
  {
  }

  /** Injecting what was extracted from a canonical carrier rewrites the same headers. */
  lemma InjectExtract(c: Carrier)
    requires Canonical(c)
    ensures Inject(Extract(c)) == c
  {
    var sc := Extract(c);
    var r := Inject(sc);
    forall f: Field
      ensures f in r <==> f in c
      ensures f in r ==> r[f] == c[f]
    {
      match f
      case SampledField =>
        if SampledField in c {
          assert !sc.debug;
        }
      case _ =>
    }
    assert r.Keys == c.Keys;
  }

  /** Whatever the injector writes is canonical, so the two round trips meet. */
  lemma InjectIsCanonical(sc: SpanContext)
    requires sc.IsValid() && sc.parentId != Some("")
    ensures Canonical(Inject(sc))
  {
  }
}
