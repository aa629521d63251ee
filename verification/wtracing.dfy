/**
 * The trace-context data model shared by the B3 propagation code and the
 * Zipkin adapter: `wtracing.SpanContext` and the diagnostic error it may carry.
 */
module WTracing {
  import opened Wrappers

  /** The separator placed between the messages of a composite error. */
  const MessageSeparator: string := "; "

  /**
   * A diagnostic error: its messages in the order they were raised, and the
   * safe parameters attached to it. Its text is the messages joined by "; ".
   */
  datatype TraceError = TraceError(messages: seq<string>, safeParams: map<string, string>)
  {
    function Text(): string {
      Join(messages, MessageSeparator)
    }
  }

  /** `parts` separated by `sep`; the empty list gives the empty string. */
  function Join(parts: seq<string>, sep: string): string
    decreases |parts|
  {
    if |parts| == 0 then ""
    else if |parts| == 1 then parts[0]
    else Join(parts[..|parts| - 1], sep) + sep + parts[|parts| - 1]
  }

  /**
   * The identity of a span. An empty `traceId` or `id` means the value is
   * absent; `sampled` is tri-state (unset, true, false).
   */
  datatype SpanContext = SpanContext(
    traceId: string,
    id: string,
    parentId: Option<string>,
    debug: bool,
    sampled: Option<bool>,
    err: Option<TraceError>)
  {
    /** A context can parent a child span only when both ids are present. */
    predicate IsValid() {
      traceId != "" && id != ""
    }
  }

  /** Two parts joined: the first, the separator, the second. */
  lemma JoinPair(a: string, b: string, sep: string)
    ensures Join([a, b], sep) == a + sep + b
  {
  }

  /** Three parts joined, separator between each pair. */
  lemma JoinTriple(a: string, b: string, c: string, sep: string)
    ensures Join([a, b, c], sep) == a + sep + b + sep + c
  {
    assert [a, b, c][..2] == [a, b];
    JoinPair(a, b, sep);
  }
}
