/**
 * The B3 span extractor: reads a carrier and produces a span context,
 * reporting inconsistent or malformed headers through the context's error
 * instead of failing. Every other field is filled in even when the error is set.
 */
module B3Extractor {
  import opened Wrappers
  import opened WTracing
  import opened B3Carrier

  /** The problems the extractor reports, declared in the order it reports them. */
  datatype Problem =
    | TraceIdMissing
    | SpanIdMissing
    | ParentWithoutIds
    | ParentWithoutTraceId
    | ParentWithoutSpanId
    | SampledInvalid
  {
    /** The message text of the problem. */
    function Message(): string {
      match this
      case TraceIdMissing => "TraceID missing"
      case SpanIdMissing => "SpanID missing"
      case ParentWithoutIds => "ParentID present but TraceID and SpanID missing"
      case ParentWithoutTraceId => "ParentID present but TraceID missing"
      case ParentWithoutSpanId => "ParentID present but SpanID missing"
      case SampledInvalid => "Sampled invalid"
    }

    /** The position of the problem in the report order. */
    function Rank(): nat {
      match this
      case TraceIdMissing => 0
      case SpanIdMissing => 1
      case ParentWithoutIds => 2
      case ParentWithoutTraceId => 3
      case ParentWithoutSpanId => 4
      case SampledInvalid => 5
    }
  }

  /** The safe parameter naming the rejected Sampled header value. */
  const SampledParam: string := "sampledHeaderVal"

  /** How a Sampled header value reads: absent, a decision, or a value to reject. */
  datatype SampledReading = Unset | Decided(sampled: bool) | Rejected(raw: string)

  function ReadSampled(v: string): SampledReading
  {
    if v == "" then Unset
    else if v == On then Decided(true)
    else if v == Off then Decided(false)
    else Rejected(v)
  }

  /**
   * When a problem applies to a carrier, stated one problem at a time: a
   * missing id, a parent whose owner ids are (partly) missing, or a Sampled
   * value other than "", "0" and "1".
   */
  predicate Raised(p: Problem, c: Carrier)
  {
    var t, s, parent := Lookup(c, TraceIdField), Lookup(c, SpanIdField), Lookup(c, ParentSpanIdField);
    match p
    case TraceIdMissing => t == ""
    case SpanIdMissing => s == ""
    case ParentWithoutIds => parent != "" && t == "" && s == ""
    case ParentWithoutTraceId => parent != "" && t == "" && s != ""
    case ParentWithoutSpanId => parent != "" && t != "" && s == ""
    case SampledInvalid => Lookup(c, SampledField) !in {"", On, Off}
  }

  /** The id problems, checked in order: trace id, span id, then the parent. */
  function IdProblems(traceId: string, spanId: string, parentId: string): seq<Problem>
  {
    (if traceId == "" then [TraceIdMissing] else [])
    + (if spanId == "" then [SpanIdMissing] else [])
    + (if parentId == "" then []
       else if traceId == "" && spanId == "" then [ParentWithoutIds]
       else if traceId == "" then [ParentWithoutTraceId]
       else if spanId == "" then [ParentWithoutSpanId]
       else [])
  }

  /** All problems of a carrier: the id problems, then the Sampled one. */
  function Problems(c: Carrier): seq<Problem>
  {
    IdProblems(Lookup(c, TraceIdField), Lookup(c, SpanIdField), Lookup(c, ParentSpanIdField))
    + (if ReadSampled(Lookup(c, SampledField)).Rejected? then [SampledInvalid] else [])
  }

  /** The message texts of a list of problems. */
  function MessagesOf(ps: seq<Problem>): seq<string>
  {
    seq(|ps|, i requires 0 <= i < |ps| => ps[i].Message())
  }

  /** The safe parameters: the raw Sampled value, when it was rejected. */
  function SafeParams(c: Carrier): map<string, string>
  {
    var s := Lookup(c, SampledField);
    if ReadSampled(s).Rejected? then map[SampledParam := s] else map[]
  }

  /**
   * The extracted context. Ids and parent are the raw header values; the
   * Sampled and Flags headers are interpreted; the error lists every problem.
   */
  function Extract(c: Carrier): (sc: SpanContext)
    // every field is filled in from its own header, whether or not there is an error
    ensures sc.traceId == Lookup(c, TraceIdField)
    ensures sc.id == Lookup(c, SpanIdField)
    ensures sc.parentId.Some? <==> Lookup(c, ParentSpanIdField) != ""
    ensures sc.parentId.Some? ==> sc.parentId.value == Lookup(c, ParentSpanIdField)
    ensures sc.sampled == (if Lookup(c, SampledField) == On then Some(true)
                           else if Lookup(c, SampledField) == Off then Some(false)
                           else None)
    ensures sc.debug <==> Lookup(c, FlagsField) == On
    // the error is absent exactly when the context is valid and Sampled was acceptable
    ensures sc.err.None? <==> sc.IsValid() && (Lookup(c, SampledField) in {"", On, Off})
  {
    var ps := Problems(c);
    var reading := ReadSampled(Lookup(c, SampledField));
    var parent := Lookup(c, ParentSpanIdField);
    SpanContext(
      traceId := Lookup(c, TraceIdField),
      id := Lookup(c, SpanIdField),
      parentId := if parent == "" then None else Some(parent),
      debug := Lookup(c, FlagsField) == On,
      sampled := if reading.Decided? then Some(reading.sampled) else None,
      err := if |ps| == 0 then None else Some(TraceError(MessagesOf(ps), SafeParams(c))))
  }

  /** The problems of a carrier are exactly those raised, each once, in report order. */
  lemma ProblemsInReportOrder(c: Carrier)
    ensures forall p :: p in Problems(c) <==> Raised(p, c)
    ensures forall i, j :: 0 <= i < j < |Problems(c)| ==> Problems(c)[i].Rank() < Problems(c)[j].Rank()
  {
  }

  /** Distinct problems have distinct messages, so a message names its problem. */
  lemma MessagesDistinct(p: Problem, q: Problem)
    ensures p.Message() == q.Message() ==> p == q
  {
    if p != q {
      assert |p.Message()| != |q.Message()| || p.Message()[0] != q.Message()[0];
    }
  }

  /** The message list names its problems: two problem lists with the same messages are the same list. */
  lemma MessagesOfInjective(ps: seq<Problem>, qs: seq<Problem>)
    ensures MessagesOf(ps) == MessagesOf(qs) ==> ps == qs
  {
    if MessagesOf(ps) == MessagesOf(qs) {
      assert |ps| == |MessagesOf(ps)| == |qs|;
      forall i | 0 <= i < |ps|
        ensures ps[i] == qs[i]
      {
        assert MessagesOf(ps)[i] == MessagesOf(qs)[i];
        MessagesDistinct(ps[i], qs[i]);
      }
    }
  }

  /**
   * Which messages the error holds and in what order: the message of each
   * problem appears exactly when that problem is raised, and the messages
   * come in report order.
   */
  lemma ExtractErrorMessages(c: Carrier)
    requires Extract(c).err.Some?
    ensures var msgs := Extract(c).err.value.messages;
      && (forall p: Problem :: p.Message() in msgs <==> Raised(p, c))
      && (forall i, j, p: Problem, q: Problem ::
            0 <= i < j < |msgs| && msgs[i] == p.Message() && msgs[j] == q.Message() ==> p.Rank() < q.Rank())
  {
    var ps := Problems(c);
    var msgs := Extract(c).err.value.messages;
    ProblemsInReportOrder(c);
    forall p: Problem
      ensures p.Message() in msgs <==> Raised(p, c)
    {
      if p.Message() in msgs {
        var i :| 0 <= i < |msgs| && msgs[i] == p.Message();
        assert msgs[i] == ps[i].Message();
        MessagesDistinct(ps[i], p);
      }
      if Raised(p, c) {
        var i :| 0 <= i < |ps| && ps[i] == p;
        assert msgs[i] == p.Message();
      }
    }
    forall i, j, p: Problem, q: Problem | 0 <= i < j < |msgs| && msgs[i] == p.Message() && msgs[j] == q.Message()
      ensures p.Rank() < q.Rank()
    {
      assert msgs[i] == ps[i].Message() && msgs[j] == ps[j].Message();
      MessagesDistinct(ps[i], p);
      MessagesDistinct(ps[j], q);
    }
  }

  /** The error's only safe parameter is the rejected Sampled value, present exactly when it was rejected. */
  lemma ExtractErrorParams(c: Carrier)
    requires Extract(c).err.Some?
    ensures var params := Extract(c).err.value.safeParams;
      && params.Keys <= {SampledParam}
      && (SampledParam in params <==> Raised(SampledInvalid, c))
      && (SampledParam in params ==> params[SampledParam] == Lookup(c, SampledField))
  {
  }

  /**
   * Each non-error field depends on its own header alone, so a problem in
   * another header never blanks or alters it.
   */
  lemma FieldsFromOwnHeader(c1: Carrier, c2: Carrier)
    ensures Lookup(c1, TraceIdField) == Lookup(c2, TraceIdField) ==> Extract(c1).traceId == Extract(c2).traceId
    ensures Lookup(c1, SpanIdField) == Lookup(c2, SpanIdField) ==> Extract(c1).id == Extract(c2).id
    ensures Lookup(c1, ParentSpanIdField) == Lookup(c2, ParentSpanIdField) ==> Extract(c1).parentId == Extract(c2).parentId
    ensures Lookup(c1, SampledField) == Lookup(c2, SampledField) ==> Extract(c1).sampled == Extract(c2).sampled
    ensures Lookup(c1, FlagsField) == Lookup(c2, FlagsField) ==> Extract(c1).debug == Extract(c2).debug
  {
  }
}
