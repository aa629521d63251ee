/**
 * The B3 carrier: the five single-value headers that carry a trace context
 * across one hop. Header lookup follows Go's `http.Header.Get`: a missing
 * header reads as the empty string, and the empty string means "absent".
 */
module B3Carrier {

  /** The B3 header fields, one constructor per header name. */
  datatype Field = TraceIdField | SpanIdField | ParentSpanIdField | SampledField | FlagsField
  {
    /** The header name on the wire. */
    function HeaderName(): string {
      match this
      case TraceIdField => "X-B3-TraceId"
      case SpanIdField => "X-B3-SpanId"
      case ParentSpanIdField => "X-B3-ParentSpanId"
      case SampledField => "X-B3-Sampled"
      case FlagsField => "X-B3-Flags"
    }
  }

  /** A carrier holds at most one value per header field. */
  type Carrier = map<Field, string>

  /** The value of header `f`, or "" when the carrier does not hold it. */
  function Lookup(c: Carrier, f: Field): string {
    if f in c then c[f] else ""
  }

  /** The header value meaning "yes" for both Sampled and Flags. */
  const On: string := "1"
  /** The Sampled header value meaning "not sampled". */
  const Off: string := "0"
}
