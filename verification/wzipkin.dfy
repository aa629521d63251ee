/**
 * The Zipkin adapter's conversions between a `wtracing.SpanContext` (string
 * ids) and zipkin-go's `model.SpanContext` (numeric ids), and the list of
 * zipkin span options built from `wtracing.SpanOptionImpl`.
 *
 * zipkin-go's own code is not part of this model: `model.TraceIDFromHex`
 * and the `String` methods of its id types are parameters.
 */
module WZipkin {
  import opened Wrappers
  import opened WTracing
  import opened HexParse

  newtype uint8 = x: int | 0 <= x < 0x100
  newtype uint16 = x: int | 0 <= x < 0x1_0000

  /** zipkin-go's `model.TraceID`: a 128-bit id held as two 64-bit halves. */
  datatype ZipkinTraceId = ZipkinTraceId(high: uint64, low: uint64)

  /** zipkin-go's `model.SpanContext`; a nil parent id is `None`. */
  datatype ZipkinSpanContext = ZipkinSpanContext(
    traceId: ZipkinTraceId,
    id: uint64,
    parentId: Option<uint64>,
    debug: bool,
    sampled: Option<bool>,
    err: Option<TraceError>)

  /** The zero value of `model.SpanContext`. */
  const ZeroContext: ZipkinSpanContext :=
    ZipkinSpanContext(ZipkinTraceId(0, 0), 0, None, false, None, None)

  /** `wtracing.Endpoint`. */
  datatype Endpoint = Endpoint(serviceName: string, ipv4: seq<uint8>, ipv6: seq<uint8>, port: uint16)

  /** zipkin-go's `model.Endpoint`. */
  datatype ZipkinEndpoint = ZipkinEndpoint(serviceName: string, ipv4: seq<uint8>, ipv6: seq<uint8>, port: uint16)

  /** The fields of `wtracing.SpanOptionImpl` the adapter reads; nil pointers are `None`. */
  datatype SpanOptionImpl = SpanOptionImpl(kind: string, remoteEndpoint: Option<Endpoint>, parentSpan: Option<SpanContext>)

  /** The zipkin span options the adapter creates. */
  datatype ZipkinSpanOption =
    | KindOption(kind: string)
    | RemoteEndpointOption(endpoint: ZipkinEndpoint)
    | ParentOption(context: ZipkinSpanContext)

  /** Why `toZipkinSpanContext` panics: the first field, in checking order, that did not parse. */
  datatype Panic =
    | TraceIdInvalid(value: string)
    | SpanIdInvalid(value: string, cause: NumError)
    | ParentIdInvalid(value: string, cause: NumError)

  /** A string `strconv.ParseUint(s, 16, 64)` accepts: non-empty, base-16 digits, below 2^64. */
  predicate IsUint64Hex(s: string) {
    |s| > 0 && AllHex(s) && HexValue(s) <= MaxUint64
  }

  /**
   * `toZipkinSpanContext`: parses the trace id with `traceIdFromHex`, then
   * the span id and (when set) the parent id as 64-bit hex, panicking on the
   * first that fails; the other fields pass through unchanged.
   */
  function ToZipkinSpanContext(sc: SpanContext, traceIdFromHex: string -> Option<ZipkinTraceId>)
    : (r: Result<ZipkinSpanContext, Panic>)
    ensures r.Ok? <==>
      traceIdFromHex(sc.traceId).Some? && IsUint64Hex(sc.id)
      && (sc.parentId.Some? ==> IsUint64Hex(sc.parentId.value))
    // the checks run trace id, span id, parent id, and the first failure is reported
    ensures traceIdFromHex(sc.traceId).None? ==> r == Fail(TraceIdInvalid(sc.traceId))
    ensures traceIdFromHex(sc.traceId).Some? && !IsUint64Hex(sc.id) ==> r.Fail? && r.error.SpanIdInvalid?
    ensures r.Fail? && r.error.TraceIdInvalid? ==> traceIdFromHex(sc.traceId).None?
    ensures r.Fail? && r.error.SpanIdInvalid? ==>
      traceIdFromHex(sc.traceId).Some? && r.error.value == sc.id && ParseUint16(sc.id) == Fail(r.error.cause)
    ensures traceIdFromHex(sc.traceId).Some? && IsUint64Hex(sc.id) && r.Fail? ==>
      r.error.ParentIdInvalid? && ParseUint16(r.error.value) == Fail(r.error.cause)
    ensures r.Fail? && r.error.ParentIdInvalid? ==> sc.parentId == Some(r.error.value) && !IsUint64Hex(r.error.value)
    // a successful conversion holds the numeric values of the hex ids
    ensures r.Ok? ==> r.value.traceId == traceIdFromHex(sc.traceId).value
    ensures r.Ok? ==> r.value.id as int == HexValue(sc.id)
    ensures r.Ok? ==> (r.value.parentId.Some? <==> sc.parentId.Some?)
    ensures r.Ok? && sc.parentId.Some? ==> r.value.parentId.value as int == HexValue(sc.parentId.value)
    ensures r.Ok? ==> r.value.debug == sc.debug && r.value.sampled == sc.sampled && r.value.err == sc.err
  {
    match traceIdFromHex(sc.traceId)
    case None => Fail(TraceIdInvalid(sc.traceId))
    case Some(traceId) =>
      match ParseUint16(sc.id)
      case Fail(e) => Fail(SpanIdInvalid(sc.id, e))
      case Ok(id) =>
        match ParseParent(sc.parentId)
        case Fail(p) => Fail(p)
        case Ok(parentId) =>
          Ok(ZipkinSpanContext(traceId, id, parentId, sc.debug, sc.sampled, sc.err))
  }

  /** An absent parent id stays absent without parsing; a present one must parse. */
  function ParseParent(parentId: Option<string>): (r: Result<Option<uint64>, Panic>)
    ensures parentId.None? ==> r == Ok(None)
    ensures parentId.Some? ==> (r.Ok? <==> IsUint64Hex(parentId.value))
    ensures r.Ok? && parentId.Some? ==> r.value.Some? && r.value.value as int == HexValue(parentId.value)
    ensures r.Fail? ==> r.error.ParentIdInvalid? && parentId == Some(r.error.value)
    ensures r.Fail? ==> ParseUint16(r.error.value) == Fail(r.error.cause)
  {
    match parentId
    case None => Ok(None)
    case Some(p) =>
      match ParseUint16(p)
      case Fail(e) => Fail(ParentIdInvalid(p, e))
      case Ok(v) => Ok(Some(v))
  }

  /**
   * `fromZipkinSpanContext`: the reverse field mapping. Ids are rendered
   * with zipkin-go's `String` methods, given here as `traceIdString` and
   * `idString`; the parent is present exactly when the zipkin one is.
   */
  function FromZipkinSpanContext(zc: ZipkinSpanContext, traceIdString: ZipkinTraceId -> string, idString: uint64 -> string)
    : (sc: SpanContext)
    ensures sc.parentId.Some? <==> zc.parentId.Some?
    ensures sc.parentId.Some? ==> sc.parentId.value == idString(zc.parentId.value)
    ensures sc.traceId == traceIdString(zc.traceId) && sc.id == idString(zc.id)
    ensures sc.debug == zc.debug && sc.sampled == zc.sampled && sc.err == zc.err
  {
    SpanContext(
      traceId := traceIdString(zc.traceId),
      id := idString(zc.id),
      parentId := if zc.parentId.Some? then Some(idString(zc.parentId.value)) else None,
      debug := zc.debug,
      sampled := zc.sampled,
      err := zc.err)
  }

  /** The endpoint copied field by field into zipkin's type. */
  function ToZipkinEndpoint(e: Endpoint): ZipkinEndpoint
  {
    ZipkinEndpoint(e.serviceName, e.ipv4, e.ipv6, e.port)
  }

  /**
   * `toZipkinSpanOptions`: the Kind option, then a RemoteEndpoint option
   * when an endpoint is set, then the Parent option, which carries the
   * converted parent or the zero context. A parent that does not convert
   * panics.
   */
  function ToZipkinSpanOptions(impl: SpanOptionImpl, traceIdFromHex: string -> Option<ZipkinTraceId>)
    : (r: Result<seq<ZipkinSpanOption>, Panic>)
    ensures r.Fail? <==> impl.parentSpan.Some? && ToZipkinSpanContext(impl.parentSpan.value, traceIdFromHex).Fail?
    ensures r.Fail? ==> r.error == ToZipkinSpanContext(impl.parentSpan.value, traceIdFromHex).error
    ensures r.Ok? ==> 2 <= |r.value| <= 3
    ensures r.Ok? ==> r.value[0] == KindOption(impl.kind) && r.value[|r.value| - 1].ParentOption?
    ensures r.Ok? ==> (|r.value| == 3 <==> impl.remoteEndpoint.Some?)
    ensures r.Ok? && |r.value| == 3 ==>
      var z, e := r.value[1], impl.remoteEndpoint.value;
      && z.RemoteEndpointOption?
      && z.endpoint.serviceName == e.serviceName && z.endpoint.ipv4 == e.ipv4
      && z.endpoint.ipv6 == e.ipv6 && z.endpoint.port == e.port
    ensures r.Ok? && impl.parentSpan.None? ==> r.value[|r.value| - 1].context == ZeroContext
    ensures r.Ok? && impl.parentSpan.Some? ==>
      Ok(r.value[|r.value| - 1].context) == ToZipkinSpanContext(impl.parentSpan.value, traceIdFromHex)
  {
    var head := [KindOption(impl.kind)]
      + (if impl.remoteEndpoint.Some? then [RemoteEndpointOption(ToZipkinEndpoint(impl.remoteEndpoint.value))] else []);
    if impl.parentSpan.None? then Ok(head + [ParentOption(ZeroContext)])
    else
      match ToZipkinSpanContext(impl.parentSpan.value, traceIdFromHex)
      case Fail(p) => Fail(p)
      case Ok(parent) => Ok(head + [ParentOption(parent)])
  }

  /**
   * The Parent option carries the parent span itself: rendering its context
   * back to strings restores the parent, provided zipkin renders each parsed
   * id as the string it was parsed from.
   */
  lemma SpanOptionsParentRoundTrip(impl: SpanOptionImpl, traceIdFromHex: string -> Option<ZipkinTraceId>,
                                    traceIdString: ZipkinTraceId -> string, idString: uint64 -> string)
    requires impl.parentSpan.Some?
    requires ToZipkinSpanOptions(impl, traceIdFromHex).Ok?
    requires var p := impl.parentSpan.value;
      && traceIdString(traceIdFromHex(p.traceId).value) == p.traceId
      && idString(HexValue(p.id) as uint64) == p.id
      && (p.parentId.Some? ==> idString(HexValue(p.parentId.value) as uint64) == p.parentId.value)
    ensures var opts := ToZipkinSpanOptions(impl, traceIdFromHex).value;
      FromZipkinSpanContext(opts[|opts| - 1].context, traceIdString, idString) == impl.parentSpan.value
  {
  }

  /**
   * Converting a zipkin context to strings and back restores it, provided
   * the string forms of its ids parse back to the same ids.
   */
  lemma ToFromZipkin(zc: ZipkinSpanContext, traceIdFromHex: string -> Option<ZipkinTraceId>,
                     traceIdString: ZipkinTraceId -> string, idString: uint64 -> string)
    requires traceIdFromHex(traceIdString(zc.traceId)) == Some(zc.traceId)
    requires ParseUint16(idString(zc.id)) == Ok(zc.id)
    requires zc.parentId.Some? ==> ParseUint16(idString(zc.parentId.value)) == Ok(zc.parentId.value)
    ensures ToZipkinSpanContext(FromZipkinSpanContext(zc, traceIdString, idString), traceIdFromHex) == Ok(zc)
  {
  }

  /**
   * Converting a string context to zipkin and back restores it, provided
   * zipkin renders each parsed id as the string it was parsed from.
   */
  lemma FromToZipkin(sc: SpanContext, traceIdFromHex: string -> Option<ZipkinTraceId>,
                     traceIdString: ZipkinTraceId -> string, idString: uint64 -> string)
    requires ToZipkinSpanContext(sc, traceIdFromHex).Ok?
    requires traceIdString(traceIdFromHex(sc.traceId).value) == sc.traceId
    requires idString(HexValue(sc.id) as uint64) == sc.id
    requires sc.parentId.Some? ==> idString(HexValue(sc.parentId.value) as uint64) == sc.parentId.value
    ensures FromZipkinSpanContext(ToZipkinSpanContext(sc, traceIdFromHex).value, traceIdString, idString) == sc
  {
  }
}
