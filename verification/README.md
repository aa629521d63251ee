# B3 trace-context propagation and Zipkin context conversion, in Dafny

This project models two pieces of witchcraft-go-tracing:

- **B3 propagation** (`wtracing/propagation/b3`). The span extractor reads the
  B3 headers `X-B3-TraceId`, `X-B3-SpanId`, `X-B3-ParentSpanId`,
  `X-B3-Sampled` and `X-B3-Flags` from a carrier and builds a
  `wtracing.SpanContext`. Inconsistent headers are reported through the
  context's `Err`: a list of messages joined by `"; "` in a fixed order, plus
  safe parameters. Every other field is still filled in. The span injector
  writes a context back into headers. The id headers are written only for a
  valid context (trace id and span id both non-empty). `Debug` writes
  `Flags: 1` and suppresses `Sampled`. An unset `Sampled` writes nothing.
  The extractor and injector sources are not part of this model; both are
  modelled from their behaviour tables in `extractor_test.go` and
  `injector_test.go`.
- **Zipkin context conversion** (`wzipkin/span.go`). `toZipkinSpanContext`
  parses the span and parent ids with Go's `strconv.ParseUint(s, 16, 64)`
  and panics on failure. `fromZipkinSpanContext` maps the fields back.
  `toZipkinSpanOptions` builds the Kind / RemoteEndpoint / Parent option list.

Modules:

| module | file | contents |
|---|---|---|
| `Wrappers` | wrappers.dfy | `Option` (Go nil pointers), `Result` (Go panics) |
| `WTracing` | wtracing.dfy | `SpanContext`, the composite `TraceError`, `Join` |
| `B3Carrier` | b3_carrier.dfy | header fields; the carrier as `map<Field, string>` |
| `B3Extractor` | b3_extractor.dfy | `Extract`, the message vocabulary and its report order |
| `B3ExtractorTable` | b3_extractor_table.dfy | the extractor's behaviour table, for every matching carrier |
| `B3Injector` | b3_injector.dfy | `Inject` |
| `B3InjectorTable` | b3_injector_table.dfy | the injector's behaviour table, for every matching context |
| `B3RoundTrip` | b3_roundtrip.dfy | extract∘inject and inject∘extract |
| `HexParse` | hex_parse.dfy | `strconv.ParseUint(s, 16, 64)` and its declarative reading |
| `WZipkin` | wzipkin.dfy | zipkin-go context types and the three conversions |

Modelling choices:

- A header lookup behaves like Go's `http.Header.Get`. A missing header reads
  as `""`, and `""` counts as absent. A header that is set to the empty
  string therefore behaves like a missing one.
- The extractor's tests fix eight rows. The following behaviour is chosen by
  this model and is not fixed by the tests:
  - `Sampled: "0"` reads as `Some(false)`;
  - `Flags: "1"` sets `Debug`, and any other Flags value leaves it false;
  - `"Sampled invalid"` is appended after any id messages in the same error,
    and its safe parameter `sampledHeaderVal` rides on that error.
- The injector writes `Sampled: "0"` for `Sampled = false`. The tests do not
  cover this case.
- A Go panic in the Zipkin adapter is a `Fail(Panic)` result. The `Panic`
  names the field that failed, its value and, for the numeric ids, Go's
  error kind. The zipkin-go functions `model.TraceIDFromHex`, `ID.String` and
  `TraceID.String` are function parameters, because their code is not part
  of this model.
- `strconv.ParseUint` is modelled with Go's own loop order: the digit check
  comes before the overflow check, and the cutoff is 2^60. So the error kind
  (syntax or range) matches Go's. The loop is proved against a declarative
  reading of hexadecimal numerals.

The injector writes `X-B3-ParentSpanId` only for a valid context:
`injector_test.go:50-61` expects no parent header when the span id is
missing, even though a parent id is set.

## Model

| member | source | states |
|---|---|---|
| `B3Extractor.Extract` | wtracing/propagation/b3/extractor_test.go:148-159 | every non-error field is filled in from its own header whether or not there is an error; the parent is present iff its header is; `Sampled` is tri-state ("1" true, "0" false — the "0" reading is chosen, not fixed by the tests — otherwise unset); the error is absent iff both ids are present and Sampled is empty, "1" or "0" |
| `B3Extractor.ProblemsInReportOrder` | wtracing/propagation/b3/extractor_test.go:55-127 | the extractor reports exactly the problems whose conditions hold (missing trace id, missing span id, a parent whose trace and/or span id is missing, an unreadable Sampled value), each once, in the fixed order: missing ids first, then the orphan-parent message naming exactly the ids missing |
| `B3Extractor.MessagesDistinct` | wtracing/propagation/b3/extractor_test.go:55-140 | the six messages are pairwise distinct, so a message identifies its problem |
| `B3Extractor.MessagesOfInjective` | wtracing/propagation/b3/extractor_test.go:55-140 | two problem lists with the same message list are the same list, so an error's messages determine exactly which problems were reported |
| `B3Extractor.ExtractErrorMessages` | wtracing/propagation/b3/extractor_test.go:55-140 | a problem's message appears in the error iff its condition holds, and messages appear in report order (placing "Sampled invalid" after the id messages is chosen, not fixed by the tests) |
| `B3Extractor.ExtractErrorParams` | wtracing/propagation/b3/extractor_test.go:128-140 | the only safe parameter is `sampledHeaderVal`, present iff Sampled was rejected, holding the raw header value |
| `B3Extractor.FieldsFromOwnHeader` | wtracing/propagation/b3/extractor_test.go:150-157 | each non-error field depends only on its own header, so a problem in another header never changes it |
| `B3ExtractorTable.ValuesExtracted` | wtracing/propagation/b3/extractor_test.go:39-53 | all three ids and Sampled "1": all fields populated, sampled true, no error; with no Flags header, Debug stays false |
| `B3ExtractorTable.BothIdsAbsent` | wtracing/propagation/b3/extractor_test.go:55-62 | only Sampled "1": ids empty, sampled true, error text "TraceID missing; SpanID missing" with no params; with no Flags header, Debug stays false |
| `B3ExtractorTable.SpanIdAbsent` | wtracing/propagation/b3/extractor_test.go:64-75 | trace id without span id or parent: trace id kept, error text exactly "SpanID missing"; with no Flags header, Debug stays false |
| `B3ExtractorTable.TraceIdAbsent` | wtracing/propagation/b3/extractor_test.go:76-87 | span id without trace id or parent: span id kept, error text exactly "TraceID missing"; with no Flags header, Debug stays false |
| `B3ExtractorTable.ParentWithoutTrace` | wtracing/propagation/b3/extractor_test.go:88-101 | parent and span id without trace id: parent kept, error text "TraceID missing; ParentID present but TraceID missing"; with no Flags header, Debug stays false |
| `B3ExtractorTable.ParentWithoutSpan` | wtracing/propagation/b3/extractor_test.go:102-115 | parent and trace id without span id: parent kept, error text "SpanID missing; ParentID present but SpanID missing"; with no Flags header, Debug stays false |
| `B3ExtractorTable.ParentAlone` | wtracing/propagation/b3/extractor_test.go:116-127 | parent alone: the three messages in fixed order, "TraceID missing; SpanID missing; ParentID present but TraceID and SpanID missing"; with no Flags header, Debug stays false |
| `B3ExtractorTable.SampledValueInvalid` | wtracing/propagation/b3/extractor_test.go:128-140 | valid ids and an unreadable Sampled value: ids kept, sampled unset, error "Sampled invalid" with safe param `sampledHeaderVal` = the raw value; with no Flags header, Debug stays false |
| `B3Injector.Inject` | wtracing/propagation/b3/injector_test.go:90-100 | trace and span id headers appear together and only for a valid context; the parent header only for a valid context with a parent; Flags "1" iff Debug; Sampled iff not Debug and Sampled set, "1"/"0" by its value (the "0" case is chosen, not fixed by the tests); no other header |
| `B3InjectorTable.FullContextInjection` | wtracing/propagation/b3/injector_test.go:34-48 | valid context, parent, sampled, not debug: exactly TraceId, SpanId, ParentSpanId and Sampled "1" |
| `B3InjectorTable.IdsOnlyForValidContext` | wtracing/propagation/b3/injector_test.go:50-61 | no span id: no id or parent header even with a parent set; only Sampled "1" |
| `B3InjectorTable.DebugSuppressesSampled` | wtracing/propagation/b3/injector_test.go:63-77 | Debug: Flags "1" instead of Sampled, whatever Sampled holds; id headers still written |
| `B3InjectorTable.UnsetSampledNotWritten` | wtracing/propagation/b3/injector_test.go:79-88 | Sampled unset and not debug: only the two id headers, neither Sampled nor Flags |
| `B3RoundTrip.ExtractInject` | wtracing/propagation/b3/injector_test.go:34-48 | for a valid context with no empty parent and no error, extracting the injected headers gives the context back (with its Sampled decision dropped when Debug is set); the extractor row of extractor_test.go:39-53 is the instance with a parent and Sampled true |
| `B3RoundTrip.InjectExtract` | wtracing/propagation/b3/extractor_test.go:39-53 | injecting what was extracted from a canonical carrier (both ids, no empty values, Sampled "0"/"1", Flags "1", not both) writes exactly the same headers |
| `B3RoundTrip.InjectIsCanonical` | wtracing/propagation/b3/injector_test.go:96-100 | whatever the injector writes for a valid context is a canonical carrier |
| `HexParse.Scan` | wzipkin/span.go:101 | the ParseUint loop succeeds iff all characters are hex digits and the value fits in 64 bits, returning that value; an all-digit string that does not fit is a range error |
| `HexParse.ScanFirstBadPosition` | wzipkin/span.go:101 | when the first non-digit is at position k, the loop fails with a syntax error if the digits before k fit in 64 bits and with a range error if they overflow, as Go checks the digit before the overflow |
| `HexParse.ParseUint16` | wzipkin/span.go:100-104 | `ParseUint(s, 16, 64)` succeeds iff s is a non-empty base-16 string with value below 2^64, and then returns that value; empty gives a syntax error, an all-digit overflow a range error |
| `HexParse.ParseUint16Examples` | wzipkin/span.go:109 | no "0x" prefix and no sign are accepted; letters of either case are digits |
| `WZipkin.ParseParent` | wzipkin/span.go:106-114 | an absent parent id maps to nil without parsing; a present one converts iff it is 64-bit hex, to its numeric value, and otherwise panics naming the parent |
| `WZipkin.ToZipkinSpanContext` | wzipkin/span.go:93-124 | succeeds iff the trace id parses and the span id (and parent, when set) are 64-bit hex; panics on the trace id first, then the span id, then the parent, and a numeric-id panic carries the error kind `ParseUint` returned; ids become their numeric values; Debug, Sampled and Err pass through |
| `WZipkin.FromZipkinSpanContext` | wzipkin/span.go:46-60 | the parent is present iff the zipkin parent is non-nil; ids are their rendered strings; Debug, Sampled and Err pass through |
| `WZipkin.ToZipkinSpanOptions` | wzipkin/span.go:74-91 | Kind first and Parent last, with RemoteEndpoint (fields copied) between them iff one is set, so 2 or 3 options; the Parent option holds the zero context when there is no parent, else the converted parent; a parent that does not convert panics |
| `WZipkin.SpanOptionsParentRoundTrip` | wzipkin/span.go:85-89 | the Parent option's context, rendered back to strings, is the parent span that was given, when zipkin renders each parsed id as its original string |
| `WZipkin.ToFromZipkin` | wzipkin/span.go:46-60 | rendering a zipkin context to strings and converting back restores it, when each id's string form parses back to that id |
| `WZipkin.FromToZipkin` | wzipkin/span.go:93-124 | converting a string context to zipkin and back restores it, when zipkin renders each parsed id as the string it came from |

## Left out

- The B3 extractor and injector sources are not part of this model. Both
  are modelled from the tests' tables. The choices for untested inputs are
  listed above.
- HTTP plumbing: `http.NewRequest`, header-name canonicalisation and
  multi-valued headers. The carrier is a map from the five fields to one
  value each.
- werror internals: stack traces and unsafe parameters. An error is a
  message list plus safe parameters, and the unsafe parameters are always
  empty in the tested cases.
- `B3Injector.Inject`: models injection into an empty carrier, as every
  injector test does with a fresh request. What the injector does with
  headers already on the request (for example a stale `X-B3-Sampled` next
  to a newly written `X-B3-Flags`) is not modelled, because the injector's
  source is not part of this model.
- zipkin-go code: the format rules of `model.TraceIDFromHex` and the
  `String` methods. These are parameters.
- `WZipkin.ToZipkinSpanContext`: the panic's message text (`fmt.Sprintf`
  of the value and the error) is not modelled. The `Panic` value carries the
  field, the value and the error kind instead. `ParseUint`'s returned value
  on error (0 or the maximum) is not modelled either, because the adapter
  panics before using it.
- `fromZipkinSpan`, `spanImpl.Context`, `spanImpl.Finish` and
  `fromZipkinSpanModel` (wzipkin/span.go:26-44, 62-72): wrappers around
  zipkin-go spans and the reporter's span model. They have side effects or
  hold only field copies of foreign types.
- The tracer/span façade (`StartSpan`, `WithParent`,
  `WithParentSpanContext`, tagging) and child-span derivation, exercised by
  wtracing/wtracingtests/tests.go and wzipkin/tracer_test.go. Span ids are
  generated randomly by the zipkin-go tracer, which is not part of this
  model.
