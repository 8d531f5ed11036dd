/**
 * Value types of the tracing backend (go.opencensus.io/trace) that the core handles,
 * and the record of which span the core asked the backend to start.
 */
module Trace {
  import opened Wrappers

  datatype AttributeValue = BoolValue(b: bool) | StringValue(s: string) | Int64Value(i: int)

  datatype Attribute = Attribute(key: string, value: AttributeValue)

  /** trace.Status; the zero value is Status(0, ""). */
  datatype Status = Status(code: int, message: string)

  datatype SpanKind = SpanKindUnspecified | SpanKindServer | SpanKindClient

  /** An opaque reference to a sampler function; a nil sampler is None. */
  type Sampler = nat

  datatype StartOptions = StartOptions(sampler: Option<Sampler>, spanKind: SpanKind)

  /** trace.StartOptions{} */
  const ZeroStartOptions: StartOptions := StartOptions(None, SpanKindUnspecified)

  /** The identity of a span as the binary propagation format carries it. */
  datatype SpanContext = SpanContext(traceId: seq<bv8>, spanId: seq<bv8>, traceOptions: bv32)

  /** trace.SpanContext{} */
  const ZeroSpanContext: SpanContext := SpanContext(seq(16, _ => 0), seq(8, _ => 0), 0)

  /**
   * Which backend call started the span of a call:
   * trace.StartSpan (a child of the span already in the context, or a root span when there is none)
   * or trace.StartSpanWithRemoteParent.
   */
  datatype SpanStart =
    | NewSpan(name: string, kind: SpanKind, sampler: Option<Sampler>)
    | RemoteChildSpan(name: string, parent: SpanContext, kind: SpanKind, sampler: Option<Sampler>)
}
