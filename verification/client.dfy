/**
 * The calling side (pkg/tracing/client.go): a handler holding immutable configuration,
 * which names and starts the span of an outbound call, sends its span context in the
 * outgoing metadata, and forwards lifecycle events to the translator.
 */
module Client {
  import opened Consts
  import opened Grpc
  import opened Trace
  import opened Naming
  import opened Common

  datatype ClientHandler = ClientHandler(startOptions: StartOptions, payloadAttributeLengthLimit: int)

  /** NewStandardClientHandler: zero start options and the standard 256-byte payload limit. */
  function NewStandardClientHandler(): (c: ClientHandler)
    ensures c.payloadAttributeLengthLimit == 256
    ensures c.startOptions.sampler.None? && c.startOptions.spanKind == SpanKindUnspecified
  {
    ClientHandler(ZeroStartOptions, StandardPayloadAttributeSizeLimit)
  }

  /** TagConn returns the context it is given. */
  function TagConn<Ctx>(c: ClientHandler, ctx: Ctx): (r: Ctx)
    ensures r == ctx
  {
    ctx
  }

  /** HandleRPC: the translator, with this handler's payload limit. */
  method HandleRPC(c: ClientHandler, span: Span, rs: RPCStats)
    modifies span
    ensures Translated(old(span.State()), span.State(), rs, c.payloadAttributeLengthLimit)
  {
    TraceHandleRPC(span, rs, c.payloadAttributeLengthLimit);
  }

  function ClientSpanName(fullMethodName: string): string {
    SpanName(ClientSpanNamePrefix, fullMethodName)
  }

  /** What tagRPC does: the span it starts and the outgoing metadata it leaves. */
  datatype ClientTag = ClientTag(start: SpanStart, outgoing: Metadata)

  /**
   * The unexported tagRPC, to which the exported TagRPC forwards. started is the span context the backend gives the new span; toBinary stands
   * for propagation.Binary. Exactly one value, the encoding of started, is appended under
   * grpc-trace-bin, and every other entry is kept.
   */
  function TagRPC(c: ClientHandler, outgoing: Metadata, fullMethodName: string,
                  started: SpanContext, toBinary: SpanContext -> string): (r: ClientTag)
    ensures r.start == NewSpan(ClientSpanName(fullMethodName), SpanKindClient, c.startOptions.sampler)
    ensures '/' !in r.start.name
    ensures r.outgoing.Keys == outgoing.Keys + {TraceContextKey}
    ensures Get(r.outgoing, TraceContextKey) == Get(outgoing, TraceContextKey) + [toBinary(started)]
    ensures forall k :: k in outgoing && k != TraceContextKey ==> r.outgoing[k] == outgoing[k]
  {
    var name := ClientSpanName(fullMethodName);
    var start := NewSpan(name, SpanKindClient, c.startOptions.sampler);
    ClientTag(start, AppendToOutgoing(outgoing, TraceContextKey, toBinary(started)))
  }
}
