/**
 * The receiving side (pkg/tracing/server.go): a handler holding immutable configuration,
 * which names the span of an inbound call, recovers the caller's span context from the
 * incoming metadata when it can, and forwards lifecycle events to the translator.
 */
module Server {
  import opened Wrappers
  import opened Consts
  import opened Grpc
  import opened Trace
  import opened Naming
  import opened Common

  datatype ServerHandler = ServerHandler(startOptions: StartOptions, payloadAttributeLengthLimit: int)

  /** NewStandardServerHandler: zero start options and the standard 256-byte payload limit. */
  function NewStandardServerHandler(): (h: ServerHandler)
    ensures h.payloadAttributeLengthLimit == 256
    ensures h.startOptions.sampler.None? && h.startOptions.spanKind == SpanKindUnspecified
  {
    ServerHandler(ZeroStartOptions, StandardPayloadAttributeSizeLimit)
  }

  /** TagConn returns the context it is given. */
  function TagConn<Ctx>(h: ServerHandler, ctx: Ctx): (r: Ctx)
    ensures r == ctx
  {
    ctx
  }

  /** HandleRPC: the translator, with this handler's payload limit. */
  method HandleRPC(h: ServerHandler, span: Span, rs: RPCStats)
    modifies span
    ensures Translated(old(span.State()), span.State(), rs, h.payloadAttributeLengthLimit)
  {
    TraceHandleRPC(span, rs, h.payloadAttributeLengthLimit);
  }

  function ServerSpanName(fullMethodName: string): string {
    SpanName(ServerSpanNamePrefix, fullMethodName)
  }

  /** What traceTagRPC does: the span it starts, and the link it adds to that span, if any. */
  datatype ServerTag = ServerTag(start: SpanStart, link: Option<SpanContext>)

  /**
   * traceTagRPC. fromBinary stands for propagation.FromBinary, with None for a value it
   * cannot decode. Only the first value under grpc-trace-bin is decoded; when it decodes,
   * the span is a child of that remote parent; otherwise a new span is started, and the
   * link that would then be added is never added.
   */
  function TraceTagRPC(h: ServerHandler, incoming: Metadata, fullMethodName: string,
                       fromBinary: string -> Option<SpanContext>): (r: ServerTag)
    ensures r.start.name == ServerSpanName(fullMethodName) && '/' !in r.start.name
    ensures r.start.kind == SpanKindServer && r.start.sampler == h.startOptions.sampler
    ensures r.start.RemoteChildSpan? <==>
      |Get(incoming, TraceContextKey)| > 0 && fromBinary(Get(incoming, TraceContextKey)[0]).Some?
    ensures r.start.RemoteChildSpan? ==> Some(r.start.parent) == fromBinary(Get(incoming, TraceContextKey)[0])
    ensures r.link == None
  {
    var name := ServerSpanName(fullMethodName);
    var traceContext := Get(incoming, TraceContextKey);
    if |traceContext| > 0 then
      var decoded := fromBinary(traceContext[0]);
      var parent := if decoded.Some? then decoded.value else ZeroSpanContext;
      var haveParent := decoded.Some?;
      if haveParent then
        ServerTag(RemoteChildSpan(name, parent, SpanKindServer, h.startOptions.sampler), None)
      else
        StartWithoutParent(h, name, parent, haveParent)
    else
      StartWithoutParent(h, name, ZeroSpanContext, false)
  }

  /** The tail of traceTagRPC: a new span, linked to parent when haveParent holds. */
  function StartWithoutParent(h: ServerHandler, name: string, parent: SpanContext, haveParent: bool): (r: ServerTag)
    ensures r.start == NewSpan(name, SpanKindServer, h.startOptions.sampler)
    ensures r.link.Some? <==> haveParent
    ensures haveParent ==> r.link == Some(parent)
  {
    ServerTag(NewSpan(name, SpanKindServer, h.startOptions.sampler), if haveParent then Some(parent) else None)
  }

  /** A value under grpc-trace-bin that does not decode is treated as if the entry were absent. */
  lemma DecodeFailureIsAbsentEntry(h: ServerHandler, incoming: Metadata, fullMethodName: string,
                                   fromBinary: string -> Option<SpanContext>)
    requires |Get(incoming, TraceContextKey)| > 0
    requires fromBinary(Get(incoming, TraceContextKey)[0]).None?
    ensures TraceTagRPC(h, incoming, fullMethodName, fromBinary)
         == TraceTagRPC(h, incoming - {TraceContextKey}, fullMethodName, fromBinary)
    ensures TraceTagRPC(h, incoming, fullMethodName, fromBinary)
         == ServerTag(NewSpan(ServerSpanName(fullMethodName), SpanKindServer, h.startOptions.sampler), None)
  {
    assert Get(incoming - {TraceContextKey}, TraceContextKey) == [];
  }

  /** Only the first value under grpc-trace-bin matters; other values and other keys are ignored. */
  lemma OnlyFirstValueDecoded(h: ServerHandler, incoming: Metadata, fullMethodName: string,
                              fromBinary: string -> Option<SpanContext>)
    requires |Get(incoming, TraceContextKey)| > 0
    ensures TraceTagRPC(h, incoming, fullMethodName, fromBinary)
         == TraceTagRPC(h, map[TraceContextKey := [Get(incoming, TraceContextKey)[0]]], fullMethodName, fromBinary)
  {
    var single: Metadata := map[TraceContextKey := [Get(incoming, TraceContextKey)[0]]];
    assert Get(single, TraceContextKey)[0] == Get(incoming, TraceContextKey)[0];
  }
}
