/** How the two handlers fit together across a call. */
module Propagation {
  import opened Wrappers
  import opened Consts
  import opened Grpc
  import opened Trace
  import opened Naming
  import opened Server
  import opened Client

  /** For one method the two span names differ only in their prefixes. */
  lemma NamesDifferOnlyInPrefix(fullMethodName: string)
    ensures ClientSpanName(fullMethodName) == ClientSpanNamePrefix + "." + DottedMethod(fullMethodName)
    ensures ServerSpanName(fullMethodName) == ServerSpanNamePrefix + "." + DottedMethod(fullMethodName)
    ensures |ClientSpanName(fullMethodName)| == |ServerSpanName(fullMethodName)|
    ensures ClientSpanName(fullMethodName)[|ClientSpanNamePrefix|..] == ServerSpanName(fullMethodName)[|ServerSpanNamePrefix|..]
  {
    var d := DottedMethod(fullMethodName);
    var tail := "." + d;
    assert |ClientSpanNamePrefix| == 11 && |ServerSpanNamePrefix| == 11;
    assert ClientSpanName(fullMethodName) == ClientSpanNamePrefix + tail;
    assert ServerSpanName(fullMethodName) == ServerSpanNamePrefix + tail;
    assert (ClientSpanNamePrefix + tail)[11..] == tail;
    assert (ServerSpanNamePrefix + tail)[11..] == tail;
  }

  /**
   * If the metadata the client sends arrives unchanged, held no earlier grpc-trace-bin
   * value, and the codec decodes what it encodes, the server's span is a remote child
   * of the client's span.
   */
  lemma ContextPropagates(c: ClientHandler, h: ServerHandler, outgoing: Metadata, fullMethodName: string,
                          started: SpanContext, toBinary: SpanContext -> string,
                          fromBinary: string -> Option<SpanContext>)
    requires TraceContextKey !in outgoing
    requires fromBinary(toBinary(started)) == Some(started)
    ensures var sent := TagRPC(c, outgoing, fullMethodName, started, toBinary).outgoing;
      TraceTagRPC(h, sent, fullMethodName, fromBinary)
        == ServerTag(RemoteChildSpan(ServerSpanName(fullMethodName), started, SpanKindServer, h.startOptions.sampler), None)
  {
    var sent := TagRPC(c, outgoing, fullMethodName, started, toBinary).outgoing;
    assert Get(sent, TraceContextKey) == [toBinary(started)];
  }

  /**
   * If the outgoing metadata already held a grpc-trace-bin value, the server decodes that
   * earlier value, and the one the client appends changes nothing on the receiving side.
   */
  lemma EarlierValueShadowsAppended(c: ClientHandler, h: ServerHandler, outgoing: Metadata, fullMethodName: string,
                                    started: SpanContext, toBinary: SpanContext -> string,
                                    fromBinary: string -> Option<SpanContext>)
    requires |Get(outgoing, TraceContextKey)| > 0
    ensures TraceTagRPC(h, TagRPC(c, outgoing, fullMethodName, started, toBinary).outgoing, fullMethodName, fromBinary)
         == TraceTagRPC(h, outgoing, fullMethodName, fromBinary)
  {
    var sent := TagRPC(c, outgoing, fullMethodName, started, toBinary).outgoing;
    assert Get(sent, TraceContextKey)[0] == Get(outgoing, TraceContextKey)[0];
  }
}
