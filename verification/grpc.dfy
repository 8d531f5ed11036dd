/**
 * The parts of gRPC the core consumes: lifecycle events of a call (package stats),
 * call errors as seen by status.FromError, and call metadata.
 */
module Grpc {
  import opened Wrappers

  type uint32 = x: int | 0 <= x < 0x1_0000_0000

  /** codes.Internal */
  const CodeInternal: uint32 := 13

  /**
   * A non-nil call error: either one status.FromError recognises (carrying its code),
   * or any other error with its Error() text.
   */
  datatype CallError =
    | StatusError(code: uint32, message: string)
    | PlainError(text: string)

  /**
   * Lifecycle events of one call. A payload is given already rendered as text
   * (the "%+v" rendering); length and wireLength are the event's declared sizes.
   * The header and trailer events are the kinds the translator ignores.
   */
  datatype RPCStats =
    | Begin(client: bool, failFast: bool)
    | InPayload(payload: string, length: int, wireLength: int)
    | OutPayload(payload: string, length: int, wireLength: int)
    | End(error: Option<CallError>)
    | InHeader
    | InTrailer
    | OutHeader
    | OutTrailer

  /** Call metadata: each key maps to the list of its values. */
  type Metadata = map<string, seq<string>>

  /** md[key] in Go: a missing key reads as an empty list. */
  function Get(md: Metadata, key: string): seq<string> {
    if key in md then md[key] else []
  }

  /** The merged outgoing metadata after metadata.AppendToOutgoingContext(ctx, key, value). */
  function AppendToOutgoing(md: Metadata, key: string, value: string): (r: Metadata)
    ensures r.Keys == md.Keys + {key}
    ensures Get(r, key) == Get(md, key) + [value]
    ensures forall k :: k in md && k != key ==> k in r && r[k] == md[k]
  {
    md[key := Get(md, key) + [value]]
  }
}
