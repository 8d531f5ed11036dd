# gRPC OpenCensus tracing: a Dafny model of the span translator and its two handlers

This project models the core of the `tracing` package, which turns each gRPC call into an OpenCensus span:

- The **event translator** (`traceHandleRPC`) applies each lifecycle event of a call to the span bound to that call:
  - `Begin` records the `client` and `fail_fast` flags.
  - `InPayload` and `OutPayload` record the rendered payload (possibly truncated), its two declared sizes and one message event.
  - `End` maps the call error to a span status and ends the span.
  - Header and trailer events change nothing.
- The **server handler** names the span of an inbound call. It decodes the caller's span context from the first `grpc-trace-bin` metadata value and starts a remote-child span when that works. Otherwise it starts a new span.
- The **client handler** names and starts the span of an outbound call. It appends the encoded span context to the outgoing metadata under `grpc-trace-bin`.

Modules, one per concern:
- `Consts`: the package constants.
- `Grpc`: lifecycle events, call errors and metadata.
- `Trace`: the backend's value types, and `SpanStart`, which records which backend call started a span.
- `Strings`: `TrimPrefix` and `Replace` from Go's `strings` package.
- `Naming`: span names.
- `Common`: the translator and the `Span` class.
- `Server` and `Client`: the two handlers.
- `Propagation`: lemmas that relate the two handlers.

The span is a class modelled on the package's test double. It has four fields: an attribute map, a sequence of message events, a status and an ended flag. Its methods update these fields in place. `TraceHandleRPC` performs the same backend calls as the source, in the same order. It is proved against the pure function `Translate`, and the properties of one event are lemmas about `Translate`.

The event id comes from `rand.Int63n(math.MaxInt64)`. Here it is a nondeterministic choice in `[0, MaxInt64)`. So `TraceHandleRPC` promises `Translated`: the new state is `Translate` of the old state for some valid id.

Behaviour worth knowing:
- **`truncate` does not cap the value at `limit`.**
  - A payload of at most 31 characters (the marker's length) is cut to its first `limit` characters.
  - A longer payload keeps its full length: its last 31 characters are replaced by the marker, and the limit plays no part.
  - The package's test vectors (limit 5, lengths 0 to 33) agree. `TruncationCanExceedLimit` shows a 32-character payload recorded at full length under limit 5.
- **The marker** `...[payload has been truncated]` is 31 characters long.
- **A recognised status error** of code K records the status `{K, "OK"}`; the error's own message is not recorded.
- **Span names can collide:** `/a/b` and `a.b` give the same name (`NamesCanCollide`).
- **The server's link branch is dead:** the link it would add after a failed decode is never added. `TraceTagRPC` models that branch as written and proves it adds no link.

## Model

| member | source | states |
|---|---|---|
| Strings.TrimPrefix | pkg/tracing/server.go:62 | One leading occurrence of the prefix is removed when present (`s == prefix + r`); otherwise the string is unchanged |
| Strings.ReplaceAll | pkg/tracing/server.go:63 | Same length; every occurrence of `from` becomes `to` and every other character is kept |
| Naming.DottedMethod | pkg/tracing/server.go:62-63 | The dotted method contains no `/`; it is one character shorter exactly when the method starts with `/`; each character is the corresponding method character with `/` mapped to `.` |
| Naming.SpanName | pkg/tracing/server.go:62-64 | The name is the prefix, then `.`, then the dotted method; it contains no `/` when the prefix has none |
| Naming.NamesCanCollide | pkg/tracing/client.go:57-59 | `/a/b` and `a.b` give the same span name, so names are not collision-free |
| Common.Truncate | pkg/tracing/common.go:86-92 | Never longer than the input. At most 31 characters: the length-`limit` prefix. Longer: the same length, with the leading part a prefix of the input and the marker as the suffix. Callable only with `0 <= limit <= len` in the short case, where Go's slice would otherwise panic |
| Common.PayloadAttribute | pkg/tracing/common.go:36-39 | Verbatim when `limit <= 0` or the payload fits. When `0 < limit < len <= 31`: a prefix of length `limit`. When `len > 31`: the payload's first `len - 31` characters followed by the marker, so the same length. Never longer than the payload |
| Common.LongPayloadIgnoresLimit | pkg/tracing/common.go:87-91 | For a payload longer than the marker, every limit that triggers truncation yields the same value, of the payload's full length |
| Common.TruncationCanExceedLimit | pkg/tracing/common.go:91 | With limit 5, the recorded value of a 32-character payload has length 32 |
| Common.GenerateEventId | pkg/tracing/common.go:78-80 | The event id lies in `[0, MaxInt64)` |
| Common.Int32 | pkg/tracing/common.go:69 | `int32(code)`: the result is in the int32 range and congruent to the code modulo 2^32 |
| Common.WithAttributesKeys | pkg/tracing/common_test.go:246-250 | After recording attributes, the keys are the old keys plus the recorded ones |
| Common.WithAttributesLast | pkg/tracing/common_test.go:246-250 | An attribute not overwritten by a later one is the value stored under its key |
| Common.WithAttributesElsewhere | pkg/tracing/common_test.go:246-250 | A key no attribute names keeps its presence and value |
| Common.Span.constructor | pkg/tracing/common_test.go:220-225 | A fresh span has no attributes, no messages, the zero status and is not ended |
| Common.Span.End | pkg/tracing/common_test.go:231-233 | Sets the ended flag; nothing else changes |
| Common.Span.SetStatus | pkg/tracing/common_test.go:242-244 | Replaces the status; nothing else changes |
| Common.Span.AddAttributes | pkg/tracing/common_test.go:246-250 | The loop writes the attributes into the map in order, as `WithAttributes` of the old map; messages, status and flag are unchanged |
| Common.Span.AddMessageSendEvent | pkg/tracing/common_test.go:260-266 | Appends exactly one "sent" message with the given id and sizes; nothing else changes |
| Common.Span.AddMessageReceiveEvent | pkg/tracing/common_test.go:268-274 | Appends exactly one "received" message with the given id and sizes; nothing else changes |
| Common.ErrorStatus | pkg/tracing/common.go:66-73 | A recognised status error gives message "OK" and its code as an int32 (the code itself below 2^31); any other error gives `{13, error text}` |
| Common.Translate | pkg/tracing/common.go:28-76 | The reference state after one event: the span is ended exactly when it was or the event is `End`; only `End` changes the status, and `End` leaves the attributes alone; earlier messages are kept, and payload events add exactly one message with the drawn id, the declared sizes and the event's direction |
| Common.TraceHandleRPC | pkg/tracing/common.go:28-76 | The new span state is `Translate(old state, event, limit, id)` for an id in `[0, MaxInt64)` |
| Common.BeginRecordsFlags | pkg/tracing/common.go:30-34 | `Begin` sets `client` and `fail_fast` to the event's flags, adds only those keys and leaves other attributes, messages, status and the ended flag alone |
| Common.PayloadRecordsSizesAndMessage | pkg/tracing/common.go:35-64 | Payload events record `payload` (the possibly truncated value) and the two declared sizes whatever truncation did. They add only these three keys. They append exactly one message: "received" for inbound, "sent" for outbound, carrying the same sizes. Status and the ended flag are unchanged |
| Common.PayloadVerbatimWithinLimit | pkg/tracing/common.go:37-45 | With `limit <= 0` or a payload within the limit, the `payload` attribute is the rendered payload verbatim |
| Common.TranslatedEventIdInRange | pkg/tracing/common.go:49-64 | A payload event appends one message, whose event id is in `[0, MaxInt64)`, and keeps the earlier messages |
| Common.EndSetsStatusAndEnds | pkg/tracing/common.go:65-74 | `End` always ends the span. A status error of code K (< 2^31) gives `{K, "OK"}`; any other error gives `{13, error text}`; no error leaves the status unchanged. Attributes and messages are unchanged |
| Common.OtherEventsLeaveSpanUnchanged | pkg/tracing/common.go:29-75 | Header and trailer events leave the span state unchanged |
| Common.TruncationVectorsWithinLimit | pkg/tracing/common_test.go:132-139 | With limit 5, payloads of length 0 and 1 are recorded as "" and "0" |
| Common.TruncationVectorsShort | pkg/tracing/common_test.go:140-159 | With limit 5, every payload of length 12 to 31 is recorded as "01234" |
| Common.TruncationVector32 | pkg/tracing/common_test.go:160-163 | With limit 5, the 32-character payload is recorded as "0...[payload has been truncated]" |
| Common.TruncationVector33 | pkg/tracing/common_test.go:164-167 | With limit 5, the 33-character payload is recorded as "01...[payload has been truncated]" |
| Server.NewStandardServerHandler | pkg/tracing/server.go:28-33 | Payload limit 256, no sampler and unspecified span kind (zero start options) |
| Server.TagConn | pkg/tracing/server.go:46-49 | The context is returned unchanged |
| Server.HandleRPC | pkg/tracing/server.go:51-53 | The translator applied with the handler's own payload limit |
| Server.TraceTagRPC | pkg/tracing/server.go:60-91 | Server kind, the handler's sampler and the name `gRPC.server.<dotted method>` (no `/`). A remote-child span is started exactly when a first `grpc-trace-bin` value exists and decodes, with the decoded parent. Otherwise a new span is started. No link is ever added |
| Server.StartWithoutParent | pkg/tracing/server.go:84-89 | A new server span with the handler's sampler; a link to the parent exactly when `haveParent` holds (which `TraceTagRPC` never passes) |
| Server.DecodeFailureIsAbsentEntry | pkg/tracing/server.go:70-86 | A first value that does not decode gives the same outcome as removing the entry: a new server span with no link |
| Server.OnlyFirstValueDecoded | pkg/tracing/server.go:65-75 | The outcome depends only on the first `grpc-trace-bin` value; later values and other keys are ignored |
| Client.NewStandardClientHandler | pkg/tracing/client.go:27-32 | Payload limit 256, no sampler and unspecified span kind (empty start options) |
| Client.TagConn | pkg/tracing/client.go:43-46 | The context is returned unchanged |
| Client.HandleRPC | pkg/tracing/client.go:48-50 | The translator applied with `PayloadAttributeLengthLimit` |
| Grpc.AppendToOutgoing | pkg/tracing/client.go:64 | The merged outgoing metadata after `metadata.AppendToOutgoingContext`: the key set gains the key, the value is appended to that key's existing list, and every other entry is kept |
| Client.TagRPC | pkg/tracing/client.go:56-65 | The span is started with client kind, the handler's sampler and the name `gRPC.client.<dotted method>` (no `/`). Exactly one value is appended under `grpc-trace-bin`: the encoding of the new span's context. The key set grows by that key only, and every other entry is preserved |
| Propagation.NamesDifferOnlyInPrefix | pkg/tracing/client.go:57-59 | For one method, client and server span names have the same length and agree after their prefixes |
| Propagation.ContextPropagates | pkg/tracing/client.go:63-64 | Three conditions: the client's metadata arrives unchanged, it held no earlier `grpc-trace-bin` value, and decoding inverts encoding on the new context. Then the server starts a remote child of the client's span, with no link |
| Propagation.EarlierValueShadowsAppended | pkg/tracing/server.go:74-75 | If the outgoing metadata already held a `grpc-trace-bin` value, the server's outcome is the same as without the client's appended value |

## Left out

- The tracing backend: starting spans, samplers, ID generation and export. The model records only which start call is made (`SpanStart`). The new span's context and the sampler are parameters.
- The binary trace-context format (`propagation.Binary` and `propagation.FromBinary`). These become the function parameters `toBinary` and `fromBinary`. No round trip is claimed except as a hypothesis of `ContextPropagates`.
- Payload rendering with `fmt.Sprintf("%+v")` (`interfaceToString`). Payloads arrive already rendered. Strings count characters, which matches Go's byte length for ASCII text only.
- `status.FromError`. Call errors are the datatype `CallError`: a recognised status error with its code, or any other error with its text.
- The global `math/rand` source. The event id is a nondeterministic value in range.
- Context plumbing: `trace.FromContext`, `metadata.FromIncomingContext` and the contexts returned by `TagRPC`. `HandleRPC` receives the call's span directly. Metadata is a map from keys to value lists.
- The exported `TagRPC` methods of both handlers: each only forwards to an unexported function, modelled as `Server.TraceTagRPC` (`traceTagRPC`) and `Client.TagRPC` (`tagRPC`).
- `HandleConn` on both handlers: a no-op with nothing to state.
- Grpc.AppendToOutgoing: states the merged view that reading the outgoing metadata back gives, assumed of `metadata.AppendToOutgoingContext`, whose code is not part of this model. The pairs it keeps separately from the context's existing metadata are not modelled.
- Concurrency: handlers shared between goroutines are not modelled.
- Integer widths. The Go `int` to `int64` size conversion is the identity on 64-bit platforms and is modelled as such. Only `int32(code)` is written out.
- The unused constants `begin_at_utc`, `received_at_utc` and `sent_time_utc`.
- Message events: unlike the package's span double, the model's `Span` also records each event id, so its range can be stated about the state.
