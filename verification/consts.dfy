/** The package constants of pkg/tracing/consts.go, plus math.MaxInt64, which bounds event ids. */
module Consts {
  /** Metadata key under which the binary trace context travels. */
  const TraceContextKey: string := "grpc-trace-bin"
  const ClientSpanNamePrefix: string := "gRPC.client"
  const ServerSpanNamePrefix: string := "gRPC.server"

  const ClientAttributeKey: string := "client"
  const FailFastAttributeKey: string := "fail_fast"
  const PayloadAttributeKey: string := "payload"
  const UncompressedByteSizeAttributeKey: string := "uncompressed_byte_size"
  const CompressedByteSizeAttributeKey: string := "compressed_byte_size"

  const StandardPayloadAttributeSizeLimit: int := 256
  /** The 31-character marker appended by truncation. */
  const PayloadTruncatedMessage: string := "...[payload has been truncated]"

  /** math.MaxInt64 */
  const MaxInt64: int := 0x7FFF_FFFF_FFFF_FFFF
}
