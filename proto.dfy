/**
 * The message records both sides exchange over RPC
 * (pkg/go-panchaea/common/proto/proto.go).
 */
module Proto {
  import opened Wire

  /** The server's answer; `error` is the empty string when nothing went wrong. */
  datatype Reply = Reply(data: string, error: string, id: int, bytecode: Bytes)

  /** A client's request: its ID, the thread it speaks for, and a result or an error. */
  datatype Receive = Receive(data: string, status: string, error: string, id: int, thread: int, bytecode: Bytes)
}
