/**
 * Control protocol v1: the messages. The supervisor and the client each declare their own copy of these types; the
 * copies have the same constructors, so the model has one, and `Unknown` is the client's alone.
 */
module Messages {
  import opened Text

  type U16 = n: int | 0 <= n < 0x1_0000
  type U32 = n: int | 0 <= n < 0x1_0000_0000
  type I32 = n: int | -0x8000_0000 <= n < 0x8000_0000

  const PROTO_VERSION: U32 := 1

  datatype CoreState = Stopped | Running

  datatype Cmd = Hello(proto: U32, takeover: bool) | Start | Status | Stop

  datatype Event =
    | Hello(proto: U32, version: string, core: CoreState, rpcPort: Option<U16>)
    | CoreStarted(pid: I32, startedPort: U16)
    | Status(core: CoreState, corePid: Option<I32>, rpcPort: Option<U16>)
    | CoreStopped(reason: string)
    | CoreExited(exitCode: Option<I32>, signal: Option<I32>)
    | Error(code: string, msg: string)
    | Busy(owner: bool)
    | Kicked
    | Unknown
}
