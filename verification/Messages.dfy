/** ActorMessage, and what travels between actors. */
module Messages {
  import opened Bytes
  import opened Wrappers

  datatype MsgType = NoType | NetworkRecv | Connected | Disconnected | UserMessage | ActorDown

  datatype CallError = Ok | Timeout | TargetMissing | NodeUnreachable | Cancelled

  type ActorId = uint32
  type SessionId = uint32
  type Fd = int

  // A default member initialiser of the source is a parameter default here.
  datatype ActorMessage = ActorMessage(
    msgType: MsgType,
    sourceId: ActorId := 0,
    fd: Fd := -1,
    data: bytes := [],
    sessionId: SessionId := 0,
    isResponse: bool := false,
    error: CallError := Ok,
    priority: bool := false,
    sourceNodeId: bytes := [],
    sourceActorName: bytes := [],
    sharedBuf: Option<bytes> := None)
  {
    predicate IsRemote() {
      sourceNodeId != []
    }

    // The content as the receiver sees it: the shared buffer wins over `data`.
    function Payload(): bytes {
      match sharedBuf
      case Some(b) => b
      case None => data
    }

    // Messages built by the constructors and factories: a shared buffer leaves `data` empty.
    predicate WellBuilt() {
      sharedBuf.Some? ==> data == []
    }
  }
}
