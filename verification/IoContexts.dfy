/** The tags and the six derived classes of an overlapped I/O context. */
module IoContexts {

  datatype Option<+T> = None | Some(value: T)

  datatype IoType =
    | IoNone
    | IoSend
    | IoRecv
    | IoRecvZero
    | IoAccept
    | IoDisconnect
    | IoConnect

  /** The class a context was built as; each has its own object pool. */
  datatype ContextClass =
    | SendContext
    | RecvContext
    | PreRecvContext
    | DisconnectContext
    | AcceptContext
    | ConnectContext

  /** The tag each derived constructor passes to the base constructor. */
  function ConstructorTag(cls: ContextClass): IoType {
    match cls
    case SendContext => IoSend
    case RecvContext => IoRecv
    case PreRecvContext => IoRecvZero
    case DisconnectContext => IoDisconnect
    case AcceptContext => IoAccept
    case ConnectContext => IoConnect
  }

  /** The class whose `delete` the tag switch of DeleteIoContext selects; None is its crashing default. */
  function DeletedAs(tag: IoType): Option<ContextClass> {
    match tag
    case IoSend => Some(SendContext)
    case IoRecvZero => Some(PreRecvContext)
    case IoRecv => Some(RecvContext)
    case IoDisconnect => Some(DisconnectContext)
    case IoAccept => Some(AcceptContext)
    case IoConnect => Some(ConnectContext)
    case IoNone => None
  }

  /** The tags whose failed completion makes DoIocpJob disconnect the session. */
  predicate IsTransfer(tag: IoType) {
    tag == IoRecv || tag == IoSend
  }

  /** Those are the tags of sends and receives, and of no other class; and every class is deleted as itself. */
  lemma TransfersExactly(k: ContextClass)
    ensures IsTransfer(ConstructorTag(k)) <==> k == SendContext || k == RecvContext
    ensures DeletedAs(ConstructorTag(k)) == Some(k)
  {
  }

  /** A completion counts as failed when the call failed or when no byte moved. */
  predicate CompletionFailed(ret: bool, transferred: nat) {
    !ret || transferred == 0
  }
}
