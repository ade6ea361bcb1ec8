/** The per-connection message-order machine of `src/protocol/dispatcher.rs`. */
module Dispatching {
  import opened Wrappers

  datatype MessageKind = Hello | Auth | Attach | Resume | Resize | Detach | Close | Ping | Pong | Error

  datatype ConnectionState = AwaitHello | AwaitAuth | AwaitAttachOrResume | Attached | Closed

  datatype DispatchError = ProtocolOrder

  datatype DispatchOutcome = Continue | CloseConnection

  type DispatchResult = Result<DispatchOutcome, DispatchError>

  /** One message: the next state and the answer. A refused message leaves the state alone. */
  function Dispatch(s: ConnectionState, kind: MessageKind): (ConnectionState, DispatchResult) {
    match (s, kind)
    case (AwaitHello, Hello) => (AwaitAuth, Success(Continue))
    case (AwaitHello, Ping) => (s, Success(Continue))
    case (AwaitAuth, Auth) => (AwaitAttachOrResume, Success(Continue))
    case (AwaitAuth, Ping) => (s, Success(Continue))
    case (AwaitAttachOrResume, Attach) => (Attached, Success(Continue))
    case (AwaitAttachOrResume, Resume) => (Attached, Success(Continue))
    case (AwaitAttachOrResume, Close) => (Closed, Success(CloseConnection))
    case (AwaitAttachOrResume, Ping) => (s, Success(Continue))
    case (Attached, Resize) => (s, Success(Continue))
    case (Attached, Detach) => (s, Success(Continue))
    case (Attached, Ping) => (s, Success(Continue))
    case (Attached, Close) => (Closed, Success(CloseConnection))
    case _ => (s, Failure(ProtocolOrder))
  }

  class Dispatcher {
    var state: ConnectionState

    constructor ()
      ensures state == AwaitHello
    {
      state := AwaitHello;
    }

    method OnMessage(kind: MessageKind) returns (r: DispatchResult)
      modifies this
      ensures (state, r) == Dispatch(old(state), kind)
    {
      match state {
        case AwaitHello =>
          if kind == Hello {
            state := AwaitAuth;
            return Success(Continue);
          } else if kind == Ping {
            return Success(Continue);
          }
        case AwaitAuth =>
          if kind == Auth {
            state := AwaitAttachOrResume;
            return Success(Continue);
          } else if kind == Ping {
            return Success(Continue);
          }
        case AwaitAttachOrResume =>
          if kind == Attach || kind == Resume {
            state := Attached;
            return Success(Continue);
          } else if kind == Close {
            state := Closed;
            return Success(CloseConnection);
          } else if kind == Ping {
            return Success(Continue);
          }
        case Attached =>
          if kind == Resize || kind == Detach || kind == Ping {
            return Success(Continue);
          } else if kind == Close {
            state := Closed;
            return Success(CloseConnection);
          }
        case Closed =>
      }
      r := Failure(ProtocolOrder);
    }
  }
}
