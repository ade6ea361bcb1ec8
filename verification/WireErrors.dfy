/** The errors of `src/bin/neoshd.rs` and the codes they travel as. */
module WireErrors {
  import Sessions
  import Tokens

  datatype ServerError =
    | AuthFailed | SessionNotFound | SessionExpired | AttachDenied | Protocol | Internal | Io | Quinn | Config

  /** The `code` field of an ERROR message. */
  datatype Code =
    | AUTH_FAILED | SESSION_NOT_FOUND | SESSION_EXPIRED | ATTACH_DENIED | PROTOCOL_ERROR | INTERNAL_ERROR

  datatype ErrorFrame = ErrorFrame(code: Code, retryable: bool)

  function MapTokenAuthError(err: Tokens.TokenError): ServerError {
    match err
    case BindingMismatch => AuthFailed
    case Consumed => AuthFailed
    case Expired => AuthFailed
    case NotFound => AuthFailed
    case Revoked => AuthFailed
    case TypeMismatch => AuthFailed
  }

  function MapTokenResumeError(err: Tokens.TokenError): ServerError {
    match err
    case Expired => SessionExpired
    case Revoked => SessionExpired
    case BindingMismatch => AuthFailed
    case Consumed => AuthFailed
    case NotFound => AuthFailed
    case TypeMismatch => AuthFailed
  }

  function MapSessionError(err: Sessions.SessionError): ServerError {
    match err
    case NotFound => SessionNotFound
    case AttachDenied => AttachDenied
    case InvalidState => SessionExpired
    case PermissionDenied => AuthFailed
  }

  function ErrorFrameFor(err: ServerError): ErrorFrame {
    match err
    case AuthFailed => ErrorFrame(AUTH_FAILED, false)
    case SessionNotFound => ErrorFrame(SESSION_NOT_FOUND, false)
    case SessionExpired => ErrorFrame(SESSION_EXPIRED, false)
    case AttachDenied => ErrorFrame(ATTACH_DENIED, false)
    case Protocol => ErrorFrame(PROTOCOL_ERROR, false)
    case Internal => ErrorFrame(INTERNAL_ERROR, true)
    case Io => ErrorFrame(INTERNAL_ERROR, true)
    case Quinn => ErrorFrame(INTERNAL_ERROR, true)
    case Config => ErrorFrame(INTERNAL_ERROR, true)
  }
}
