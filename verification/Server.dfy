/**
 The shared state of `src/bin/neoshd.rs` behind its lock: one session, the token store, the
 detach clock, the PTY flags and the replay buffer.

 `Server` is the state as a value; the functions on it are the critical sections that do not
 belong to one message. `ServerState` performs them in place.
 */
module ServerCore {
  import opened Wrappers
  import Sessions
  import Tokens
  import ReplayBuffer

  datatype Config = Config(
    sessionId: Uuid,
    ownerUser: string,
    ownerUid: nat,
    quicAddr: string,
    certFingerprint: string,
    createdAt: Time,
    initialAttachTimeout: Time,
    sessionTimeout: Time,
    authTokenTtl: Time,
    resumeTokenTtl: Time,
    replayCap: nat)

  datatype Server = Server(
    cfg: Config,
    sessions: Sessions.Table,
    records: seq<Tokens.Record>,
    detachedAt: Option<Time>,
    ptyStarted: bool,
    ptyExited: bool,
    replay: Bytes)
  {
    predicate HasSession() {
      cfg.sessionId in sessions
    }

    function Session(): Sessions.Session
      requires HasSession()
    {
      sessions[cfg.sessionId]
    }
  }

  datatype CleanupReason = ConnectionEnd | ExplicitDetach

  datatype StopReason =
    | InitialAttachTimeout | DetachedSessionTimeout | SessionExpired | SessionTerminated | EndpointClosed

  function NewServer(cfg: Config): Server {
    Server(cfg,
           map[cfg.sessionId := Sessions.NewSession(cfg.sessionId, cfg.ownerUser, cfg.quicAddr, cfg.certFingerprint)],
           [], None, false, false, [])
  }

  function AfterDetachedCheck(st: Server, now: Time): (Server, bool) {
    if st.cfg.sessionTimeout == 0 then (st, false)
    else if st.detachedAt.None? || now < st.detachedAt.value then (st, false)
    else if now - st.detachedAt.value < st.cfg.sessionTimeout then (st, false)
    else
      var st' := st.(sessions := Sessions.AfterExpire(st.sessions, st.cfg.sessionId).0);
      (st', st'.HasSession() && st'.Session().state.Expired?)
  }

  function AfterInitialCheck(st: Server, now: Time): (Server, bool) {
    if st.cfg.initialAttachTimeout == 0 || !st.HasSession() || !st.Session().state.Created? then (st, false)
    else if now < st.cfg.createdAt || now - st.cfg.createdAt < st.cfg.initialAttachTimeout then (st, false)
    else (st.(sessions := Sessions.AfterExpire(st.sessions, st.cfg.sessionId).0), true)
  }

  function ServerStopReason(st: Server): Option<StopReason> {
    if !st.HasSession() then None
    else match st.Session().state
         case Terminated => Some(SessionTerminated)
         case Expired => Some(SessionExpired)
         case _ => None
  }

  /** The critical section at the head of the accept loop; Some when the loop returns. */
  function AfterAcceptChecks(st: Server, now: Time): (Server, Option<StopReason>) {
    var (st1, initial) := AfterInitialCheck(st, now);
    if initial then (st1, Some(InitialAttachTimeout))
    else
      var (st2, detached) := AfterDetachedCheck(st1, now);
      if detached then (st2, Some(DetachedSessionTimeout)) else (st2, ServerStopReason(st2))
  }

  /** `finalize_connection_cleanup`. */
  function AfterFinalize(st: Server, conn: Uuid, epoch: nat, reason: CleanupReason, now: Time): Server {
    if reason.ConnectionEnd? && st.ptyExited then
      st.(sessions := Sessions.AfterTerminate(st.sessions, st.cfg.sessionId).0, detachedAt := None)
    else
      var (m, released) := Sessions.AfterCleanup(st.sessions, st.cfg.sessionId, conn, epoch);
      st.(sessions := m, detachedAt := if released then Some(now) else st.detachedAt)
  }

  /** `ensure_pty_runtime`, whose start may fail. */
  function AfterEnsurePty(st: Server, starts: bool): (Server, bool) {
    if st.ptyStarted then (st, true)
    else if starts then (st.(ptyStarted := true, ptyExited := false), true)
    else (st, false)
  }

  function Issued(h: string -> Tokens.Digest, st: Server, kind: Tokens.TokenKind, raw: string, now: Time): Server {
    var ttl := if kind.AuthToken? then st.cfg.authTokenTtl else st.cfg.resumeTokenTtl;
    st.(records := st.records + [Tokens.Fresh(h(raw), kind, st.cfg.sessionId, st.cfg.ownerUser, ttl, now)])
  }

  datatype RenewRequest = RenewRequest(peerUid: nat, sessionId: Uuid, user: string)

  /** Who may have a new auth token over the local socket. */
  predicate RenewAllowed(cfg: Config, req: RenewRequest) {
    req.peerUid == cfg.ownerUid && req.sessionId == cfg.sessionId && req.user == cfg.ownerUser
  }

  class ServerState {
    const cfg: Config
    const sessions: Sessions.SessionManager
    const tokens: Tokens.TokenService
    var detachedAt: Option<Time>
    var ptyStarted: bool
    var ptyExited: bool
    var replay: Bytes

    function Image(): Server
      reads this, sessions, tokens
    {
      Server(cfg, sessions.sessions, tokens.records, detachedAt, ptyStarted, ptyExited, replay)
    }

    constructor (cfg: Config, hash: string -> Tokens.Digest)
      ensures fresh(sessions) && fresh(tokens) && this.cfg == cfg && tokens.hash == hash
      ensures Image() == NewServer(cfg)
    {
      var manager := new Sessions.SessionManager();
      manager.CreateSessionWithId(cfg.sessionId, cfg.ownerUser, cfg.quicAddr, cfg.certFingerprint);
      var service := new Tokens.TokenService(hash);
      this.cfg := cfg;
      sessions := manager;
      tokens := service;
      detachedAt := None;
      ptyStarted := false;
      ptyExited := false;
      replay := [];
    }

    method AppendReplay(chunk: Bytes)
      modifies this`replay
      ensures replay == ReplayBuffer.Append(old(replay), chunk, cfg.replayCap)
    {
      replay := replay + chunk;
      if |replay| > cfg.replayCap {
        var overflow := |replay| - cfg.replayCap;
        replay := replay[overflow..];
      }
    }

    method ExpireIfDetachedTimeout(now: Time) returns (expired: bool)
      modifies sessions
      ensures (Image(), expired) == AfterDetachedCheck(old(Image()), now)
    {
      if cfg.sessionTimeout == 0 {
        return false;
      }
      if detachedAt.Some? && detachedAt.value <= now {
        var elapsed := now - detachedAt.value;
        if elapsed >= cfg.sessionTimeout {
          var _ := sessions.Expire(cfg.sessionId);
          var s := sessions.Lookup(cfg.sessionId);
          if s.Some? && s.value.state.Expired? {
            return true;
          }
        }
      }
      expired := false;
    }

    method ExpireIfInitialAttachTimeout(now: Time) returns (expired: bool)
      modifies sessions
      ensures (Image(), expired) == AfterInitialCheck(old(Image()), now)
    {
      if cfg.initialAttachTimeout == 0 {
        return false;
      }
      var session := sessions.Lookup(cfg.sessionId);
      if session.None? || session.value.state != Sessions.Created {
        return false;
      }
      if cfg.createdAt <= now && now - cfg.createdAt >= cfg.initialAttachTimeout {
        var _ := sessions.Expire(cfg.sessionId);
        return true;
      }
      expired := false;
    }

    /** One pass of the accept loop's checks. */
    method AcceptChecks(now: Time) returns (stop: Option<StopReason>)
      modifies sessions
      ensures (Image(), stop) == AfterAcceptChecks(old(Image()), now)
    {
      var initial := ExpireIfInitialAttachTimeout(now);
      if initial {
        return Some(InitialAttachTimeout);
      }
      var detached := ExpireIfDetachedTimeout(now);
      if detached {
        return Some(DetachedSessionTimeout);
      }
      var session := sessions.Lookup(cfg.sessionId);
      if session.Some? && session.value.state.Terminated? {
        stop := Some(SessionTerminated);
      } else if session.Some? && session.value.state.Expired? {
        stop := Some(SessionExpired);
      } else {
        stop := None;
      }
    }

    method EnsurePtyRuntime(starts: bool) returns (ok: bool)
      modifies this`ptyStarted, this`ptyExited
      ensures (Image(), ok) == AfterEnsurePty(old(Image()), starts)
    {
      if ptyStarted {
        return true;
      }
      if !starts {
        return false;
      }
      ptyStarted := true;
      ptyExited := false;
      ok := true;
    }

    method IssueAuthToken(raw: string, now: Time)
      modifies tokens
      ensures Image() == Issued(tokens.hash, old(Image()), Tokens.AuthToken, raw, now)
    {
      tokens.IssueToken(raw, Tokens.AuthToken, cfg.sessionId, cfg.ownerUser, cfg.authTokenTtl, now);
    }

    method IssueResumeToken(raw: string, now: Time)
      modifies tokens
      ensures Image() == Issued(tokens.hash, old(Image()), Tokens.ResumeToken, raw, now)
    {
      tokens.IssueToken(raw, Tokens.ResumeToken, cfg.sessionId, cfg.ownerUser, cfg.resumeTokenTtl, now);
    }

    /** One request on the local socket. */
    method RenewAuth(req: RenewRequest, raw: string, now: Time) returns (granted: bool)
      modifies tokens
      ensures granted <==> req.peerUid == cfg.ownerUid && req.sessionId == cfg.sessionId && req.user == cfg.ownerUser
      ensures granted == RenewAllowed(cfg, req)
      ensures Image() == if granted then Issued(tokens.hash, old(Image()), Tokens.AuthToken, raw, now) else old(Image())
    {
      if req.peerUid != cfg.ownerUid {
        return false;
      } else if req.sessionId != cfg.sessionId {
        return false;
      } else if req.user != cfg.ownerUser {
        return false;
      }
      IssueAuthToken(raw, now);
      granted := true;
    }

    method FinalizeConnectionCleanup(conn: Uuid, epoch: nat, reason: CleanupReason, now: Time)
      modifies this`detachedAt, sessions
      ensures Image() == AfterFinalize(old(Image()), conn, epoch, reason, now)
      ensures cfg.sessionId in old(sessions.sessions) ==>
                var x := old(sessions.sessions)[cfg.sessionId];
                var owned := x.attachedConn == Some(conn) && x.attachEpoch == epoch;
                sessions.sessions == old(sessions.sessions)[cfg.sessionId :=
                  if ptyExited && reason.ConnectionEnd? then x.(state := Sessions.Terminated, attachedConn := None)
                  else if owned && !x.Terminal() then x.(state := Sessions.Detached, attachedConn := None)
                  else if owned then x.(attachedConn := None)
                  else x]
                && detachedAt == if ptyExited && reason.ConnectionEnd? then None
                                 else if owned then Some(now) else old(detachedAt)
    {
      if reason == ExplicitDetach {
        var released := sessions.ConditionalStaleCleanup(cfg.sessionId, conn, epoch);
        if released {
          detachedAt := Some(now);
        }
        return;
      }
      if ptyExited {
        var _ := sessions.Terminate(cfg.sessionId);
        detachedAt := None;
        return;
      }
      var released := sessions.ConditionalStaleCleanup(cfg.sessionId, conn, epoch);
      if released {
        detachedAt := Some(now);
      }
    }
  }
}
