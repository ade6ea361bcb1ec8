/**
 The whole server as a step system: any number of connections, interleaved with the accept
 loop's checks, the token sweeper, the local socket, the shell and its output. Every critical
 section under the state lock is one step.

 `ops`, `auths`, `attaches` and `output` are the history: what was asked of the token store,
 which connections authenticated, which took the session, and all output seen.
 */
module SessionProtocol {
  import opened Wrappers
  import opened Dispatching
  import opened ServerCore
  import opened Connections
  import Sessions
  import Tokens
  import TokenRuns
  import ReplayBuffer
  import opened WireErrors

  datatype System = System(
    server: Server,
    conns: map<Uuid, Conn>,
    clock: Time,
    stop: Option<StopReason>,
    ops: seq<TokenRuns.Op>,
    auths: seq<Uuid>,
    attaches: seq<Uuid>,
    output: Bytes)
  {
    predicate Ready() {
      server.HasSession()
    }

    function Session(): Sessions.Session
      requires Ready()
    {
      server.Session()
    }
  }

  datatype Action =
    | Connect(conn: Uuid)
    | Take(conn: Uuid, input: Input, env: Env)
    | Abandon(conn: Uuid)
    | Clean(conn: Uuid)
    | PtyExit
    | Renew(request: RenewRequest, raw: string)
    | Sweep(retention: Time)
    | AcceptCheck
    | EndpointClose
    | Output(chunk: Bytes)

  datatype Step = Step(now: Time, action: Action)

  function IssueOp(cfg: Config, kind: Tokens.TokenKind, raw: string, now: Time): TokenRuns.Op {
    var ttl := if kind.AuthToken? then cfg.authTokenTtl else cfg.resumeTokenTtl;
    TokenRuns.Issue(raw, kind, cfg.sessionId, cfg.ownerUser, ttl, now)
  }

  /** `run_new`: a new server and the bootstrap auth token. */
  function Start(h: string -> Tokens.Digest, cfg: Config, raw: string, now: Time): System {
    System(Issued(h, NewServer(cfg), Tokens.AuthToken, raw, now), map[], now, None,
           [IssueOp(cfg, Tokens.AuthToken, raw, now)], [], [], [])
  }

  /**
   When a step can happen. The clock does not go back, connection ids and tokens are new, and a
   handler acts only while it is there to act.
   */
  predicate Enabled(h: string -> Tokens.Digest, s: System, step: Step) {
    && s.clock <= step.now
    && match step.action
       case Connect(c) => c !in s.conns
       case Take(c, input, env) =>
         && c in s.conns && s.conns[c].phase.Running? && env.now == step.now
         && (input.Frame? && input.msg.Auth? ==> !TokenRuns.Issued(h, s.ops, h(env.token)))
       case Abandon(c) => c in s.conns && s.conns[c].phase.Running?
       case Clean(c) => c in s.conns && s.conns[c].phase.Leaving?
       case PtyExit => s.server.ptyStarted
       case Renew(req, raw) => RenewAllowed(s.server.cfg, req) ==> !TokenRuns.Issued(h, s.ops, h(raw))
       case Sweep(_) => true
       case AcceptCheck => s.stop.None?
       case EndpointClose => s.stop.None?
       case Output(_) => s.server.ptyStarted
  }

  function AfterTake(s: System, c: Uuid, t: Turn): System
    requires c in s.conns
  {
    s.(server := t.st,
       conns := s.conns[c := t.conn],
       ops := s.ops + t.calls,
       auths := if t.conn.authed && !s.conns[c].authed then s.auths + [c] else s.auths,
       attaches := if t.attached then s.attaches + [c] else s.attaches)
  }

  /** What a step does; a step that is not enabled does nothing. */
  function Next(h: string -> Tokens.Digest, s: System, step: Step): System {
    if !Enabled(h, s, step) then s else Act(h, s.(clock := step.now), step.now, step.action)
  }

  function Act(h: string -> Tokens.Digest, s: System, now: Time, action: Action): System {
    match action
    case Connect(c) => s.(conns := s.conns[c := NewConn(c)])
    case Take(c, input, env) =>
      if c in s.conns then AfterTake(s, c, TakeTurn(h, s.server, s.conns[c], input, env)) else s
    case Abandon(c) => if c in s.conns then s.(conns := s.conns[c := Abort(s.conns[c])]) else s
    case Clean(c) =>
      if c in s.conns then
        var (st, conn) := CleanUp(s.server, s.conns[c], now);
        s.(server := st, conns := s.conns[c := conn])
      else s
    case PtyExit => s.(server := s.server.(ptyExited := true))
    case Renew(req, raw) =>
      if RenewAllowed(s.server.cfg, req) then
        s.(server := Issued(h, s.server, Tokens.AuthToken, raw, now),
           ops := s.ops + [IssueOp(s.server.cfg, Tokens.AuthToken, raw, now)])
      else s
    case Sweep(retention) =>
      s.(server := s.server.(records := Tokens.AfterSweep(s.server.records, now, retention)),
         ops := s.ops + [TokenRuns.Sweep(retention, now)])
    case AcceptCheck =>
      var (st, stop) := AfterAcceptChecks(s.server, now);
      s.(server := st, stop := stop)
    case EndpointClose => s.(stop := Some(EndpointClosed))
    case Output(chunk) =>
      s.(server := s.server.(replay := ReplayBuffer.Append(s.server.replay, chunk, s.server.cfg.replayCap)),
         output := s.output + chunk)
  }

  // ---------------------------------------------------------------- the invariant

  /** One session, held, free or ended, with a detach clock that runs exactly while it is detached. */
  predicate ServerInv(st: Server) {
    && st.HasSession()
    && var x := st.Session();
       && x.Consistent()
       && (!x.Terminal() ==> (x.state.Created? <==> x.attachEpoch == 0))
       && (!x.Terminal() ==> (x.state.Detached? <==> st.detachedAt.Some?))
  }

  /** A handler in its loop agrees with its dispatcher. */
  predicate Lockstep(c: Conn) {
    && (c.authed <==> c.state in {AwaitAttachOrResume, Attached})
    && (c.attachedEpoch.Some? <==> c.state == Attached)
    && c.state != Closed
    && c.cleanupReason == ConnectionEnd
  }

  predicate Owns(x: Sessions.Session, c: Conn) {
    x.attachedConn == Some(c.id) && c.attachedEpoch == Some(x.attachEpoch)
  }

  /** A handler that attached and has not detached owns the session, unless the session has ended. */
  predicate ConnInv(x: Sessions.Session, c: Conn) {
    && (c.phase.Running? ==> Lockstep(c))
    && (c.phase.Leaving? ==> c.attachedEpoch.Some?)
    && (c.phase.Running? || c.phase.Leaving? ==>
          if c.attachedEpoch.Some? && c.cleanupReason.ConnectionEnd? then x.Terminal() || Owns(x, c)
          else x.attachedConn != Some(c.id))
    && (c.phase.Finished? ==> x.attachedConn != Some(c.id))
  }

  /** How connection `who` may move the session: take it when free, give it up when held, or end it. */
  predicate Moves(x: Sessions.Session, y: Sessions.Session, who: Uuid) {
    && (x.Terminal() ==> y.Terminal())
    && (|| y == x
        || (y.Terminal() && y.attachedConn.None?)
        || (x.attachedConn.None? && y.attachedConn == Some(who))
        || (x.attachedConn == Some(who) && y.attachedConn.None?))
  }

  /** Another connection's claims survive. */
  lemma OthersUndisturbed(x: Sessions.Session, y: Sessions.Session, who: Uuid, d: Conn)
    requires Moves(x, y, who) && d.id != who && ConnInv(x, d)
    ensures ConnInv(y, d)
  {
  }

  /** A turn's result is as good as its start, and moved the session only as its connection may. */
  predicate Kept(st: Server, c: Conn, t: Turn, now: Time) {
    && ServerInv(st) && ServerInv(t.st) && ConnInv(t.st.Session(), t.conn) && t.conn.id == c.id
    && Moves(st.Session(), t.st.Session(), c.id)
    && (t.st.Session().state.Expired? ==> st.Session().state.Expired?)
    && t.st.detachedAt in {st.detachedAt, None, Some(now)}
    && t.st.cfg == st.cfg && t.st.replay == st.replay
  }

  /** A handler whose message the dispatcher has accepted, before it acts on it. */
  predicate Dispatched(x: Sessions.Session, c: Conn, from: ConnectionState, kind: MessageKind) {
    && c.phase.Running? && c.cleanupReason == ConnectionEnd
    && Dispatch(from, kind) == (c.state, Success(if kind.Close? then CloseConnection else Continue))
    && (c.authed <==> from in {AwaitAttachOrResume, Attached})
    && (c.attachedEpoch.Some? <==> from == Attached)
    && (if c.attachedEpoch.Some? then x.Terminal() || Owns(x, c) else x.attachedConn != Some(c.id))
  }

  /** Refusing a message after it was dispatched only ends the handler. */
  lemma RefuseKeeps(st: Server, c: Conn, from: ConnectionState, kind: MessageKind, err: ServerError, env: Env)
    requires ServerInv(st) && Dispatched(st.Session(), c, from, kind)
    ensures Kept(st, c, Refuse(st, c, err, env), env.now)
  {
  }

  lemma AuthKeeps(h: string -> Tokens.Digest, st: Server, c: Conn, token: Option<string>, env: Env)
    requires ServerInv(st) && Dispatched(st.Session(), c, AwaitAuth, MessageKind.Auth)
    ensures Kept(st, c, HandleAuth(h, st, c, token, env), env.now)
  {
  }

  lemma TakeSessionKeeps(st: Server, c: Conn, resume: bool, env: Env)
    requires ServerInv(st) && c.phase.Running? && c.authed && c.attachedEpoch.None? && c.state == Attached
    requires c.cleanupReason == ConnectionEnd && st.Session().attachedConn != Some(c.id)
    ensures Kept(st, c, TakeSession(st, c, resume, env), env.now)
    ensures TakeSession(st, c, resume, env).st.records == st.records
  {
  }

  lemma AttachKeeps(st: Server, c: Conn, sid: Option<Uuid>, env: Env)
    requires ServerInv(st) && Dispatched(st.Session(), c, AwaitAttachOrResume, MessageKind.Attach)
    ensures Kept(st, c, HandleAttach(st, c, sid, env), env.now)
  {
    TakeSessionKeeps(st, c, false, env);
  }

  lemma ResumeKeeps(h: string -> Tokens.Digest, st: Server, c: Conn, request: Option<(Uuid, string)>, env: Env)
    requires ServerInv(st) && Dispatched(st.Session(), c, AwaitAttachOrResume, MessageKind.Resume)
    ensures Kept(st, c, HandleResume(h, st, c, request, env), env.now)
  {
    if request.None? {
      RefuseKeeps(st, c, AwaitAttachOrResume, MessageKind.Resume, Protocol, env);
    } else if request.value.0 != st.cfg.sessionId {
      RefuseKeeps(st, c, AwaitAttachOrResume, MessageKind.Resume, SessionNotFound, env);
    } else {
      var verdict := Tokens.ResumeVerdict(
        st.records, h(request.value.1), st.cfg.sessionId, st.cfg.ownerUser, env.now);
      if verdict.Failure? {
        RefuseKeeps(st, c, AwaitAttachOrResume, MessageKind.Resume, MapTokenResumeError(verdict.error), env);
      } else {
        TakeSessionKeeps(st, c, true, env);
      }
    }
  }

  lemma DetachKeeps(st: Server, c: Conn, env: Env)
    requires ServerInv(st) && Dispatched(st.Session(), c, Attached, MessageKind.Detach)
    ensures Kept(st, c, HandleDetach(st, c, env), env.now)
  {
  }

  lemma CloseKeeps(st: Server, c: Conn, from: ConnectionState, now: Time)
    requires ServerInv(st) && Dispatched(st.Session(), c, from, MessageKind.Close)
    ensures Kept(st, c, HandleClose(st, c), now)
  {
  }

  /** Any accepted message, from any state. */
  lemma MessageKeeps(h: string -> Tokens.Digest, st: Server, c: Conn, from: ConnectionState, msg: Message, env: Env)
    requires ServerInv(st) && Dispatched(st.Session(), c, from, Kind(msg))
    ensures Kept(st, c, HandleMessage(h, st, c, msg, env), env.now)
  {
    match msg
    case Auth(token) => AuthKeeps(h, st, c, token, env);
    case Attach(sid) => AttachKeeps(st, c, sid, env);
    case Resume(request) => ResumeKeeps(h, st, c, request, env);
    case Detach => DetachKeeps(st, c, env);
    case Close => CloseKeeps(st, c, from, env.now);
    case _ =>
  }

  /** What one turn keeps, and how it may move the session. */
  lemma TurnKeeps(h: string -> Tokens.Digest, st: Server, c: Conn, input: Input, env: Env)
    requires ServerInv(st) && c.phase.Running? && ConnInv(st.Session(), c)
    ensures Kept(st, c, TakeTurn(h, st, c, input, env), env.now)
  {
    if input.Frame? && Dispatch(c.state, Kind(input.msg)).1.Success? {
      MessageKeeps(h, st, c.(state := Dispatch(c.state, Kind(input.msg)).0), c.state, input.msg, env);
    }
  }
}
