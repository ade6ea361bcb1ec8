/**
 One connection of `src/bin/neoshd.rs`: the locals of `handle_connection` and one turn of its
 loop. A turn takes the lock at most once to change anything, so it is one atomic step.
 */
module Connections {
  import opened Wrappers
  import opened Dispatching
  import opened ServerCore
  import Sessions
  import Tokens
  import TokenRuns
  import opened WireErrors
  import Framing

  /**
   Running: in the loop. Leaving: out of the loop, its final cleanup not yet run. Finished:
   returned normally. Aborted: returned early with an error, without cleanup.
   */
  datatype Phase = Running | Leaving | Finished | Aborted

  datatype Conn = Conn(
    id: Uuid,
    state: ConnectionState,
    authed: bool,
    attachedEpoch: Option<nat>,
    cleanupReason: CleanupReason,
    phase: Phase)

  function NewConn(id: Uuid): Conn {
    Conn(id, AwaitHello, false, None, ConnectionEnd, Running)
  }

  /** A control message with its request; None for a request that does not parse. */
  datatype Message =
    | Hello
    | Auth(token: Option<string>)
    | Attach(sid: Option<Uuid>)
    | Resume(request: Option<(Uuid, string)>)
    | Resize(parses: bool)
    | Detach
    | Close
    | Ping
    | Pong
    | Error

  /**
   What a turn of the loop reads: a message, a frame of no known kind, a frame that is too large,
   one that is cut off by the end of the stream, or nothing, because the stream has ended.
   */
  datatype Input = Frame(msg: Message) | UnknownFrame | Oversized | CutOff | Ended

  /** What a turn reads from a stream with these bytes to come; `parse` tells the messages by their payloads. */
  function InputOf(rest: Bytes, parse: Bytes -> Option<Message>): Input {
    match Framing.ReadFrame(rest).0
    case Success(payload) => (match parse(payload) case Some(msg) => Frame(msg) case None => UnknownFrame)
    case Failure(ControlFrameTooLarge) => Oversized
    case Failure(_) => if rest == [] then Ended else CutOff
  }

  /**
   What becomes of a payload that was framed by `encode_frame`, whatever follows it: it is too large
   if and only if its length, as far as 32 bits show it, is over the limit.
   */
  lemma FramedInput(payload: Bytes, more: Bytes, parse: Bytes -> Option<Message>)
    ensures var input := InputOf(Framing.Frame(payload) + more, parse);
            && (input.Oversized? <==> |payload| % 4294967296 > 65536)
            && (|payload| <= 65536 ==>
                  input == match parse(payload) case Some(msg) => Frame(msg) case None => UnknownFrame)
  {
    Framing.DigitsOf(|payload|);
    Framing.FrameParts(payload, more);
    if |payload| <= Framing.MAX_CONTROL_FRAME {
      Framing.ReadOneFrame(payload, more);
    }
  }

  /** What the world decides during a turn: the time, what fails, and the random token drawn. */
  datatype Env = Env(now: Time, writeOk: bool, dataPlaneOk: bool, ptyStarts: bool, resizeOk: bool, token: string)

  datatype Reply =
    | HelloAck(sessionTimeout: Time)
    | AuthOk(session: Uuid, resumeToken: string, expiresIn: Time)
    | AttachOk(session: Uuid)
    | ResumeOk(session: Uuid, replayBytes: nat)
    | PongReply
    | ErrorReply(frame: ErrorFrame)

  function Kind(m: Message): MessageKind {
    match m
    case Hello => MessageKind.Hello
    case Auth(_) => MessageKind.Auth
    case Attach(_) => MessageKind.Attach
    case Resume(_) => MessageKind.Resume
    case Resize(_) => MessageKind.Resize
    case Detach => MessageKind.Detach
    case Close => MessageKind.Close
    case Ping => MessageKind.Ping
    case Pong => MessageKind.Pong
    case Error => MessageKind.Error
  }

  /** The outcome of a turn; `calls` and `attached` tell what it did to the token store and the session. */
  datatype Turn = Turn(st: Server, conn: Conn, reply: Option<Reply>, calls: seq<TokenRuns.Op>, attached: bool)

  /** `break`: the final cleanup follows only when this connection had attached. */
  function Break(c: Conn): Conn {
    c.(phase := if c.attachedEpoch.Some? then Leaving else Finished)
  }

  function Abort(c: Conn): Conn {
    c.(phase := Aborted)
  }

  function Stay(st: Server, c: Conn): Turn {
    Turn(st, c, None, [], false)
  }

  /** `write_error_frame(..).await?; break`. */
  function Refuse(st: Server, c: Conn, err: ServerError, env: Env): Turn {
    var (c', reply) := Refused(c, err, env);
    Turn(st, c', reply, [], false)
  }

  function Refused(c: Conn, err: ServerError, env: Env): (Conn, Option<Reply>) {
    if env.writeOk then (Break(c), Some(ErrorReply(ErrorFrameFor(err)))) else (Abort(c), None)
  }

  /** `write_control_json(..).await?`. */
  function Send(st: Server, c: Conn, reply: Reply, env: Env): Turn {
    if env.writeOk then Turn(st, c, Some(reply), [], false) else Stay(st, Abort(c))
  }

  function HandleAuth(h: string -> Tokens.Digest, st: Server, c: Conn, token: Option<string>, env: Env): Turn {
    if token.None? then Refuse(st, c, Protocol, env)
    else
      var sid, user := st.cfg.sessionId, st.cfg.ownerUser;
      var check := TokenRuns.Authenticate(token.value, sid, user, env.now);
      var (records, verdict) := Tokens.AfterAuth(st.records, h(token.value), sid, user, env.now);
      if verdict.Failure? then Refuse(st, c, MapTokenAuthError(verdict.error), env).(calls := [check])
      else
        var st' := Issued(h, st.(records := records), Tokens.ResumeToken, env.token, env.now);
        Send(st', c.(authed := true), AuthOk(sid, env.token, st.cfg.resumeTokenTtl), env)
        .(calls := [check, TokenRuns.Issue(env.token, Tokens.ResumeToken, sid, user, st.cfg.resumeTokenTtl, env.now)])
  }

  /** From `attach_exclusive` on, ATTACH and RESUME do the same, and then start the data plane. */
  function TakeSession(st: Server, c: Conn, resume: bool, env: Env): Turn {
    var sid := st.cfg.sessionId;
    var (m, r) := Sessions.AfterAttach(st.sessions, sid, c.id);
    if r.Failure? then Refuse(st, c, MapSessionError(r.error), env)
    else
      var (st', ok) := AfterEnsurePty(st.(sessions := m, detachedAt := None), env.ptyStarts);
      if !ok then Turn(st', Abort(c), None, [], true)
      else
        var c' := c.(attachedEpoch := Some(r.value));
        var reply := if resume then ResumeOk(sid, |st.replay|) else AttachOk(sid);
        if !env.writeOk then Turn(st', Abort(c'), None, [], true)
        else Turn(st', if env.dataPlaneOk then c' else Abort(c'), Some(reply), [], true)
  }

  function HandleAttach(st: Server, c: Conn, sid: Option<Uuid>, env: Env): Turn {
    if !c.authed || sid.None? then Refuse(st, c, Protocol, env)
    else if sid.value != st.cfg.sessionId then Refuse(st, c, SessionNotFound, env)
    else TakeSession(st, c, false, env)
  }

  function HandleResume(h: string -> Tokens.Digest, st: Server, c: Conn, request: Option<(Uuid, string)>, env: Env): Turn {
    if !c.authed || request.None? then Refuse(st, c, Protocol, env)
    else if request.value.0 != st.cfg.sessionId then Refuse(st, c, SessionNotFound, env)
    else
      var sid, user, raw := st.cfg.sessionId, st.cfg.ownerUser, request.value.1;
      var check := TokenRuns.Resume(raw, sid, user, env.now);
      var verdict := Tokens.ResumeVerdict(st.records, h(raw), sid, user, env.now);
      if verdict.Failure? then Refuse(st, c, MapTokenResumeError(verdict.error), env).(calls := [check])
      else TakeSession(st, c, true, env).(calls := [check])
  }

  function HandleDetach(st: Server, c: Conn, env: Env): Turn {
    var (m, r) := Sessions.AfterDetach(st.sessions, st.cfg.sessionId, c.id);
    if r.Failure? then Stay(st, Abort(c))
    else Stay(st.(sessions := m, detachedAt := Some(env.now)), Break(c.(cleanupReason := ExplicitDetach)))
  }

  function HandleClose(st: Server, c: Conn): Turn {
    var (m, r) := Sessions.AfterTerminate(st.sessions, st.cfg.sessionId);
    if r.Failure? then Stay(st, Abort(c)) else Stay(st.(sessions := m), Break(c))
  }

  function HandleMessage(h: string -> Tokens.Digest, st: Server, c: Conn, msg: Message, env: Env): Turn {
    match msg
    case Hello => Send(st, c, HelloAck(st.cfg.sessionTimeout), env)
    case Auth(token) => HandleAuth(h, st, c, token, env)
    case Attach(sid) => HandleAttach(st, c, sid, env)
    case Resume(request) => HandleResume(h, st, c, request, env)
    case Resize(parses) =>
      if !parses then Refuse(st, c, Protocol, env)
      else if st.ptyStarted && !env.resizeOk then Stay(st, Abort(c))
      else Stay(st, c)
    case Detach => HandleDetach(st, c, env)
    case Close => HandleClose(st, c)
    case Ping => Send(st, c, PongReply, env)
    case Pong => Stay(st, c)
    case Error => Stay(st, c)
  }

  /** One turn of the loop of `handle_connection`. */
  function TakeTurn(h: string -> Tokens.Digest, st: Server, c: Conn, input: Input, env: Env): Turn {
    match input
    case Oversized => Stay(st, Break(c))
    case CutOff => Stay(st, Break(c))
    case Ended => Stay(st, Break(c))
    case UnknownFrame => Refuse(st, c, Protocol, env)
    case Frame(msg) =>
      var (next, r) := Dispatch(c.state, Kind(msg));
      if r.Failure? then Refuse(st, c, Protocol, env)
      else HandleMessage(h, st, c.(state := next), msg, env)
  }

  /** The end of `handle_connection`, when it is reached. */
  function CleanUp(st: Server, c: Conn, now: Time): (Server, Conn) {
    (if c.attachedEpoch.Some? then AfterFinalize(st, c.id, c.attachedEpoch.value, c.cleanupReason, now) else st,
     c.(phase := Finished))
  }

  /** The locals of `handle_connection`, updated in place. */
  class ConnectionHandler {
    const id: Uuid
    const dispatcher: Dispatcher
    var authed: bool
    var attachedEpoch: Option<nat>
    var cleanupReason: CleanupReason
    var phase: Phase

    function View(): Conn
      reads this, dispatcher
    {
      Conn(id, dispatcher.state, authed, attachedEpoch, cleanupReason, phase)
    }

    constructor (id: Uuid)
      ensures fresh(dispatcher) && View() == NewConn(id)
    {
      this.id := id;
      dispatcher := new Dispatcher();
      authed := false;
      attachedEpoch := None;
      cleanupReason := ConnectionEnd;
      phase := Running;
    }

    method LeaveLoop()
      modifies this`phase
      ensures View() == Break(old(View()))
    {
      phase := if attachedEpoch.Some? then Leaving else Finished;
    }

    method RefuseWith(err: ServerError, env: Env) returns (reply: Option<Reply>)
      modifies this`phase
      ensures (View(), reply) == Refused(old(View()), err, env)
    {
      if !env.writeOk {
        phase := Aborted;
        return None;
      }
      LeaveLoop();
      reply := Some(ErrorReply(ErrorFrameFor(err)));
    }

    method OnAuth(st: ServerState, token: Option<string>, env: Env) returns (reply: Option<Reply>)
      modifies this, st.tokens
      ensures var t := HandleAuth(st.tokens.hash, old(st.Image()), old(View()), token, env);
              (st.Image(), View(), reply) == (t.st, t.conn, t.reply)
    {
      if token.None? {
        reply := RefuseWith(Protocol, env);
        return;
      }
      var sid, owner := st.cfg.sessionId, st.cfg.ownerUser;
      var verdict := st.tokens.ValidateAndConsumeAuth(token.value, sid, owner, env.now);
      if verdict.Failure? {
        reply := RefuseWith(MapTokenAuthError(verdict.error), env);
        return;
      }
      st.IssueResumeToken(env.token, env.now);
      authed := true;
      if !env.writeOk {
        phase := Aborted;
        return None;
      }
      reply := Some(AuthOk(sid, env.token, st.cfg.resumeTokenTtl));
    }

    method AttachTo(st: ServerState, resume: bool, env: Env) returns (reply: Option<Reply>)
      modifies this, st, st.sessions
      ensures var t := TakeSession(old(st.Image()), old(View()), resume, env);
              (st.Image(), View(), reply) == (t.st, t.conn, t.reply)
    {
      var r := st.sessions.AttachExclusive(st.cfg.sessionId, id);
      if r.Failure? {
        reply := RefuseWith(MapSessionError(r.error), env);
        return;
      }
      st.detachedAt := None;
      var ok := st.EnsurePtyRuntime(env.ptyStarts);
      if !ok {
        phase := Aborted;
        return None;
      }
      attachedEpoch := Some(r.value);
      if !env.writeOk {
        phase := Aborted;
        return None;
      }
      reply := Some(if resume then ResumeOk(st.cfg.sessionId, |st.replay|) else AttachOk(st.cfg.sessionId));
      if !env.dataPlaneOk {
        phase := Aborted;
      }
    }

    method OnAttach(st: ServerState, sid: Option<Uuid>, env: Env) returns (reply: Option<Reply>)
      modifies this, st, st.sessions
      ensures var t := HandleAttach(old(st.Image()), old(View()), sid, env);
              (st.Image(), View(), reply) == (t.st, t.conn, t.reply)
    {
      if !authed || sid.None? {
        reply := RefuseWith(Protocol, env);
      } else if sid.value != st.cfg.sessionId {
        reply := RefuseWith(SessionNotFound, env);
      } else {
        reply := AttachTo(st, false, env);
      }
    }

    method OnResume(st: ServerState, request: Option<(Uuid, string)>, env: Env) returns (reply: Option<Reply>)
      modifies this, st, st.sessions
      ensures var t := HandleResume(st.tokens.hash, old(st.Image()), old(View()), request, env);
              (st.Image(), View(), reply) == (t.st, t.conn, t.reply)
    {
      if !authed || request.None? {
        reply := RefuseWith(Protocol, env);
        return;
      }
      if request.value.0 != st.cfg.sessionId {
        reply := RefuseWith(SessionNotFound, env);
        return;
      }
      var verdict := st.tokens.ValidateResume(request.value.1, st.cfg.sessionId, st.cfg.ownerUser, env.now);
      if verdict.Failure? {
        reply := RefuseWith(MapTokenResumeError(verdict.error), env);
        return;
      }
      reply := AttachTo(st, true, env);
    }

    method OnDetach(st: ServerState, env: Env)
      modifies this, st, st.sessions
      ensures var t := HandleDetach(old(st.Image()), old(View()), env); (st.Image(), View()) == (t.st, t.conn)
    {
      var r := st.sessions.Detach(st.cfg.sessionId, id);
      if r.Failure? {
        phase := Aborted;
        return;
      }
      st.detachedAt := Some(env.now);
      cleanupReason := ExplicitDetach;
      LeaveLoop();
    }

    method OnClose(st: ServerState)
      modifies this, st.sessions
      ensures var t := HandleClose(old(st.Image()), old(View())); (st.Image(), View()) == (t.st, t.conn)
    {
      var r := st.sessions.Terminate(st.cfg.sessionId);
      if r.Failure? {
        phase := Aborted;
        return;
      }
      LeaveLoop();
    }

    method OnMessage(st: ServerState, msg: Message, env: Env) returns (reply: Option<Reply>)
      modifies this, st, st.sessions, st.tokens
      ensures var t := HandleMessage(st.tokens.hash, old(st.Image()), old(View()), msg, env);
              (st.Image(), View(), reply) == (t.st, t.conn, t.reply)
    {
      reply := None;
      match msg {
        case Hello =>
          if env.writeOk {
            reply := Some(HelloAck(st.cfg.sessionTimeout));
          } else {
            phase := Aborted;
          }
        case Auth(token) => reply := OnAuth(st, token, env);
        case Attach(sid) => reply := OnAttach(st, sid, env);
        case Resume(request) => reply := OnResume(st, request, env);
        case Resize(parses) =>
          if !parses {
            reply := RefuseWith(Protocol, env);
          } else if st.ptyStarted && !env.resizeOk {
            phase := Aborted;
          }
        case Detach => OnDetach(st, env);
        case Close => OnClose(st);
        case Ping =>
          if env.writeOk {
            reply := Some(PongReply);
          } else {
            phase := Aborted;
          }
        case Pong =>
        case Error =>
      }
    }

    /** One turn of the loop. */
    method Turn(st: ServerState, input: Input, env: Env) returns (reply: Option<Reply>)
      modifies this, dispatcher, st, st.sessions, st.tokens
      ensures var t := TakeTurn(st.tokens.hash, old(st.Image()), old(View()), input, env);
              (st.Image(), View(), reply) == (t.st, t.conn, t.reply)
    {
      match input {
        case UnknownFrame =>
          reply := RefuseWith(Protocol, env);
        case Frame(msg) =>
          var r := dispatcher.OnMessage(Kind(msg));
          if r.Failure? {
            reply := RefuseWith(Protocol, env);
          } else {
            reply := OnMessage(st, msg, env);
          }
        case _ =>
          LeaveLoop();
          reply := None;
      }
    }

    /** What runs after the loop. */
    method Cleanup(st: ServerState, now: Time)
      modifies this, st, st.sessions
      ensures (st.Image(), View()) == CleanUp(old(st.Image()), old(View()), now)
    {
      if attachedEpoch.Some? {
        st.FinalizeConnectionCleanup(id, attachedEpoch.value, cleanupReason, now);
      }
      phase := Finished;
    }
  }
}
