/** What a client is answered, told by the state of the session and by the history of its token. */
module ProtocolAnswers {
  import opened Wrappers
  import opened Dispatching
  import opened ServerCore
  import opened Connections
  import opened SessionProtocol
  import opened ProtocolRuns
  import opened WireErrors
  import Sessions
  import Tokens
  import TokenRuns
  import TokenHistory
  import SweepHistory
  import Framing

  function TurnOf(h: string -> Tokens.Digest, s: System, c: Uuid, msg: Message, env: Env): Turn
    requires c in s.conns
  {
    TakeTurn(h, s.server, s.conns[c], Frame(msg), env)
  }

  function Refusal(code: Code): Option<Reply> {
    Some(ErrorReply(ErrorFrame(code, false)))
  }

  /** The first HELLO is answered HELLO_ACK with the session timeout, and makes way for AUTH. */
  lemma HelloAnswers(h: string -> Tokens.Digest, s: System, c: Uuid, env: Env)
    requires Reachable(h, s) && c in s.conns && s.conns[c].phase.Running? && s.conns[c].state == AwaitHello
    ensures var t := TurnOf(h, s, c, Message.Hello, env);
            && t.reply == (if env.writeOk then Some(HelloAck(s.server.cfg.sessionTimeout)) else None)
            && t.conn == s.conns[c].(state := AwaitAuth, phase := if env.writeOk then Running else Aborted)
            && t.st == s.server && t.calls == []
  {
    ReachableInv(h, s);
  }

  /** PING is answered PONG in every state, and changes nothing. */
  lemma PingAnswers(h: string -> Tokens.Digest, s: System, c: Uuid, env: Env)
    requires Reachable(h, s) && c in s.conns && s.conns[c].phase.Running?
    ensures var t := TurnOf(h, s, c, Message.Ping, env);
            && t.reply == (if env.writeOk then Some(PongReply) else None)
            && t.conn == s.conns[c].(phase := if env.writeOk then Running else Aborted)
            && t.st == s.server && t.calls == []
  {
    ReachableInv(h, s);
  }

  /** A RESIZE that parses changes nothing; it ends the handler, without a word, only when the PTY refuses it. */
  lemma ResizeAnswers(h: string -> Tokens.Digest, s: System, c: Uuid, env: Env)
    requires Reachable(h, s) && c in s.conns && s.conns[c].phase.Running? && s.conns[c].state == Attached
    ensures var t := TurnOf(h, s, c, Message.Resize(true), env);
            && t.reply.None? && t.st == s.server && t.calls == []
            && t.conn == s.conns[c].(phase := if s.server.ptyStarted && !env.resizeOk then Aborted else Running)
  {
    ReachableInv(h, s);
  }

  /** What no state expects: an unknown message, one out of order, or a request that does not parse. */
  predicate Malformed(state: ConnectionState, input: Input) {
    || input.UnknownFrame?
    || (input.Frame?
        && match input.msg
           case Hello => state != AwaitHello
           case Auth(token) => state != AwaitAuth || token.None?
           case Attach(sid) => state != AwaitAttachOrResume || sid.None?
           case Resume(request) => state != AwaitAttachOrResume || request.None?
           case Resize(parses) => state != Attached || !parses
           case Detach => state != Attached
           case Close => state != AwaitAttachOrResume && state != Attached
           case Ping => state == Closed
           case Pong => true
           case Error => true)
  }

  /** The loop is left: with a cleanup to follow if and only if the handler had attached. */
  function Left(c: Conn): Phase {
    if c.state == Attached then Leaving else Finished
  }

  /**
   PROTOCOL_ERROR is the answer to exactly the malformed input, in every state; such input changes
   nothing but the handler, which leaves its loop.
   */
  lemma ProtocolErrorIff(h: string -> Tokens.Digest, s: System, c: Uuid, input: Input, env: Env)
    requires Reachable(h, s) && c in s.conns && s.conns[c].phase.Running? && env.writeOk
    ensures var t := TakeTurn(h, s.server, s.conns[c], input, env);
            && (t.reply == Refusal(PROTOCOL_ERROR) <==> Malformed(s.conns[c].state, input))
            && (Malformed(s.conns[c].state, input) ==>
                  t.st == s.server && t.calls == [] && t.conn.phase == Left(s.conns[c]))
  {
    ReachableInv(h, s);
    TurnRefusesMalformed(h, s.server, s.conns[c], input, env);
  }

  predicate RefusesMalformed(h: string -> Tokens.Digest, st: Server, c: Conn, input: Input, env: Env) {
    var t := TakeTurn(h, st, c, input, env);
    && (t.reply == Refusal(PROTOCOL_ERROR) <==> Malformed(c.state, input))
    && (Malformed(c.state, input) ==> t.st == st && t.calls == [] && t.conn.phase == Left(c))
  }

  lemma TakingIsNoProtocolError(st: Server, c: Conn, resume: bool, env: Env)
    requires st.HasSession()
    ensures TakeSession(st, c, resume, env).reply != Refusal(PROTOCOL_ERROR)
  {
  }

  lemma AttachRefusesMalformed(h: string -> Tokens.Digest, st: Server, c: Conn, sid: Option<Uuid>, env: Env)
    requires ServerInv(st) && c.phase.Running? && ConnInv(st.Session(), c) && env.writeOk
    ensures RefusesMalformed(h, st, c, Frame(Message.Attach(sid)), env)
  {
    TakingIsNoProtocolError(st, c.(state := Attached), false, env);
  }

  lemma ResumeRefusesMalformed(
    h: string -> Tokens.Digest, st: Server, c: Conn, request: Option<(Uuid, string)>, env: Env)
    requires ServerInv(st) && c.phase.Running? && ConnInv(st.Session(), c) && env.writeOk
    ensures RefusesMalformed(h, st, c, Frame(Message.Resume(request)), env)
  {
    TakingIsNoProtocolError(st, c.(state := Attached), true, env);
  }

  lemma AuthRefusesMalformed(h: string -> Tokens.Digest, st: Server, c: Conn, token: Option<string>, env: Env)
    requires ServerInv(st) && c.phase.Running? && ConnInv(st.Session(), c) && env.writeOk
    ensures RefusesMalformed(h, st, c, Frame(Message.Auth(token)), env)
  {
  }

  lemma TurnRefusesMalformed(h: string -> Tokens.Digest, st: Server, c: Conn, input: Input, env: Env)
    requires ServerInv(st) && c.phase.Running? && ConnInv(st.Session(), c) && env.writeOk
    ensures RefusesMalformed(h, st, c, input, env)
  {
    match input
    case Frame(Attach(sid)) => AttachRefusesMalformed(h, st, c, sid, env);
    case Frame(Resume(request)) => ResumeRefusesMalformed(h, st, c, request, env);
    case Frame(Auth(token)) => AuthRefusesMalformed(h, st, c, token, env);
    case _ =>
  }

  /**
   The answer to ATTACH: the session is taken if and only if it is Created or Detached, the answer
   is ATTACH_DENIED if and only if somebody holds it, SESSION_EXPIRED if and only if it has ended.
   */
  lemma AttachAnswers(h: string -> Tokens.Digest, s: System, c: Uuid, sid: Uuid, env: Env)
    requires Reachable(h, s) && c in s.conns && s.conns[c].phase.Running?
    requires s.conns[c].state == AwaitAttachOrResume && env.writeOk
    ensures s.Ready()
    ensures var t, x := TurnOf(h, s, c, Message.Attach(Some(sid)), env), s.Session();
            && (t.reply == Refusal(SESSION_NOT_FOUND) <==> sid != s.server.cfg.sessionId)
            && (t.reply == Refusal(ATTACH_DENIED) <==> sid == s.server.cfg.sessionId && x.state.Attached?)
            && (t.reply == Refusal(SESSION_EXPIRED) <==> sid == s.server.cfg.sessionId && x.Terminal())
            && (t.attached <==> sid == s.server.cfg.sessionId && x.state in {Sessions.Created, Sessions.Detached})
            && (t.attached <==> t.st.Session().attachedConn == Some(c))
            && (!t.attached ==> t.st == s.server)
            && (t.reply == Some(AttachOk(sid)) <==> t.attached && (s.server.ptyStarted || env.ptyStarts))
  {
    ReachableInv(h, s);
  }

  /** A resume token that is good for this session, by the history of the run. */
  ghost predicate GoodResume(h: string -> Tokens.Digest, s: System, raw: string, now: Time) {
    var op := TokenRuns.Resume(raw, s.server.cfg.sessionId, s.server.cfg.ownerUser, now);
    TokenHistory.Entitled(h, s.ops, op, Tokens.ResumeToken)
  }

  /** A resume token that was issued for this session and has not been swept away. */
  ghost predicate KnownResume(h: string -> Tokens.Digest, s: System, raw: string, now: Time) {
    var op := TokenRuns.Resume(raw, s.server.cfg.sessionId, s.server.cfg.ownerUser, now);
    SweepHistory.Known(h, s.ops, op, Tokens.ResumeToken)
  }

  predicate BoundResume(h: string -> Tokens.Digest, st: Server, raw: string) {
    var op := TokenRuns.Resume(raw, st.cfg.sessionId, st.cfg.ownerUser, 0);
    SweepHistory.Bound(TokenRuns.Lookup(st.records, h(raw)), op, Tokens.ResumeToken)
  }

  lemma ResumeTurnAnswers(h: string -> Tokens.Digest, st: Server, c: Conn, sid: Uuid, raw: string, env: Env)
    requires ServerInv(st) && c.phase.Running? && c.state == AwaitAttachOrResume && c.authed && env.writeOk
    requires st.Session().attachedConn != Some(c.id)
    ensures var t, x := TakeTurn(h, st, c, Frame(Message.Resume(Some((sid, raw)))), env), st.Session();
            var here := sid == st.cfg.sessionId;
            var good := here && Tokens.ResumeVerdict(st.records, h(raw), sid, st.cfg.ownerUser, env.now).Success?;
            var bound := BoundResume(h, st, raw);
            && (t.attached <==> good && x.state in {Sessions.Created, Sessions.Detached})
            && (!t.attached ==> t.st == st)
            && (t.reply == Some(ResumeOk(sid, |st.replay|)) <==> t.attached && (st.ptyStarted || env.ptyStarts))
            && (t.reply == Refusal(ATTACH_DENIED) <==> good && x.state.Attached?)
            && (t.reply == Refusal(SESSION_NOT_FOUND) <==> !here)
            && (t.reply == Refusal(AUTH_FAILED) <==> here && !bound)
            && (t.reply == Refusal(SESSION_EXPIRED) <==> here && bound && (!good || x.Terminal()))
  {
  }

  /**
   The answer to RESUME. The session is taken if and only if moreover the token is good; and each
   refusal has its condition, told by the history: AUTH_FAILED for a token that was not issued for
   this session or has been swept away, SESSION_EXPIRED for any other that has expired or been
   revoked, and for a session that has ended.
   */
  lemma ResumeAnswers(h: string -> Tokens.Digest, s: System, c: Uuid, sid: Uuid, raw: string, env: Env)
    requires Reachable(h, s) && c in s.conns && s.conns[c].phase.Running?
    requires s.conns[c].state == AwaitAttachOrResume && env.writeOk && s.clock <= env.now
    ensures s.Ready()
    ensures var t, x := TurnOf(h, s, c, Message.Resume(Some((sid, raw))), env), s.Session();
            var here := sid == s.server.cfg.sessionId;
            var good, known := here && GoodResume(h, s, raw, env.now), KnownResume(h, s, raw, env.now);
            && (t.attached <==> good && x.state in {Sessions.Created, Sessions.Detached})
            && (!t.attached ==> t.st == s.server)
            && (t.reply == Some(ResumeOk(sid, |s.server.replay|)) <==>
                  t.attached && (s.server.ptyStarted || env.ptyStarts))
            && (t.reply == Refusal(ATTACH_DENIED) <==> good && x.state.Attached?)
            && (t.reply == Refusal(SESSION_NOT_FOUND) <==> !here)
            && (t.reply == Refusal(AUTH_FAILED) <==> here && !known)
            && (t.reply == Refusal(SESSION_EXPIRED) <==> here && known && (!good || x.Terminal()))
  {
    ReachableInv(h, s);
    var op := TokenRuns.Resume(raw, s.server.cfg.sessionId, s.server.cfg.ownerUser, env.now);
    TokenHistory.NextResumeIff(h, s.ops, op);
    SweepHistory.KnownIff(h, s.ops, op, Tokens.ResumeToken);
    ResumeTurnAnswers(h, s.server, s.conns[c], sid, raw, env);
  }

  /** An auth token that is good for this session and unused, by the history of the run. */
  ghost predicate GoodAuth(h: string -> Tokens.Digest, s: System, raw: string, now: Time) {
    var op := TokenRuns.Authenticate(raw, s.server.cfg.sessionId, s.server.cfg.ownerUser, now);
    && TokenHistory.Entitled(h, s.ops, op, Tokens.AuthToken)
    && !TokenHistory.Accepted(h, s.ops, h(raw))
  }

  /**
   The answer to AUTH: AUTH_OK if and only if the token was issued as an auth token, is in time,
   has not been revoked and was never accepted before; AUTH_FAILED otherwise, whatever the reason.
   A reply that cannot be written changes nothing about that: the token is judged, and used up, before.
   */
  lemma AuthAnswers(h: string -> Tokens.Digest, s: System, c: Uuid, raw: string, env: Env)
    requires Reachable(h, s) && c in s.conns && s.conns[c].phase.Running?
    requires s.conns[c].state == AwaitAuth && s.clock <= env.now
    ensures var t, cfg := TurnOf(h, s, c, Message.Auth(Some(raw)), env), s.server.cfg;
            var good := GoodAuth(h, s, raw, env.now);
            && t.reply == (if !env.writeOk then None
                           else if good then Some(AuthOk(cfg.sessionId, env.token, cfg.resumeTokenTtl))
                           else Refusal(AUTH_FAILED))
            && t.conn == s.conns[c].(
                 state := AwaitAttachOrResume, authed := good,
                 phase := if !env.writeOk then Aborted else if good then Running else Finished)
            && (!good ==> t.st == s.server)
            && t.st == s.server.(records := t.st.records)
  {
    ReachableInv(h, s);
    TokenHistory.NextAuthIff(h, s.ops,
      TokenRuns.Authenticate(raw, s.server.cfg.sessionId, s.server.cfg.ownerUser, env.now));
  }

  lemma {:induction false} OpsGrow(h: string -> Tokens.Digest, s: System, steps: Steps)
    ensures |s.ops| <= |After(h, s, steps).ops| && After(h, s, steps).ops[..|s.ops|] == s.ops
    decreases |steps|
  {
    if steps != [] {
      OpsGrow(h, s, steps[..|steps| - 1]);
      OpsStep(h, After(h, s, steps[..|steps| - 1]), steps[|steps| - 1]);
    } else {
      assert s.ops[..|s.ops|] == s.ops;
    }
  }

  lemma OpsStep(h: string -> Tokens.Digest, s: System, step: Step)
    ensures |s.ops| <= |Next(h, s, step).ops| && Next(h, s, step).ops[..|s.ops|] == s.ops
  {
  }

  /**
   A good token is used up by the turn that presents it, whether or not the AUTH_OK can be written:
   through any continuation, no AUTH accepts it again, whoever asks.
   */
  lemma AuthUsesUpToken(
    h: string -> Tokens.Digest, s: System, step: Step, raw: string, later: Steps, attempt: TokenRuns.Op)
    requires Reachable(h, s) && Enabled(h, s, step) && step.action.Take?
    requires step.action.input == Frame(Message.Auth(Some(raw))) && s.conns[step.action.conn].state == AwaitAuth
    requires GoodAuth(h, s, raw, step.now) && IsRun(h, Next(h, s, step), later)
    requires attempt.Authenticate? && h(attempt.raw) == h(raw)
    requires After(h, Next(h, s, step), later).clock <= attempt.now
    ensures var records := After(h, Next(h, s, step), later).server.records;
            Tokens.AfterAuth(records, h(raw), attempt.session, attempt.user, attempt.now).1.Failure?
  {
    var s1 := Next(h, s, step);
    ReachableInv(h, s);
    ReachableStep(h, s, step);
    ReachableInv(h, s1);
    RunKeeps(h, s1, later);
    OpsGrow(h, s1, later);
    AcceptedThen(h, s, step, raw);
    StaysAccepted(h, s1.ops, After(h, s1, later).ops, |s.ops|, h(raw));
    RefusedOnceAccepted(h, After(h, s1, later), |s.ops|, attempt);
  }

  lemma StaysAccepted(
    h: string -> Tokens.Digest, ops: seq<TokenRuns.Op>, longer: seq<TokenRuns.Op>, k: nat, x: Tokens.Digest)
    requires |ops| <= |longer| && longer[..|ops|] == ops && TokenHistory.AcceptedAt(h, ops, k, x)
    ensures TokenHistory.AcceptedAt(h, longer, k, x)
  {
    assert longer[..k] == ops[..k] && longer[k] == ops[k];
  }

  lemma RefusedOnceAccepted(h: string -> Tokens.Digest, s: System, k: nat, attempt: TokenRuns.Op)
    requires Inv(h, s) && attempt.Authenticate? && s.clock <= attempt.now
    requires TokenHistory.AcceptedAt(h, s.ops, k, h(attempt.raw))
    ensures Tokens.AfterAuth(s.server.records, h(attempt.raw), attempt.session, attempt.user, attempt.now).1.Failure?
  {
    TokenHistory.NextAuthIff(h, s.ops, attempt);
  }

  lemma AcceptedThen(h: string -> Tokens.Digest, s: System, step: Step, raw: string)
    requires Inv(h, s) && Enabled(h, s, step) && step.action.Take?
    requires step.action.input == Frame(Message.Auth(Some(raw))) && s.conns[step.action.conn].state == AwaitAuth
    requires GoodAuth(h, s, raw, step.now)
    ensures var ops := Next(h, s, step).ops;
            |s.ops| < |ops| && TokenHistory.AcceptedAt(h, ops, |s.ops|, h(raw))
  {
    var check := TokenRuns.Authenticate(raw, s.server.cfg.sessionId, s.server.cfg.ownerUser, step.now);
    TokenHistory.NextAuthIff(h, s.ops, check);
    var ops := Next(h, s, step).ops;
    assert ops[..|s.ops|] == s.ops && ops[|s.ops|] == check;
  }

  // ---------------------------------------------------------------- requests that fail

  /** The input takes the session: a free session, the right id, and for RESUME a token that passes. */
  predicate TakesNow(h: string -> Tokens.Digest, st: Server, c: Conn, input: Input, now: Time)
    requires st.HasSession()
  {
    && c.state == AwaitAttachOrResume && st.Session().state in {Sessions.Created, Sessions.Detached}
    && (|| input == Frame(Message.Attach(Some(st.cfg.sessionId)))
        || (&& input.Frame? && input.msg.Resume? && input.msg.request.Some?
            && input.msg.request.value.0 == st.cfg.sessionId
            && Tokens.ResumeVerdict(st.records, h(input.msg.request.value.1), st.cfg.sessionId,
                                    st.cfg.ownerUser, now).Success?))
  }

  /** The same, with the token judged by the history of the run. */
  ghost predicate Takes(h: string -> Tokens.Digest, s: System, c: Uuid, input: Input, now: Time)
    requires s.Ready() && c in s.conns
  {
    && s.conns[c].state == AwaitAttachOrResume && s.Session().state in {Sessions.Created, Sessions.Detached}
    && (|| input == Frame(Message.Attach(Some(s.server.cfg.sessionId)))
        || (&& input.Frame? && input.msg.Resume? && input.msg.request.Some?
            && input.msg.request.value.0 == s.server.cfg.sessionId
            && GoodResume(h, s, input.msg.request.value.1, now)))
  }

  lemma TakesIff(h: string -> Tokens.Digest, s: System, c: Uuid, input: Input, now: Time)
    requires Inv(h, s) && c in s.conns && s.clock <= now
    ensures TakesNow(h, s.server, s.conns[c], input, now) <==> Takes(h, s, c, input, now)
  {
    if input.Frame? && input.msg.Resume? && input.msg.request.Some? {
      TokenHistory.NextResumeIff(h, s.ops,
        TokenRuns.Resume(input.msg.request.value.1, s.server.cfg.sessionId, s.server.cfg.ownerUser, now));
    }
  }

  predicate PtyFails(st: Server, env: Env) {
    !st.ptyStarted && !env.ptyStarts
  }

  /** What was asked fails, and no ERROR says so, though one could be sent. */
  predicate FailsSilently(st: Server, c: Conn, input: Input, env: Env, takes: bool)
    requires st.HasSession()
  {
    || input.Oversized? || input.CutOff?
    || (takes && (PtyFails(st, env) || !env.dataPlaneOk))
    || (input == Frame(Message.Resize(true)) && c.state == Attached && st.ptyStarted && !env.resizeOk)
    || (input == Frame(Message.Detach) && c.state == Attached && st.Session().Terminal())
  }

  /** The handler did what was asked, and goes on where there is more to come. */
  predicate Served(input: Input, t: Turn) {
    match input
    case Ended => true
    case Frame(Detach) => t.conn.cleanupReason.ExplicitDetach? && t.st.HasSession() && t.st.Session().state.Detached?
    case Frame(Close) => t.conn.state == Closed && t.st.HasSession() && t.st.Session().state.Terminated?
    case Frame(Attach(_)) => t.attached && t.conn.phase.Running?
    case Frame(Resume(_)) => t.attached && t.conn.phase.Running?
    case _ => t.conn.phase.Running?
  }

  predicate Errs(t: Turn) {
    t.reply.Some? && t.reply.value.ErrorReply?
  }

  /** No reply is due, or none is reached. */
  predicate NoReply(st: Server, c: Conn, input: Input, env: Env, takes: bool) {
    || input in {Oversized, CutOff, Ended}
    || (c.state == Attached && input in {Frame(Message.Detach), Frame(Message.Resize(true))})
    || (c.state in {AwaitAttachOrResume, Attached} && input == Frame(Message.Close))
    || (takes && PtyFails(st, env))
  }

  predicate Answered(st: Server, c: Conn, input: Input, env: Env, t: Turn, takes: bool)
    requires st.HasSession()
  {
    var silent := FailsSilently(st, c, input, env, takes);
    && (t.attached <==> takes)
    && (!Served(input, t) && !Errs(t) <==> silent)
    && (Errs(t) ==> !Served(input, t) && t.st == st)
    && (!Served(input, t) ==> !t.conn.phase.Running?)
    && (t.conn.phase.Aborted? <==> silent && input.Frame?)
    && (t.reply.None? <==> NoReply(st, c, input, env, takes))
  }

  lemma AttachTurnAnswered(h: string -> Tokens.Digest, st: Server, c: Conn, sid: Option<Uuid>, env: Env)
    requires ServerInv(st) && c.phase.Running? && ConnInv(st.Session(), c) && env.writeOk
    ensures var input := Frame(Message.Attach(sid));
            Answered(st, c, input, env, TakeTurn(h, st, c, input, env), TakesNow(h, st, c, input, env.now))
  {
  }

  lemma ResumeTurnAnswered(
    h: string -> Tokens.Digest, st: Server, c: Conn, request: Option<(Uuid, string)>, env: Env)
    requires ServerInv(st) && c.phase.Running? && ConnInv(st.Session(), c) && env.writeOk
    ensures var input := Frame(Message.Resume(request));
            Answered(st, c, input, env, TakeTurn(h, st, c, input, env), TakesNow(h, st, c, input, env.now))
  {
  }

  lemma LastTurnAnswered(h: string -> Tokens.Digest, st: Server, c: Conn, msg: Message, env: Env)
    requires ServerInv(st) && c.phase.Running? && ConnInv(st.Session(), c) && env.writeOk
    requires msg.Detach? || msg.Close?
    ensures Answered(st, c, Frame(msg), env, TakeTurn(h, st, c, Frame(msg), env),
                     TakesNow(h, st, c, Frame(msg), env.now))
  {
  }

  lemma AuthTurnAnswered(h: string -> Tokens.Digest, st: Server, c: Conn, token: Option<string>, env: Env)
    requires ServerInv(st) && c.phase.Running? && ConnInv(st.Session(), c) && env.writeOk
    ensures var input := Frame(Message.Auth(token));
            Answered(st, c, input, env, TakeTurn(h, st, c, input, env), TakesNow(h, st, c, input, env.now))
  {
  }

  lemma ResizeTurnAnswered(h: string -> Tokens.Digest, st: Server, c: Conn, parses: bool, env: Env)
    requires ServerInv(st) && c.phase.Running? && ConnInv(st.Session(), c) && env.writeOk
    ensures var input := Frame(Message.Resize(parses));
            Answered(st, c, input, env, TakeTurn(h, st, c, input, env), TakesNow(h, st, c, input, env.now))
  {
  }

  lemma TurnAnswered(h: string -> Tokens.Digest, st: Server, c: Conn, input: Input, env: Env)
    requires ServerInv(st) && c.phase.Running? && ConnInv(st.Session(), c) && env.writeOk
    ensures Answered(st, c, input, env, TakeTurn(h, st, c, input, env), TakesNow(h, st, c, input, env.now))
  {
    match input
    case Frame(Attach(sid)) => AttachTurnAnswered(h, st, c, sid, env);
    case Frame(Resume(request)) => ResumeTurnAnswered(h, st, c, request, env);
    case Frame(Auth(token)) => AuthTurnAnswered(h, st, c, token, env);
    case Frame(Resize(parses)) => ResizeTurnAnswered(h, st, c, parses, env);
    case Frame(Detach) => LastTurnAnswered(h, st, c, Message.Detach, env);
    case Frame(Close) => LastTurnAnswered(h, st, c, Message.Close, env);
    case _ =>
  }

  /**
   Which requests fail without an ERROR, while the stream is up. A failed request is answered by an
   ERROR, with nothing changed, except in exactly four cases: a frame that cannot be read because it
   is too large or cut off, an ATTACH or RESUME that takes the session and then cannot start its PTY
   or its data plane, a RESIZE the PTY refuses, and a DETACH of an ended session. All else that gets
   no reply is DETACH, CLOSE and RESIZE that succeed, and the end of the stream.
   */
  lemma SilentFailuresIff(h: string -> Tokens.Digest, s: System, c: Uuid, input: Input, env: Env)
    requires Reachable(h, s) && c in s.conns && s.conns[c].phase.Running?
    requires env.writeOk && s.clock <= env.now
    ensures s.Ready()
    ensures var t, takes := TakeTurn(h, s.server, s.conns[c], input, env), Takes(h, s, c, input, env.now);
            Answered(s.server, s.conns[c], input, env, t, takes)
  {
    ReachableInv(h, s);
    TakesIff(h, s, c, input, env.now);
    TurnAnswered(h, s.server, s.conns[c], input, env);
  }

  /**
   Any request whose frame is over the limit, whatever it asks for and in whatever state, ends the
   loop: nothing is changed and nothing is said, though the rest of the stream is still to come.
   */
  lemma OversizedRequestIsDropped(
    h: string -> Tokens.Digest, s: System, c: Uuid, payload: Bytes, more: Bytes, parse: Bytes -> Option<Message>,
    env: Env)
    requires Reachable(h, s) && c in s.conns && s.conns[c].phase.Running?
    requires 65536 < |payload| < 4294967296
    ensures var bytes := Framing.Frame(payload) + more;
            var t := TakeTurn(h, s.server, s.conns[c], InputOf(bytes, parse), env);
            && Framing.ReadFrame(bytes) == (Failure(Framing.ControlFrameTooLarge), payload + more)
            && t.reply.None? && t.st == s.server && t.calls == []
            && t.conn == s.conns[c].(phase := if s.conns[c].state == Attached then Leaving else Finished)
  {
    ReachableInv(h, s);
    FramedInput(payload, more, parse);
    Framing.ReadTooLarge(payload, more);
  }

  /** DETACH releases the session, unless it has ended: then the handler returns and says nothing. */
  lemma DetachAnswers(h: string -> Tokens.Digest, s: System, c: Uuid, env: Env)
    requires Reachable(h, s) && c in s.conns && s.conns[c].phase.Running? && s.conns[c].state == Attached
    ensures s.Ready()
    ensures var t := TurnOf(h, s, c, Message.Detach, env);
            && t.reply.None?
            && (t.conn.phase.Aborted? <==> s.Session().Terminal())
            && (t.conn.phase.Leaving? <==> t.st.Session().state.Detached?)
            && (t.conn.phase.Leaving? ==> t.st.detachedAt == Some(env.now))
  {
    ReachableInv(h, s);
  }

  /**
   CLOSE ends the session for any authenticated connection, whoever holds it, and leaves the detach
   clock as it is; before AUTH it is refused and changes nothing.
   */
  lemma CloseAnswers(h: string -> Tokens.Digest, s: System, c: Uuid, env: Env)
    requires Reachable(h, s) && c in s.conns && s.conns[c].phase.Running? && env.writeOk
    ensures s.Ready()
    ensures var t := TurnOf(h, s, c, Message.Close, env);
            if s.conns[c].authed then
              && t.reply.None? && t.st.Session().state.Terminated? && t.st.detachedAt == s.server.detachedAt
              && t.conn.phase == Left(s.conns[c])
            else t.reply == Refusal(PROTOCOL_ERROR) && t.st == s.server
  {
    ReachableInv(h, s);
  }
}
