/** Runs in which a request fails and no ERROR says so, one for each kind, and one that orphans the session. */
module FailureRuns {
  import opened Wrappers
  import opened Dispatching
  import opened ServerCore
  import opened Connections
  import opened SessionProtocol
  import opened ProtocolRuns
  import opened ProtocolAnswers
  import opened ProtocolOrphans
  import opened ClosedThenExpired
  import Tokens

  /** In a reachable state, with the stream up, this turn fails to do what is asked and sends no ERROR. */
  ghost predicate UnreportedFailure(h: string -> Tokens.Digest, s: System, c: Uuid, input: Input, env: Env) {
    && Reachable(h, s) && c in s.conns && s.conns[c].phase.Running? && env.writeOk && env.now == s.clock
    && var t := TakeTurn(h, s.server, s.conns[c], input, env);
       !Served(input, t) && !Errs(t)
  }

  lemma Unreported(h: string -> Tokens.Digest, s: System, c: Uuid, input: Input, env: Env)
    requires Reachable(h, s) && c in s.conns && s.conns[c].phase.Running? && env.writeOk && env.now == s.clock
    requires s.Ready() && FailsSilently(s.server, s.conns[c], input, env, Takes(h, s, c, input, env.now))
    ensures UnreportedFailure(h, s, c, input, env)
  {
    SilentFailuresIff(h, s, c, input, env);
  }

  /** A frame that is too large, or cut off, sent by an authenticated connection. */
  lemma UnreadableFrame(h: string -> Tokens.Digest, cfg: Config, a: string, b: string, input: Input)
    returns (s: System, env: Env)
    requires 0 < cfg.authTokenTtl && h(a) != h(b) && input in {Oversized, CutOff}
    ensures UnreportedFailure(h, s, 1, input, env)
  {
    s := FirstVisitor(h, cfg, a, b);
    env := Calm(0, []);
    Unreported(h, s, 1, input, env);
  }

  /** An ATTACH that takes the session, and then cannot start its PTY, or its data plane. */
  lemma AttachWithoutTerminal(h: string -> Tokens.Digest, cfg: Config, a: string, b: string, noPty: bool)
    returns (s: System, env: Env)
    requires 0 < cfg.authTokenTtl && h(a) != h(b)
    ensures UnreportedFailure(h, s, 1, Frame(Message.Attach(Some(cfg.sessionId))), env)
    ensures env == (if noPty then Calm(0, []).(ptyStarts := false) else Calm(0, []).(dataPlaneOk := false))
  {
    s := FirstVisitor(h, cfg, a, b);
    env := if noPty then Calm(0, []).(ptyStarts := false) else Calm(0, []).(dataPlaneOk := false);
    Unreported(h, s, 1, Frame(Message.Attach(Some(cfg.sessionId))), env);
  }

  /** A RESIZE that the PTY refuses. */
  lemma RefusedResize(h: string -> Tokens.Digest, cfg: Config, a: string, b: string) returns (s: System, env: Env)
    requires 0 < cfg.authTokenTtl && h(a) != h(b)
    ensures UnreportedFailure(h, s, 1, Frame(Message.Resize(true)), env)
  {
    s := FirstHolder(h, cfg, a, b);
    env := Calm(0, []).(resizeOk := false);
    Unreported(h, s, 1, Frame(Message.Resize(true)), env);
  }

  /** The first connection holds the session, and a second one has authenticated. */
  lemma HeldWithVisitor(h: string -> Tokens.Digest, cfg: Config, a: string, b: string, c: string, d: string)
    returns (s: System)
    requires 0 < cfg.authTokenTtl && FourTokens(h, a, b, c, d)
    ensures Reachable(h, s) && s.clock == 0 && s.Ready()
    ensures 1 in s.conns && s.conns[1].phase.Running? && s.conns[1].state == Attached
    ensures 2 in s.conns && s.conns[2] == Greeted(2)
  {
    s := FirstHolder(h, cfg, a, b);
    s := GetsNewToken(h, s, c);
    s := SaysHello(h, s, 2);
    s := SaysAuth(h, s, 2, c, d);
  }

  /** A DETACH after somebody else has closed the session. */
  lemma DetachAfterEnd(h: string -> Tokens.Digest, cfg: Config, a: string, b: string, c: string, d: string)
    returns (s: System, env: Env)
    requires 0 < cfg.authTokenTtl && FourTokens(h, a, b, c, d)
    ensures UnreportedFailure(h, s, 1, Frame(Message.Detach), env)
  {
    s := HeldWithVisitor(h, cfg, a, b, c, d);
    s := Ends(h, s, 2);
    env := Calm(0, []);
    Unreported(h, s, 1, Frame(Message.Detach), env);
  }

  /** A session that is held by nobody that is there: its owner could not write a PONG. */
  lemma OrphanReached(h: string -> Tokens.Digest, cfg: Config, a: string, b: string) returns (s: System)
    requires 0 < cfg.authTokenTtl && h(a) != h(b)
    ensures Reachable(h, s) && Orphaned(s) && s.server.detachedAt.None?
  {
    s := FirstHolder(h, cfg, a, b);
    var env := Calm(0, []).(writeOk := false);
    FailedReplyOrphans(h, s, 1, env);
    var ping := Step(0, Take(1, Frame(Message.Ping), env));
    ReachableStep(h, s, ping);
    s := Next(h, s, ping);
    ReachableInv(h, s);
  }
}
