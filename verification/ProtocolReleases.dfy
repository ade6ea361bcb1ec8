/** How a session is let go when its owner's connection ends, and what the exit of its shell does. */
module ProtocolReleases {
  import opened Wrappers
  import opened Dispatching
  import opened ServerCore
  import opened Connections
  import opened SessionProtocol
  import opened SessionInvariant
  import opened ProtocolRuns
  import Sessions
  import Tokens

  /** The server with its session in this state, held by nobody, and the clock set. */
  function LetGo(st: Server, state: Sessions.SessionState, clock: Option<Time>): Server
    requires st.HasSession()
  {
    st.(sessions := st.sessions[st.cfg.sessionId := st.Session().(state := state, attachedConn := None)],
        detachedAt := clock)
  }

  /**
   Exactly what the final cleanup of any connection does, in any reachable state. At the plain end of
   a connection, the session is terminated if the shell has exited, and otherwise a live session is
   detached, with the clock running from now. An ended session with its shell alive, and one that its
   owner had explicitly detached, is left as it is.
   */
  lemma CleanupIsExact(h: string -> Tokens.Digest, s: System, step: Step)
    requires Reachable(h, s) && Enabled(h, s, step) && step.action.Clean?
    ensures s.Ready()
    ensures var x, plainEnd := s.Session(), s.conns[step.action.conn].cleanupReason.ConnectionEnd?;
            Next(h, s, step) == s.(
              clock := step.now,
              conns := s.conns[step.action.conn := s.conns[step.action.conn].(phase := Finished)],
              server :=
                if plainEnd && s.server.ptyExited then LetGo(s.server, Sessions.Terminated, None)
                else if plainEnd && !x.Terminal() then LetGo(s.server, Sessions.Detached, Some(step.now))
                else s.server)
  {
    ReachableInv(h, s);
  }

  /** Whatever cannot be read ends the loop: the cleanup follows if and only if the handler had attached. */
  lemma StreamEndLeavesLoop(h: string -> Tokens.Digest, s: System, c: Uuid, input: Input, env: Env)
    requires Reachable(h, s) && c in s.conns && s.conns[c].phase.Running?
    requires input in {Ended, CutOff, Oversized}
    ensures var t := TakeTurn(h, s.server, s.conns[c], input, env);
            && t.st == s.server && t.reply.None? && t.calls == [] && !t.attached
            && t.conn == s.conns[c].(phase := if s.conns[c].state == Attached then Leaving else Finished)
  {
    ReachableInv(h, s);
  }

  lemma LeavingStep(h: string -> Tokens.Digest, s: System, step: Step, c: Uuid)
    requires Enabled(h, s, step) && c in s.conns && s.conns[c].phase.Leaving?
    requires step.action != Clean(c)
    ensures c in Next(h, s, step).conns && Next(h, s, step).conns[c] == s.conns[c]
  {
  }

  /** A handler that has left its loop waits for its cleanup, whatever the others do. */
  lemma {:induction false} LeavingStays(h: string -> Tokens.Digest, s: System, steps: Steps, c: Uuid)
    requires IsRun(h, s, steps) && c in s.conns && s.conns[c].phase.Leaving?
    requires forall k :: 0 <= k < |steps| ==> steps[k].action != Clean(c)
    ensures c in After(h, s, steps).conns && After(h, s, steps).conns[c] == s.conns[c]
    decreases |steps|
  {
    if steps != [] {
      LeavingStays(h, s, steps[..|steps| - 1], c);
      LeavingStep(h, After(h, s, steps[..|steps| - 1]), steps[|steps| - 1], c);
    }
  }

  lemma {:induction false} ReachableRun(h: string -> Tokens.Digest, s: System, steps: Steps)
    requires Reachable(h, s) && IsRun(h, s, steps)
    ensures Reachable(h, After(h, s, steps))
    decreases |steps|
  {
    if steps != [] {
      ReachableRun(h, s, steps[..|steps| - 1]);
      ReachableStep(h, After(h, s, steps[..|steps| - 1]), steps[|steps| - 1]);
    }
  }

  lemma LeavesForCleanup(h: string -> Tokens.Digest, s: System, read: Step)
    requires Reachable(h, s) && Enabled(h, s, read) && read.action.Take?
    requires read.action.input in {Ended, CutOff, Oversized} && s.conns[read.action.conn].state == Attached
    ensures var s' := Next(h, s, read);
            && read.action.conn in s'.conns
            && s'.conns[read.action.conn].phase.Leaving? && s'.conns[read.action.conn].cleanupReason.ConnectionEnd?
  {
    StreamEndLeavesLoop(h, s, read.action.conn, read.action.input, read.action.env);
    ReachableInv(h, s);
  }

  /** The cleanup of a handler that waits for it without having detached. */
  predicate Released(s1: System, s2: System, c: Uuid, now: Time) {
    && s1.Ready() && s2.Ready() && c in s2.conns
    && s2.server == (if s1.server.ptyExited then LetGo(s1.server, Sessions.Terminated, None)
                     else if s1.Session().Terminal() then s1.server
                     else LetGo(s1.server, Sessions.Detached, Some(now)))
    && s2.Session().attachedConn.None?
    && s2.conns[c].phase.Finished?
  }

  lemma WaitingReleased(h: string -> Tokens.Digest, s: System, clean: Step)
    requires Reachable(h, s) && clean.action.Clean? && Enabled(h, s, clean)
    requires s.conns[clean.action.conn].cleanupReason.ConnectionEnd?
    ensures Released(s, Next(h, s, clean), clean.action.conn, clean.now)
  {
    CleanupIsExact(h, s, clean);
    ReachableInv(h, s);
  }

  /**
   The owner's stream ends; anything may happen before its cleanup, and the cleanup then ends the
   session if the shell has exited by then, and otherwise leaves it detached from that moment on,
   unless it had ended meanwhile. Either way the owner is gone and does not hold it.
   */
  lemma StreamEndReleases(
    h: string -> Tokens.Digest, s: System, read: Step, meanwhile: Steps, clean: Step)
    requires Reachable(h, s) && Enabled(h, s, read) && read.action.Take?
    requires read.action.input in {Ended, CutOff, Oversized} && s.conns[read.action.conn].state == Attached
    requires IsRun(h, Next(h, s, read), meanwhile)
    requires forall k :: 0 <= k < |meanwhile| ==> meanwhile[k].action != Clean(read.action.conn)
    requires var s1 := After(h, Next(h, s, read), meanwhile);
             s1.clock <= clean.now && clean.action == Clean(read.action.conn)
    ensures var s1 := After(h, Next(h, s, read), meanwhile);
            Enabled(h, s1, clean) && Released(s1, Next(h, s1, clean), read.action.conn, clean.now)
  {
    var c, s0 := read.action.conn, Next(h, s, read);
    LeavesForCleanup(h, s, read);
    ReachableStep(h, s, read);
    ReachableRun(h, s0, meanwhile);
    LeavingStays(h, s0, meanwhile, c);
    WaitingReleased(h, After(h, s0, meanwhile), clean);
  }

  // ---------------------------------------------------------------- the shell

  predicate ShellInv(st: Server) {
    st.ptyExited ==> st.ptyStarted
  }

  /** A turn leaves the shell alone, or starts one, if there has been none, for a session it takes. */
  predicate ShellAfter(st: Server, t: Turn, env: Env) {
    if t.attached then
      && (t.st.ptyStarted <==> st.ptyStarted || env.ptyStarts)
      && (t.st.ptyExited <==> st.ptyExited && (st.ptyStarted || !env.ptyStarts))
      && (!t.st.ptyStarted ==> t.conn.phase.Aborted?)
    else t.st.ptyStarted == st.ptyStarted && t.st.ptyExited == st.ptyExited
  }

  lemma TakingAndShell(st: Server, c: Conn, resume: bool, env: Env)
    ensures ShellAfter(st, TakeSession(st, c, resume, env), env)
  {
  }

  lemma AuthAndShell(h: string -> Tokens.Digest, st: Server, c: Conn, token: Option<string>, env: Env)
    ensures ShellAfter(st, HandleAuth(h, st, c, token, env), env)
  {
  }

  lemma MessageAndShell(h: string -> Tokens.Digest, st: Server, c: Conn, msg: Message, env: Env)
    ensures ShellAfter(st, HandleMessage(h, st, c, msg, env), env)
  {
    match msg
    case Auth(token) => AuthAndShell(h, st, c, token, env);
    case Attach(_) => TakingAndShell(st, c, false, env);
    case Resume(_) => TakingAndShell(st, c, true, env);
    case _ =>
  }

  /** A turn that takes the session has its shell started, and a new shell has not exited; or it ends its handler. */
  lemma AttachStartsShell(h: string -> Tokens.Digest, st: Server, c: Conn, input: Input, env: Env)
    ensures ShellAfter(st, TakeTurn(h, st, c, input, env), env)
  {
    if input.Frame? && Dispatch(c.state, Kind(input.msg)).1.Success? {
      MessageAndShell(h, st, c.(state := Dispatch(c.state, Kind(input.msg)).0), input.msg, env);
    }
  }

  lemma ShellStep(h: string -> Tokens.Digest, s: System, step: Step)
    requires Enabled(h, s, step) && ShellInv(s.server)
    ensures ShellInv(Next(h, s, step).server)
    ensures s.server.ptyStarted ==> Next(h, s, step).server.ptyStarted
    ensures Next(h, s, step).server.ptyExited <==> s.server.ptyExited || step.action.PtyExit?
  {
    if step.action.Take? {
      AttachStartsShell(h, s.server, s.conns[step.action.conn], step.action.input, step.action.env);
    }
  }

  ghost predicate ShellExits(steps: Steps) {
    exists k :: 0 <= k < |steps| && steps[k].action.PtyExit?
  }

  lemma {:induction false} RunShell(h: string -> Tokens.Digest, s: System, steps: Steps)
    requires ShellInv(s.server) && IsRun(h, s, steps)
    ensures var s' := After(h, s, steps);
            ShellInv(s'.server) && (s'.server.ptyExited <==> s.server.ptyExited || ShellExits(steps))
    decreases |steps|
  {
    if steps != [] {
      var front, last := steps[..|steps| - 1], steps[|steps| - 1];
      RunShell(h, s, front);
      ShellStep(h, After(h, s, front), last);
      if ShellExits(front) {
        var k :| 0 <= k < |front| && front[k].action.PtyExit?;
        assert steps[k].action.PtyExit?;
      }
      if ShellExits(steps) && !last.action.PtyExit? {
        var k :| 0 <= k < |steps| && steps[k].action.PtyExit?;
        assert front[k].action.PtyExit?;
      }
    }
  }

  /**
   The shell is started once. After any run from the start of the server it counts as exited if and
   only if it did exit in some step: no later attach or resume starts another one.
   */
  lemma ShellStartsOnce(h: string -> Tokens.Digest, cfg: Config, raw: string, now: Time, steps: Steps)
    requires IsRun(h, Start(h, cfg, raw, now), steps)
    ensures var s := After(h, Start(h, cfg, raw, now), steps);
            && (s.server.ptyExited <==> ShellExits(steps))
            && (s.server.ptyExited ==> s.server.ptyStarted)
  {
    RunShell(h, Start(h, cfg, raw, now), steps);
  }
}
