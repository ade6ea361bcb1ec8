/**
 A handler that returns early, on a failed write, start or resize, skips its cleanup. The session
 it owned stays attached to a connection that is gone.
 */
module ProtocolOrphans {
  import opened Wrappers
  import opened Dispatching
  import opened ServerCore
  import opened Connections
  import opened SessionProtocol
  import opened SessionInvariant
  import opened SessionHistory
  import opened ProtocolRuns
  import opened ProtocolAnswers
  import Sessions
  import Tokens

  /** The session is held by a handler that has returned without cleanup. */
  predicate Orphaned(s: System) {
    && s.Ready() && !s.Session().Terminal() && s.Session().attachedConn.Some?
    && s.Session().attachedConn.value in s.conns
    && s.conns[s.Session().attachedConn.value].phase.Aborted?
  }

  /** A CLOSE that the dispatcher lets through. */
  predicate Closes(s: System, step: Step) {
    && step.action.Take? && step.action.input == Frame(Message.Close) && step.action.conn in s.conns
    && Dispatch(s.conns[step.action.conn].state, MessageKind.Close).1.Success?
  }

  lemma OrphanMessage(h: string -> Tokens.Digest, st: Server, c: Conn, from: ConnectionState, msg: Message, env: Env)
    requires ServerInv(st) && Dispatched(st.Session(), c, from, Kind(msg))
    requires st.Session().state.Attached? && st.Session().attachedConn != Some(c.id)
    ensures var t := HandleMessage(h, st, c, msg, env);
            && t.st.HasSession()
            && (msg.Close? ==> t.st.Session().state.Terminated?)
            && (!msg.Close? ==> t.st.sessions == st.sessions && t.st.detachedAt == st.detachedAt)
  {
  }

  lemma OrphanTurn(h: string -> Tokens.Digest, st: Server, c: Conn, input: Input, env: Env)
    requires ServerInv(st) && c.phase.Running? && ConnInv(st.Session(), c)
    requires st.Session().state.Attached? && st.Session().attachedConn != Some(c.id)
    ensures var t := TakeTurn(h, st, c, input, env);
            var closes := input == Frame(Message.Close) && Dispatch(c.state, MessageKind.Close).1.Success?;
            && t.st.HasSession()
            && (closes ==> t.st.Session().state.Terminated?)
            && (!closes ==> t.st.sessions == st.sessions && t.st.detachedAt == st.detachedAt)
  {
    if input.Frame? && Dispatch(c.state, Kind(input.msg)).1.Success? {
      OrphanMessage(h, st, c.(state := Dispatch(c.state, Kind(input.msg)).0), c.state, input.msg, env);
    }
  }

  /** One step beside an orphaned session: only a CLOSE moves it. */
  lemma OrphanStep(h: string -> Tokens.Digest, s: System, step: Step)
    requires StateInv(s) && Enabled(h, s, step) && Orphaned(s)
    ensures var s' := Next(h, s, step);
            && s'.Ready()
            && (Closes(s, step) ==> s'.Session().Terminal())
            && (!Closes(s, step) ==> Orphaned(s') && s'.server.sessions == s.server.sessions)
  {
    match step.action
    case Take(c, input, env) => OrphanTurn(h, s.server, s.conns[c], input, env);
    case Clean(c) => CleanUpKeeps(s.server, s.conns[c], step.now);
    case _ =>
  }

  /** Some step of the run is a CLOSE that gets through. */
  ghost predicate SomeClose(h: string -> Tokens.Digest, s: System, steps: Steps) {
    exists k :: 0 <= k < |steps| && Closes(After(h, s, steps[..k]), steps[k])
  }

  lemma SomeCloseStep(h: string -> Tokens.Digest, s: System, steps: Steps)
    requires steps != []
    ensures var front := steps[..|steps| - 1];
            SomeClose(h, s, steps) <==> SomeClose(h, s, front) || Closes(After(h, s, front), steps[|steps| - 1])
  {
    var front := steps[..|steps| - 1];
    assert forall k :: 0 <= k < |front| ==> front[..k] == steps[..k] && front[k] == steps[k];
    if SomeClose(h, s, front) {
      var k :| 0 <= k < |front| && Closes(After(h, s, front[..k]), front[k]);
      assert Closes(After(h, s, steps[..k]), steps[k]);
    }
    if SomeClose(h, s, steps) {
      var k :| 0 <= k < |steps| && Closes(After(h, s, steps[..k]), steps[k]);
      if k < |front| {
        assert Closes(After(h, s, front[..k]), front[k]);
      }
    }
  }

  /** Where a run beside an orphaned session stands: nothing has moved, or a CLOSE has ended it. */
  predicate Stands(s: System, table: Sessions.Table, cfg: Config, closed: bool) {
    && s.Ready() && s.server.cfg == cfg
    && (if closed then s.Session().Terminal() else Orphaned(s) && s.server.sessions == table)
  }

  lemma CfgFixed(h: string -> Tokens.Digest, s: System, step: Step)
    requires StateInv(s) && Enabled(h, s, step)
    ensures Next(h, s, step).server.cfg == s.server.cfg
  {
    if step.action.Take? {
      TurnKeeps(h, s.server, s.conns[step.action.conn], step.action.input, step.action.env);
    }
  }

  lemma StandsStep(h: string -> Tokens.Digest, s: System, step: Step, table: Sessions.Table, cfg: Config, closed: bool)
    requires StateInv(s) && Enabled(h, s, step) && Stands(s, table, cfg, closed)
    ensures Stands(Next(h, s, step), table, cfg, closed || Closes(s, step))
  {
    CfgFixed(h, s, step);
    if closed {
      TerminalStays(h, s, step);
    } else {
      OrphanStep(h, s, step);
    }
  }

  lemma {:induction false} RunStands(h: string -> Tokens.Digest, s: System, steps: Steps)
    requires Inv(h, s) && IsRun(h, s, steps) && Orphaned(s)
    ensures Stands(After(h, s, steps), s.server.sessions, s.server.cfg, SomeClose(h, s, steps))
    decreases |steps|
  {
    if steps != [] {
      var front := steps[..|steps| - 1];
      RunKeeps(h, s, front);
      RunStands(h, s, front);
      SomeCloseStep(h, s, steps);
      StandsStep(h, After(h, s, front), steps[|steps| - 1], s.server.sessions, s.server.cfg, SomeClose(h, s, front));
    }
  }

  /**
   An orphaned session is never released. Through any run it stays with the same owner, at the same
   epoch, with no timeout running, if and only if no CLOSE gets through; and after a CLOSE it has ended.
   */
  lemma OrphanHeldUntilClose(h: string -> Tokens.Digest, s: System, steps: Steps)
    requires Reachable(h, s) && IsRun(h, s, steps) && Orphaned(s)
    ensures var s' := After(h, s, steps);
            && s'.Ready()
            && (SomeClose(h, s, steps) <==> s'.Session().Terminal())
            && (!SomeClose(h, s, steps) <==> s'.server.sessions == s.server.sessions)
            && (!SomeClose(h, s, steps) ==> Orphaned(s') && s'.server.detachedAt.None?)
  {
    ReachableInv(h, s);
    RunKeeps(h, s, steps);
    RunStands(h, s, steps);
  }

  // ---------------------------------------------------------------- how a session is orphaned

  /** While attached, this input is answered with a PONG or an ERROR. */
  predicate WantsReply(input: Input) {
    || input.UnknownFrame?
    || (&& input.Frame?
        && (|| input.msg.Ping? || input.msg == Message.Resize(false)
            || Dispatch(Attached, Kind(input.msg)).1.Failure?))
  }

  /** The turn ends in an early return and leaves the session to a handler that is gone. */
  predicate LeavesHeld(st: Server, c: Conn, input: Input, env: Env, takes: bool)
    requires st.HasSession()
  {
    || (takes && (PtyFails(st, env) || !env.writeOk || !env.dataPlaneOk))
    || (&& c.state == Attached && !st.Session().Terminal()
        && (|| (!env.writeOk && WantsReply(input))
            || (input == Frame(Message.Resize(true)) && st.ptyStarted && !env.resizeOk)))
  }

  /** `LeavesHeld` is exact for this turn. */
  predicate LeftHeldIff(h: string -> Tokens.Digest, st: Server, c: Conn, input: Input, env: Env)
    requires st.HasSession()
  {
    var t := TakeTurn(h, st, c, input, env);
    && t.st.HasSession()
    && (t.conn.phase.Aborted? && t.st.Session().attachedConn == Some(c.id) <==>
          LeavesHeld(st, c, input, env, TakesNow(h, st, c, input, env.now)))
  }

  lemma AttachLeavesHeld(h: string -> Tokens.Digest, st: Server, c: Conn, sid: Option<Uuid>, env: Env)
    requires ServerInv(st) && c.phase.Running? && ConnInv(st.Session(), c)
    ensures LeftHeldIff(h, st, c, Frame(Message.Attach(sid)), env)
  {
  }

  lemma ResumeLeavesHeld(h: string -> Tokens.Digest, st: Server, c: Conn, request: Option<(Uuid, string)>, env: Env)
    requires ServerInv(st) && c.phase.Running? && ConnInv(st.Session(), c)
    ensures LeftHeldIff(h, st, c, Frame(Message.Resume(request)), env)
  {
  }

  lemma AuthLeavesHeld(h: string -> Tokens.Digest, st: Server, c: Conn, token: Option<string>, env: Env)
    requires ServerInv(st) && c.phase.Running? && ConnInv(st.Session(), c)
    ensures LeftHeldIff(h, st, c, Frame(Message.Auth(token)), env)
  {
  }

  lemma LastLeavesHeld(h: string -> Tokens.Digest, st: Server, c: Conn, msg: Message, env: Env)
    requires ServerInv(st) && c.phase.Running? && ConnInv(st.Session(), c)
    requires msg.Detach? || msg.Close?
    ensures LeftHeldIff(h, st, c, Frame(msg), env)
  {
  }

  lemma TurnLeavesHeld(h: string -> Tokens.Digest, st: Server, c: Conn, input: Input, env: Env)
    requires ServerInv(st) && c.phase.Running? && ConnInv(st.Session(), c)
    ensures LeftHeldIff(h, st, c, input, env)
  {
    match input
    case Frame(Attach(sid)) => AttachLeavesHeld(h, st, c, sid, env);
    case Frame(Resume(request)) => ResumeLeavesHeld(h, st, c, request, env);
    case Frame(Auth(token)) => AuthLeavesHeld(h, st, c, token, env);
    case Frame(Detach) => LastLeavesHeld(h, st, c, Message.Detach, env);
    case Frame(Close) => LastLeavesHeld(h, st, c, Message.Close, env);
    case _ =>
  }

  /** Exactly when the turn of a running handler orphans the session. */
  lemma TurnOrphansIff(h: string -> Tokens.Digest, s: System, c: Uuid, input: Input, env: Env)
    requires Reachable(h, s) && c in s.conns && s.conns[c].phase.Running? && s.clock <= env.now
    ensures s.Ready()
    ensures var t := TakeTurn(h, s.server, s.conns[c], input, env);
            && t.st.HasSession()
            && (t.conn.phase.Aborted? && t.st.Session().attachedConn == Some(c) <==>
                  LeavesHeld(s.server, s.conns[c], input, env, Takes(h, s, c, input, env.now)))
  {
    ReachableInv(h, s);
    TakesIff(h, s, c, input, env.now);
    TurnLeavesHeld(h, s.server, s.conns[c], input, env);
  }

  /** The step orphans the session: such a turn, or the end of the owner's task without cleanup. */
  ghost predicate Orphans(h: string -> Tokens.Digest, s: System, step: Step) {
    && s.Ready()
    && match step.action
       case Take(c, input, env) =>
         c in s.conns && LeavesHeld(s.server, s.conns[c], input, env, Takes(h, s, c, input, env.now))
       case Abandon(c) => s.Session().attachedConn == Some(c)
       case _ => false
  }

  lemma TakeOrphansIff(h: string -> Tokens.Digest, s: System, step: Step)
    requires Inv(h, s) && Enabled(h, s, step) && !Orphaned(s) && step.action.Take?
    ensures Orphaned(Next(h, s, step)) <==> Orphans(h, s, step)
  {
    var a := step.action;
    TakesIff(h, s, a.conn, a.input, step.now);
    TurnLeavesHeld(h, s.server, s.conns[a.conn], a.input, a.env);
    TurnKeeps(h, s.server, s.conns[a.conn], a.input, a.env);
    OwnerAfterTurn(s, a.conn, TakeTurn(h, s.server, s.conns[a.conn], a.input, a.env));
  }

  /** A turn makes no other handler the owner, and does not end one. */
  lemma OwnerAfterTurn(s: System, c: Uuid, t: Turn)
    requires StateInv(s) && !Orphaned(s) && c in s.conns && s.conns[c].phase.Running?
    requires ServerInv(t.st) && Moves(s.Session(), t.st.Session(), c) && t.conn.id == c
    ensures Orphaned(AfterTake(s, c, t)) <==> t.conn.phase.Aborted? && t.st.Session().attachedConn == Some(c)
  {
  }

  lemma NoOrphanBesideOwner(h: string -> Tokens.Digest, s: System, step: Step)
    requires Inv(h, s) && Enabled(h, s, step) && Orphaned(s)
    ensures !Orphans(h, s, step)
  {
  }

  /** One step: the session is orphaned if the step does it, or if it was so and no CLOSE gets through. */
  lemma OrphanedStepIff(h: string -> Tokens.Digest, s: System, step: Step)
    requires Inv(h, s) && Enabled(h, s, step)
    ensures Orphaned(Next(h, s, step)) <==> Orphans(h, s, step) || (Orphaned(s) && !Closes(s, step))
  {
    if Orphaned(s) {
      OrphanStep(h, s, step);
      NoOrphanBesideOwner(h, s, step);
    } else {
      match step.action
      case Take(_, _, _) => TakeOrphansIff(h, s, step);
      case Clean(c) => CleanUpKeeps(s.server, s.conns[c], step.now);
      case AcceptCheck => AcceptChecksKeep(s.server, step.now);
      case _ =>
    }
  }

  /** Step `k` orphaned the session, and no CLOSE has got through since. */
  ghost predicate OrphanedBy(h: string -> Tokens.Digest, s: System, steps: Steps, k: int) {
    && 0 <= k < |steps| && Orphans(h, After(h, s, steps[..k]), steps[k])
    && forall j :: k < j < |steps| ==> !Closes(After(h, s, steps[..j]), steps[j])
  }

  lemma OrphanedByStep(h: string -> Tokens.Digest, s: System, steps: Steps, k: int)
    requires steps != []
    ensures var front, last := steps[..|steps| - 1], steps[|steps| - 1];
            OrphanedBy(h, s, steps, k) <==>
              if k == |steps| - 1 then Orphans(h, After(h, s, front), last)
              else OrphanedBy(h, s, front, k) && !Closes(After(h, s, front), last)
  {
    var front := steps[..|steps| - 1];
    assert forall j :: 0 <= j < |front| ==> front[..j] == steps[..j] && front[j] == steps[j];
  }

  lemma {:induction false} RunOrphanedIff(h: string -> Tokens.Digest, s: System, steps: Steps)
    requires Inv(h, s) && !Orphaned(s) && IsRun(h, s, steps)
    ensures Orphaned(After(h, s, steps)) <==> exists k :: OrphanedBy(h, s, steps, k)
    decreases |steps|
  {
    if steps != [] {
      var front, n := steps[..|steps| - 1], |steps| - 1;
      RunOrphanedIff(h, s, front);
      RunKeeps(h, s, front);
      OrphanedStepIff(h, After(h, s, front), steps[n]);
      OrphanedByStep(h, s, steps, n);
      if k :| OrphanedBy(h, s, front, k) {
        OrphanedByStep(h, s, steps, k);
      }
      if k :| OrphanedBy(h, s, steps, k) {
        OrphanedByStep(h, s, steps, k);
      }
    }
  }

  /**
   When a session is held by nobody that is there: after any run from the start of the server, if
   and only if some step orphaned it and no CLOSE has got through since.
   */
  lemma OrphanedIff(h: string -> Tokens.Digest, cfg: Config, raw: string, now: Time, steps: Steps)
    requires IsRun(h, Start(h, cfg, raw, now), steps)
    ensures var s0 := Start(h, cfg, raw, now);
            Orphaned(After(h, s0, steps)) <==> exists k :: OrphanedBy(h, s0, steps, k)
  {
    StartKeeps(h, cfg, raw, now);
    StartHistory(h, cfg, raw, now);
    RunOrphanedIff(h, Start(h, cfg, raw, now), steps);
  }

  /** It happens: a handler that attaches and then cannot write a PONG. */
  lemma FailedReplyOrphans(h: string -> Tokens.Digest, s: System, c: Uuid, env: Env)
    requires Reachable(h, s) && c in s.conns && s.conns[c].phase.Running?
    requires s.conns[c].state == Attached && s.Ready() && !s.Session().Terminal()
    requires env.now == s.clock && !env.writeOk
    ensures var step := Step(s.clock, Take(c, Frame(Message.Ping), env));
            Enabled(h, s, step) && Orphaned(Next(h, s, step))
  {
    ReachableInv(h, s);
  }
}
