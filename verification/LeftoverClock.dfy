/**
 CLOSE does not stop the detach clock. When the clock of a session that was closed while detached
 runs out, a check of the accept loop overwrites `Terminated` with `Expired`.
 */
module LeftoverClock {
  import opened Wrappers
  import opened Dispatching
  import opened ServerCore
  import opened Connections
  import opened SessionProtocol
  import opened SessionInvariant
  import opened SessionHistory
  import opened ProtocolRuns
  import opened ProtocolOrphans
  import opened ProtocolTimeouts
  import Tokens

  /** No handler that is still there has attached without detaching. */
  ghost predicate NoClaims(conns: map<Uuid, Conn>) {
    forall c :: c in conns ==> !Claims(conns[c])
  }

  predicate Claims(c: Conn) {
    c.phase in {Running, Leaving} && c.attachedEpoch.Some? && c.cleanupReason.ConnectionEnd?
  }

  /** While the detach clock runs, nobody claims the session. */
  ghost predicate ClockInv(s: System) {
    s.server.detachedAt.Some? ==> NoClaims(s.conns)
  }

  /** After this turn a running clock means no claim; and only the owner starts the clock. */
  predicate ClockTurned(st: Server, c: Conn, t: Turn) {
    && st.HasSession()
    && (t.st.detachedAt.Some? ==> !Claims(t.conn))
    && (t.st.detachedAt.Some? && st.detachedAt.None? ==>
          st.Session().attachedConn == Some(c.id) && !st.Session().Terminal())
  }

  lemma ClockTakeSession(st: Server, c: Conn, resume: bool, env: Env)
    requires st.HasSession() && c.attachedEpoch.None?
    ensures ClockTurned(st, c, TakeSession(st, c, resume, env))
  {
  }

  lemma ClockMessage(h: string -> Tokens.Digest, st: Server, c: Conn, from: ConnectionState, msg: Message, env: Env)
    requires ServerInv(st) && Dispatched(st.Session(), c, from, Kind(msg))
    requires st.detachedAt.Some? ==> c.attachedEpoch.None?
    ensures ClockTurned(st, c, HandleMessage(h, st, c, msg, env))
  {
    match msg
    case Attach(_) => ClockTakeSession(st, c, false, env);
    case Resume(_) => ClockTakeSession(st, c, true, env);
    case _ =>
  }

  lemma ClockTurn(h: string -> Tokens.Digest, st: Server, c: Conn, input: Input, env: Env)
    requires ServerInv(st) && c.phase.Running? && ConnInv(st.Session(), c)
    requires st.detachedAt.Some? ==> !Claims(c)
    ensures ClockTurned(st, c, TakeTurn(h, st, c, input, env))
  {
    if input.Frame? && Dispatch(c.state, Kind(input.msg)).1.Success? {
      ClockMessage(h, st, c.(state := Dispatch(c.state, Kind(input.msg)).0), c.state, input.msg, env);
    }
  }

  /** A claim on a session that goes on is its owner's. */
  lemma OnlyOwnerClaims(s: System, owner: Uuid, d: Uuid)
    requires StateInv(s) && !s.Session().Terminal() && s.Session().attachedConn == Some(owner)
    requires d in s.conns && d != owner
    ensures !Claims(s.conns[d])
  {
  }

  lemma ClockTakeKept(h: string -> Tokens.Digest, s: System, step: Step)
    requires StateInv(s) && ClockInv(s) && Enabled(h, s, step) && step.action.Take?
    ensures ClockInv(Next(h, s, step))
  {
    var a := step.action;
    ClockTurn(h, s.server, s.conns[a.conn], a.input, a.env);
    var s' := Next(h, s, step);
    if s'.server.detachedAt.Some? {
      forall d | d in s'.conns && d != a.conn
        ensures !Claims(s'.conns[d])
      {
        if s.server.detachedAt.None? {
          OnlyOwnerClaims(s, a.conn, d);
        }
      }
    }
  }

  lemma ClockCleanKept(h: string -> Tokens.Digest, s: System, step: Step)
    requires StateInv(s) && ClockInv(s) && Enabled(h, s, step) && step.action.Clean?
    ensures ClockInv(Next(h, s, step))
  {
    var who := step.action.conn;
    var s' := Next(h, s, step);
    if s'.server.detachedAt.Some? {
      forall d | d in s'.conns && d != who
        ensures !Claims(s'.conns[d])
      {
        if s.server.detachedAt.None? {
          OnlyOwnerClaims(s, who, d);
        }
      }
    }
  }

  lemma ClockKept(h: string -> Tokens.Digest, s: System, step: Step)
    requires StateInv(s) && ClockInv(s) && Enabled(h, s, step)
    ensures ClockInv(Next(h, s, step))
  {
    match step.action
    case Take(_, _, _) => ClockTakeKept(h, s, step);
    case Clean(_) => ClockCleanKept(h, s, step);
    case AcceptCheck => AcceptChecksKeep(s.server, step.now);
    case _ =>
  }

  // ---------------------------------------------------------------- closed while detached

  /** A CLOSE that gets through to a detached session. */
  predicate DetachedClose(s: System, step: Step) {
    Closes(s, step) && s.Ready() && s.Session().state.Detached?
  }

  lemma TerminatingMessage(h: string -> Tokens.Digest, st: Server, c: Conn, from: ConnectionState, msg: Message, env: Env)
    requires ServerInv(st) && Dispatched(st.Session(), c, from, Kind(msg))
    ensures var t := HandleMessage(h, st, c, msg, env);
            && t.st.HasSession()
            && (st.Session().state.Terminated? ==>
                  t.st.Session().state.Terminated? && t.st.detachedAt == st.detachedAt)
            && (!st.Session().Terminal() && t.st.Session().state.Terminated? ==>
                  msg.Close? && t.st.detachedAt == st.detachedAt)
            && (msg.Close? ==> t.st.Session().state.Terminated? && t.st.detachedAt == st.detachedAt)
  {
  }

  lemma TerminatingTurn(h: string -> Tokens.Digest, st: Server, c: Conn, input: Input, env: Env)
    requires ServerInv(st) && c.phase.Running? && ConnInv(st.Session(), c)
    ensures var t := TakeTurn(h, st, c, input, env);
            var closes := input == Frame(Message.Close) && Dispatch(c.state, MessageKind.Close).1.Success?;
            && t.st.HasSession()
            && (st.Session().state.Terminated? ==>
                  t.st.Session().state.Terminated? && t.st.detachedAt == st.detachedAt)
            && (!st.Session().Terminal() && t.st.Session().state.Terminated? ==>
                  closes && t.st.detachedAt == st.detachedAt)
            && (closes ==> t.st.Session().state.Terminated? && t.st.detachedAt == st.detachedAt)
  {
    if input.Frame? && Dispatch(c.state, Kind(input.msg)).1.Success? {
      TerminatingMessage(h, st, c.(state := Dispatch(c.state, Kind(input.msg)).0), c.state, input.msg, env);
    }
  }

  /** While the accept loop goes on, a terminated session keeps its clock, and gets it only from a detached one. */
  lemma TerminatedStep(h: string -> Tokens.Digest, s: System, step: Step)
    requires StateInv(s) && ClockInv(s) && Enabled(h, s, step) && Next(h, s, step).stop.None?
    ensures var s' := Next(h, s, step);
            && s'.Ready() && s.stop.None?
            && (s.Session().state.Terminated? || DetachedClose(s, step) ==>
                  s'.Session().state.Terminated? && s'.server.detachedAt == s.server.detachedAt)
            && (!s.Session().Terminal() && s'.Session().state.Terminated? && s'.server.detachedAt.Some? ==>
                  DetachedClose(s, step))
  {
    StepKeeps(h, s, step);
    match step.action
    case Take(c, input, env) => TerminatingTurn(h, s.server, s.conns[c], input, env);
    case Clean(c) => assert s.server.detachedAt.Some? ==> !Claims(s.conns[c]);
    case AcceptCheck => AcceptChecksKeep(s.server, step.now);
    case _ =>
  }

  /** Step `k` closed the session while it was detached. */
  predicate ClosedAt(h: string -> Tokens.Digest, s: System, steps: Steps, k: int) {
    && 0 <= k < |steps| && DetachedClose(After(h, s, steps[..k]), steps[k])
  }

  /** What the run so far has done to a session that has not expired. */
  ghost predicate ClockStory(h: string -> Tokens.Digest, s: System, steps: Steps) {
    var s' := After(h, s, steps);
    && StateInv(s') && ClockInv(s')
    && (s'.stop.None? ==>
          && (forall k :: ClosedAt(h, s, steps, k) ==>
                && s'.Session().state.Terminated?
                && s'.server.detachedAt == After(h, s, steps[..k]).server.detachedAt)
          && (s'.Session().state.Terminated? && s'.server.detachedAt.Some? ==> exists k: int :: ClosedAt(h, s, steps, k)))
  }

  lemma ClosedAtFront(h: string -> Tokens.Digest, s: System, steps: Steps, k: int)
    requires steps != []
    ensures var front := steps[..|steps| - 1];
            ClosedAt(h, s, steps, k) <==>
              if k == |steps| - 1 then DetachedClose(After(h, s, front), steps[k])
              else ClosedAt(h, s, front, k)
    ensures 0 <= k < |steps| ==> steps[..|steps| - 1][..k] == steps[..k]
  {
    var front := steps[..|steps| - 1];
    if 0 <= k < |steps| {
      assert front[..k] == steps[..k];
    }
  }

  lemma StoryStep(h: string -> Tokens.Digest, s: System, steps: Steps)
    requires steps != [] && ClockStory(h, s, steps[..|steps| - 1])
    requires Enabled(h, After(h, s, steps[..|steps| - 1]), steps[|steps| - 1])
    ensures ClockStory(h, s, steps)
  {
    var n := |steps| - 1;
    var front, last := steps[..n], steps[n];
    var before, after := After(h, s, front), After(h, s, steps);
    StepKeeps(h, before, last);
    ClockKept(h, before, last);
    if after.stop.None? {
      TerminatedStep(h, before, last);
      forall k | ClosedAt(h, s, steps, k)
        ensures after.Session().state.Terminated?
        ensures after.server.detachedAt == After(h, s, steps[..k]).server.detachedAt
      {
        ClosedAtFront(h, s, steps, k);
      }
      if after.Session().state.Terminated? && after.server.detachedAt.Some? {
        if before.Session().state.Terminated? {
          var k :| ClosedAt(h, s, front, k);
          ClosedAtFront(h, s, steps, k);
          assert ClosedAt(h, s, steps, k);
        } else {
          assert !before.Session().state.Expired?;
          ClosedAtFront(h, s, steps, n);
          assert ClosedAt(h, s, steps, n);
        }
      }
    }
  }

  lemma {:induction false} RunStory(h: string -> Tokens.Digest, s: System, steps: Steps)
    requires Inv(h, s) && s.conns == map[] && !s.Session().Terminal() && IsRun(h, s, steps)
    ensures ClockStory(h, s, steps)
    decreases |steps|
  {
    if steps != [] {
      RunStory(h, s, steps[..|steps| - 1]);
      StoryStep(h, s, steps);
    }
  }

  /** Released at step `i`, detached from then on, and closed so at step `k`. */
  ghost predicate ReleasedThenClosed(h: string -> Tokens.Digest, s: System, steps: Steps, i: nat, k: nat) {
    i < k < |steps| && DetachedSince(h, s, steps[..k], i) && ClosedAt(h, s, steps, k)
  }

  lemma ClockSinceRelease(h: string -> Tokens.Digest, s: System, steps: Steps, i: nat, k: nat)
    requires ClockStory(h, s, steps) && After(h, s, steps).stop.None?
    requires ReleasedThenClosed(h, s, steps, i, k)
    ensures After(h, s, steps).server.detachedAt == Some(steps[i].now)
  {
    ClockOfRelease(h, s, steps[..k], i);
  }

  lemma ReleaseOfClock(h: string -> Tokens.Digest, s: System, steps: Steps) returns (i: nat, k: nat)
    requires Inv(h, s) && s.attaches == [] && IsRun(h, s, steps) && ClockStory(h, s, steps)
    requires var s' := After(h, s, steps);
             s'.stop.None? && s'.Session().state.Terminated? && s'.server.detachedAt.Some?
    ensures ReleasedThenClosed(h, s, steps, i, k)
  {
    var closed: int :| ClosedAt(h, s, steps, closed);
    k := closed;
    RunPrefix(h, s, steps, k);
    i := DetachClock(h, s, steps[..k]);
  }

  /** One check of a terminated session. */
  lemma CheckOverwrites(st: Server, now: Time)
    requires st.HasSession() && st.Session().state.Terminated?
    ensures var (st', stop) := AfterAcceptChecks(st, now);
            && st'.HasSession()
            && (st'.Session().state.Expired? <==> DetachedLongEnough(st, now))
            && (stop == Some(DetachedSessionTimeout) <==> st'.Session().state.Expired?)
            && (stop == Some(SessionTerminated) <==> st'.Session().state.Terminated?)
  {
  }

  lemma StartStory(h: string -> Tokens.Digest, cfg: Config, raw: string, now: Time, steps: Steps)
    requires IsRun(h, Start(h, cfg, raw, now), steps)
    ensures var s0 := Start(h, cfg, raw, now);
            Inv(h, s0) && s0.attaches == [] && ClockStory(h, s0, steps)
  {
    StartKeeps(h, cfg, raw, now);
    StartHistory(h, cfg, raw, now);
    RunStory(h, Start(h, cfg, raw, now), steps);
  }

  /** In every reachable state: while the detach clock runs, no handler that is still there claims the session. */
  lemma ClockMeansUnclaimed(h: string -> Tokens.Digest, s: System)
    requires Reachable(h, s) && s.server.detachedAt.Some?
    ensures forall c :: c in s.conns && s.conns[c].phase in {Running, Leaving} ==>
              s.conns[c].attachedEpoch.None? || s.conns[c].cleanupReason.ExplicitDetach?
  {
    var cfg, raw, now, steps :|
      IsRun(h, Start(h, cfg, raw, now), steps) && s == After(h, Start(h, cfg, raw, now), steps);
    StartStory(h, cfg, raw, now, steps);
    forall c | c in s.conns
      ensures !Claims(s.conns[c])
    {
    }
  }

  /** A leftover clock has run out: it was started by a release, outlived the close, and is overdue. */
  ghost predicate LeftoverOverdue(h: string -> Tokens.Digest, s: System, steps: Steps, now: Time) {
    exists i: nat, k: nat ::
      ReleasedThenClosed(h, s, steps, i, k)
      && 0 < After(h, s, steps).server.cfg.sessionTimeout <= now - steps[i].now
  }

  lemma OverdueRunsOut(h: string -> Tokens.Digest, s: System, steps: Steps, now: Time)
    requires ClockStory(h, s, steps) && After(h, s, steps).stop.None?
    requires LeftoverOverdue(h, s, steps, now)
    ensures DetachedLongEnough(After(h, s, steps).server, now)
  {
    var i: nat, k: nat :|
      ReleasedThenClosed(h, s, steps, i, k)
      && 0 < After(h, s, steps).server.cfg.sessionTimeout <= now - steps[i].now;
    ClockSinceRelease(h, s, steps, i, k);
  }

  lemma RunsOutOverdue(h: string -> Tokens.Digest, s: System, steps: Steps, now: Time)
    requires Inv(h, s) && s.attaches == [] && IsRun(h, s, steps) && ClockStory(h, s, steps)
    requires var s' := After(h, s, steps); s'.stop.None? && s'.Session().state.Terminated?
    requires DetachedLongEnough(After(h, s, steps).server, now)
    ensures LeftoverOverdue(h, s, steps, now)
  {
    var i, k := ReleaseOfClock(h, s, steps);
    ClockSinceRelease(h, s, steps, i, k);
  }

  /**
   `Terminated` is not final, and exactly when: a check turns it into `Expired`, and reports a
   timeout, if and only if the session was released at some step, closed while still detached,
   and the session timeout has passed since the release.
   */
  lemma TerminatedOverwrittenIff(
    h: string -> Tokens.Digest, cfg: Config, raw: string, now: Time, steps: Steps, check: Step)
    requires IsRun(h, Start(h, cfg, raw, now), steps)
    requires var s := After(h, Start(h, cfg, raw, now), steps);
             && Enabled(h, s, check) && check.action.AcceptCheck?
             && s.Ready() && s.Session().state.Terminated?
    ensures var s0 := Start(h, cfg, raw, now);
            var s' := Next(h, After(h, s0, steps), check);
            && s'.Ready()
            && (s'.Session().state.Expired? <==> LeftoverOverdue(h, s0, steps, check.now))
            && (s'.stop == Some(DetachedSessionTimeout) <==> s'.Session().state.Expired?)
            && (s'.stop == Some(SessionTerminated) <==> s'.Session().state.Terminated?)
  {
    var s0 := Start(h, cfg, raw, now);
    StartStory(h, cfg, raw, now, steps);
    if LeftoverOverdue(h, s0, steps, check.now) {
      OverdueRunsOut(h, s0, steps, check.now);
    } else if DetachedLongEnough(After(h, s0, steps).server, check.now) {
      RunsOutOverdue(h, s0, steps, check.now);
    }
    CheckOverwrites(After(h, s0, steps).server, check.now);
  }
}
