/** When the session's clocks fire, and what had been going on for how long when they do. */
module ProtocolTimeouts {
  import opened Wrappers
  import opened Dispatching
  import opened ServerCore
  import opened Connections
  import opened SessionProtocol
  import opened SessionInvariant
  import opened SessionHistory
  import opened ProtocolRuns
  import Sessions
  import Tokens

  /** The owner gives the session up: by DETACH, or by the cleanup after its connection ended. */
  predicate Releases(h: string -> Tokens.Digest, s: System, step: Step) {
    && s.Ready() && s.Session().state.Attached? && s.Session().attachedConn.Some?
    && var owner := s.Session().attachedConn.value;
       && (|| (step.action.Take? && step.action.conn == owner && step.action.input == Frame(Message.Detach))
           || (step.action.Clean? && step.action.conn == owner))
       && var s' := Next(h, s, step);
          s'.Ready() && s'.Session().state.Detached? && s'.server.detachedAt == Some(step.now)
  }

  lemma DetachedMessage(h: string -> Tokens.Digest, st: Server, c: Conn, from: ConnectionState, msg: Message, env: Env)
    requires ServerInv(st) && Dispatched(st.Session(), c, from, Kind(msg))
    requires var t := HandleMessage(h, st, c, msg, env); t.st.HasSession() && t.st.Session().state.Detached?
    ensures var t := HandleMessage(h, st, c, msg, env);
            || (st.Session().state.Detached? && t.st.detachedAt == st.detachedAt)
            || (msg.Detach? && st.Session().attachedConn == Some(c.id) && t.st.detachedAt == Some(env.now))
  {
  }

  lemma DetachedTurn(h: string -> Tokens.Digest, st: Server, c: Conn, input: Input, env: Env)
    requires ServerInv(st) && c.phase.Running? && ConnInv(st.Session(), c)
    requires var t := TakeTurn(h, st, c, input, env); t.st.HasSession() && t.st.Session().state.Detached?
    ensures var t := TakeTurn(h, st, c, input, env);
            || (st.Session().state.Detached? && t.st.detachedAt == st.detachedAt)
            || (input == Frame(Message.Detach) && st.Session().attachedConn == Some(c.id)
                && t.st.detachedAt == Some(env.now))
  {
    if input.Frame? && Dispatch(c.state, Kind(input.msg)).1.Success? {
      DetachedMessage(h, st, c.(state := Dispatch(c.state, Kind(input.msg)).0), c.state, input.msg, env);
    }
  }

  /** A session found detached was already so, since the same time, or has just been released. */
  lemma DetachedStep(h: string -> Tokens.Digest, s: System, step: Step)
    requires StateInv(s) && Enabled(h, s, step)
    requires var s' := Next(h, s, step); s'.Ready() && s'.Session().state.Detached?
    ensures var s' := Next(h, s, step);
            || (s.Session().state.Detached? && s'.server.detachedAt == s.server.detachedAt)
            || Releases(h, s, step)
  {
    match step.action
    case Take(c, input, env) => DetachedTurn(h, s.server, s.conns[c], input, env);
    case Clean(c) => CleanUpKeeps(s.server, s.conns[c], step.now);
    case AcceptCheck => AcceptChecksKeep(s.server, step.now);
    case _ =>
  }

  /** `steps[i]` released the session, and it has been detached, with that time on its clock, ever since. */
  ghost predicate DetachedSince(h: string -> Tokens.Digest, s: System, steps: Steps, i: nat) {
    && i < |steps| && Releases(h, After(h, s, steps[..i]), steps[i])
    && forall j :: i < j <= |steps| ==>
         && After(h, s, steps[..j]).Ready()
         && After(h, s, steps[..j]).Session().state.Detached?
         && After(h, s, steps[..j]).server.detachedAt == Some(steps[i].now)
  }

  lemma StillDetached(h: string -> Tokens.Digest, s: System, steps: Steps, i: nat)
    requires steps != [] && DetachedSince(h, s, steps[..|steps| - 1], i)
    requires var s' := After(h, s, steps);
             s'.Ready() && s'.Session().state.Detached? && s'.server.detachedAt == Some(steps[i].now)
    ensures DetachedSince(h, s, steps, i)
  {
    var front := steps[..|steps| - 1];
    assert steps[..|steps|] == steps;
    assert front[..i] == steps[..i] && front[i] == steps[i];
    forall j | i < j <= |steps|
      ensures After(h, s, steps[..j]).Ready() && After(h, s, steps[..j]).Session().state.Detached?
      ensures After(h, s, steps[..j]).server.detachedAt == Some(steps[i].now)
    {
      if j < |steps| {
        assert front[..j] == steps[..j];
      }
    }
  }

  lemma JustDetached(h: string -> Tokens.Digest, s: System, steps: Steps)
    requires steps != [] && Releases(h, After(h, s, steps[..|steps| - 1]), steps[|steps| - 1])
    requires var s' := After(h, s, steps); s'.Ready() && s'.Session().state.Detached?
    ensures DetachedSince(h, s, steps, |steps| - 1)
  {
    assert steps[..|steps|] == steps;
  }

  lemma ClockOfRelease(h: string -> Tokens.Digest, s: System, steps: Steps, i: nat)
    requires DetachedSince(h, s, steps, i)
    ensures After(h, s, steps).server.detachedAt == Some(steps[i].now)
  {
    assert steps[..|steps|] == steps;
    assert After(h, s, steps[..|steps|]).Ready();
  }

  lemma NotDetachedAtFirst(s: System)
    requires ServerInv(s.server) && s.Session().attachEpoch == 0
    ensures !s.Session().state.Detached?
  {
  }

  /** A detached session carries the time of the release that detached it. */
  lemma {:induction false} DetachClock(h: string -> Tokens.Digest, s: System, steps: Steps) returns (i: nat)
    requires Inv(h, s) && s.attaches == [] && IsRun(h, s, steps)
    requires var s' := After(h, s, steps); s'.Ready() && s'.Session().state.Detached?
    ensures DetachedSince(h, s, steps, i)
    decreases |steps|
  {
    if steps == [] {
      NotDetachedAtFirst(s);
      assert false;
    } else {
      var front, last := steps[..|steps| - 1], steps[|steps| - 1];
      RunKeeps(h, s, front);
      DetachedStep(h, After(h, s, front), last);
      if Releases(h, After(h, s, front), last) {
        i := |steps| - 1;
        JustDetached(h, s, steps);
      } else {
        i := DetachClock(h, s, front);
        ClockOfRelease(h, s, front, i);
        StillDetached(h, s, steps, i);
      }
    }
  }

  /** Among sessions that have not ended, the detach clock runs exactly while the session is detached. */
  lemma ClockRunsIffDetached(h: string -> Tokens.Digest, s: System)
    requires Reachable(h, s)
    ensures s.Ready()
    ensures !s.Session().Terminal() ==> (s.server.detachedAt.Some? <==> s.Session().state.Detached?)
    ensures s.server.detachedAt.Some? ==> s.server.detachedAt.value <= s.clock
  {
    ReachableInv(h, s);
  }

  /**
   The detached timeout, at the end of any run from the start of the server: a session it ends was
   detached, and had been without a break for `session_timeout`; an attached one is never touched.
   */
  lemma TimeoutAfterWholeDetachment(
    h: string -> Tokens.Digest, cfg: Config, raw: string, now: Time, steps: Steps, check: Step) returns (i: nat)
    requires IsRun(h, Start(h, cfg, raw, now), steps)
    requires var s := After(h, Start(h, cfg, raw, now), steps);
             && Enabled(h, s, check) && check.action.AcceptCheck?
             && s.Ready() && !s.Session().Terminal()
             && Next(h, s, check).stop == Some(DetachedSessionTimeout)
    ensures var s := After(h, Start(h, cfg, raw, now), steps);
            && s.Session().state.Detached?
            && DetachedSince(h, Start(h, cfg, raw, now), steps, i)
            && 0 < s.server.cfg.sessionTimeout <= check.now - steps[i].now
  {
    var s0 := Start(h, cfg, raw, now);
    StartKeeps(h, cfg, raw, now);
    StartHistory(h, cfg, raw, now);
    RunKeeps(h, s0, steps);
    var s := After(h, s0, steps);
    AcceptChecksKeep(s.server, check.now);
    i := DetachClock(h, s0, steps);
    assert steps[..|steps|] == steps;
  }

  predicate DetachedLongEnough(st: Server, now: Time) {
    && 0 < st.cfg.sessionTimeout && st.detachedAt.Some?
    && st.detachedAt.value <= now && st.cfg.sessionTimeout <= now - st.detachedAt.value
  }

  predicate UnattachedTooLong(st: Server, now: Time) {
    && 0 < st.cfg.initialAttachTimeout && st.HasSession() && st.Session().state.Created?
    && st.cfg.createdAt <= now && st.cfg.initialAttachTimeout <= now - st.cfg.createdAt
  }

  /** Exactly when each stop reason is given, in any reachable state. */
  lemma StopReasonIff(h: string -> Tokens.Digest, s: System, check: Step)
    requires Reachable(h, s) && Enabled(h, s, check) && check.action.AcceptCheck?
    ensures s.Ready()
    ensures var stop := Next(h, s, check).stop;
            && (stop == Some(InitialAttachTimeout) <==> UnattachedTooLong(s.server, check.now))
            && (stop == Some(DetachedSessionTimeout) <==> DetachedLongEnough(s.server, check.now))
            && (stop == Some(SessionTerminated) <==>
                  s.Session().state.Terminated? && !DetachedLongEnough(s.server, check.now))
            && (stop == Some(DetachedSessionTimeout) ==> s.Session().state in {Sessions.Detached, Sessions.Terminated})
  {
    ReachableInv(h, s);
  }
}
