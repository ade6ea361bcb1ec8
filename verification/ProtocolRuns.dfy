/** Runs of the interleaved server, and what holds in every state they reach. */
module ProtocolRuns {
  import opened Wrappers
  import opened Dispatching
  import opened ServerCore
  import opened Connections
  import opened SessionProtocol
  import opened SessionInvariant
  import opened SessionHistory
  import opened Counting
  import Sessions
  import Tokens
  import TokenRuns
  import TokenAccounting

  type Steps = seq<Step>

  /** The state after a sequence of steps. */
  function After(h: string -> Tokens.Digest, s: System, steps: Steps): System
    decreases |steps|
  {
    if steps == [] then s else Next(h, After(h, s, steps[..|steps| - 1]), steps[|steps| - 1])
  }

  /** Every step was possible when it was taken. */
  predicate IsRun(h: string -> Tokens.Digest, s: System, steps: Steps)
    decreases |steps|
  {
    steps == [] ||
    (&& IsRun(h, s, steps[..|steps| - 1])
     && Enabled(h, After(h, s, steps[..|steps| - 1]), steps[|steps| - 1]))
  }

  /** A state the server can reach, with the bootstrap token `raw` issued at `now`. */
  ghost predicate Reachable(h: string -> Tokens.Digest, s: System) {
    exists cfg, raw, now, steps ::
      IsRun(h, Start(h, cfg, raw, now), steps) && s == After(h, Start(h, cfg, raw, now), steps)
  }

  ghost predicate Inv(h: string -> Tokens.Digest, s: System) {
    StateInv(s) && HistoryInv(h, s)
  }

  lemma {:induction false} RunKeeps(h: string -> Tokens.Digest, s: System, steps: Steps)
    requires Inv(h, s) && IsRun(h, s, steps)
    ensures Inv(h, After(h, s, steps))
    decreases |steps|
  {
    if steps != [] {
      RunKeeps(h, s, steps[..|steps| - 1]);
      StepKeeps(h, After(h, s, steps[..|steps| - 1]), steps[|steps| - 1]);
      HistoryKeeps(h, After(h, s, steps[..|steps| - 1]), steps[|steps| - 1]);
    }
  }

  lemma ReachableInv(h: string -> Tokens.Digest, s: System)
    requires Reachable(h, s)
    ensures Inv(h, s)
  {
    var cfg, raw, now, steps :|
      IsRun(h, Start(h, cfg, raw, now), steps) && s == After(h, Start(h, cfg, raw, now), steps);
    StartKeeps(h, cfg, raw, now);
    StartHistory(h, cfg, raw, now);
    RunKeeps(h, Start(h, cfg, raw, now), steps);
  }

  lemma RunExtends(h: string -> Tokens.Digest, s: System, steps: Steps, step: Step)
    requires IsRun(h, s, steps) && Enabled(h, After(h, s, steps), step)
    ensures IsRun(h, s, steps + [step]) && After(h, s, steps + [step]) == Next(h, After(h, s, steps), step)
  {
    var longer := steps + [step];
    assert longer[..|longer| - 1] == steps && longer[|longer| - 1] == step;
  }

  /** What can be reached can be reached one step further. */
  lemma ReachableStep(h: string -> Tokens.Digest, s: System, step: Step)
    requires Reachable(h, s) && Enabled(h, s, step)
    ensures Reachable(h, Next(h, s, step))
  {
    var cfg, raw, now, steps :|
      IsRun(h, Start(h, cfg, raw, now), steps) && s == After(h, Start(h, cfg, raw, now), steps);
    RunExtends(h, Start(h, cfg, raw, now), steps, step);
  }

  lemma ReachableStart(h: string -> Tokens.Digest, cfg: Config, raw: string, now: Time)
    ensures Reachable(h, Start(h, cfg, raw, now))
  {
    assert IsRun(h, Start(h, cfg, raw, now), []);
  }

  lemma {:induction false} RunPrefix(h: string -> Tokens.Digest, s: System, steps: Steps, k: nat)
    requires IsRun(h, s, steps) && k <= |steps|
    ensures IsRun(h, s, steps[..k])
    ensures k < |steps| ==> Enabled(h, After(h, s, steps[..k]), steps[k])
    ensures k < |steps| ==> After(h, s, steps[..k + 1]) == Next(h, After(h, s, steps[..k]), steps[k])
    decreases |steps|
  {
    if k == |steps| {
      assert steps[..k] == steps;
    } else {
      var front := steps[..|steps| - 1];
      assert front[..k] == steps[..k];
      assert steps[..k + 1][..k] == steps[..k];
      if k < |front| {
        RunPrefix(h, s, front, k);
      }
    }
  }

  // ---------------------------------------------------------------- ownership

  /**
   Exclusive ownership. Every handler that attached and has not detached owns the session at its
   own epoch, unless the session has ended; so two of them are never there at once.
   */
  lemma ExclusiveOwnership(h: string -> Tokens.Digest, s: System, c: Uuid)
    requires Reachable(h, s) && c in s.conns && s.conns[c].phase in {Running, Leaving}
    requires s.conns[c].attachedEpoch.Some? && s.conns[c].cleanupReason.ConnectionEnd?
    ensures s.Ready()
    ensures s.Session().Terminal() ||
            (&& s.Session().attachedConn == Some(c)
             && s.conns[c].attachedEpoch == Some(s.Session().attachEpoch)
             && forall d | d in s.conns && d != c && s.conns[d].phase in {Running, Leaving} ::
                  s.conns[d].attachedEpoch.None? || s.conns[d].cleanupReason.ExplicitDetach?)
  {
    ReachableInv(h, s);
  }

  /**
   `finalize_connection_cleanup` at any point of any run, its unguarded `terminate` included: a
   session held by another connection is left exactly as it was, and the connection cleaned up
   does not own the session afterwards.
   */
  lemma CleanupNeverDisturbs(h: string -> Tokens.Digest, s: System, step: Step)
    requires Reachable(h, s) && Enabled(h, s, step) && step.action.Clean?
    ensures var s' := Next(h, s, step);
            && s.Ready() && s'.Ready()
            && (s.Session().attachedConn.Some? && s.Session().attachedConn != Some(step.action.conn) ==>
                  s'.server.sessions == s.server.sessions && s'.server.detachedAt == s.server.detachedAt)
            && s'.Session().attachedConn != Some(step.action.conn)
  {
    ReachableInv(h, s);
    CleanUpKeeps(s.server, s.conns[step.action.conn], step.now);
  }

  lemma FinishedStays(h: string -> Tokens.Digest, s: System, step: Step, c: Uuid)
    requires Enabled(h, s, step) && c in s.conns && s.conns[c].phase.Finished?
    ensures c in Next(h, s, step).conns && Next(h, s, step).conns[c].phase.Finished?
  {
  }

  lemma {:induction false} FinishedForever(h: string -> Tokens.Digest, s: System, steps: Steps, c: Uuid)
    requires IsRun(h, s, steps) && c in s.conns && s.conns[c].phase.Finished?
    ensures c in After(h, s, steps).conns && After(h, s, steps).conns[c].phase.Finished?
    decreases |steps|
  {
    if steps != [] {
      FinishedForever(h, s, steps[..|steps| - 1], c);
      FinishedStays(h, After(h, s, steps[..|steps| - 1]), steps[|steps| - 1], c);
    }
  }

  /** A handler that has finished never owns the session again, in any continuation. */
  lemma FinishedNeverOwns(h: string -> Tokens.Digest, s: System, steps: Steps, c: Uuid)
    requires Reachable(h, s) && IsRun(h, s, steps) && c in s.conns && s.conns[c].phase.Finished?
    ensures After(h, s, steps).Ready() && After(h, s, steps).Session().attachedConn != Some(c)
  {
    ReachableInv(h, s);
    RunKeeps(h, s, steps);
    FinishedForever(h, s, steps, c);
  }

  // ---------------------------------------------------------------- lockstep

  /** At every turn `authed` and `attached_epoch` say what the dispatcher says; it is never Closed. */
  lemma HandlerInLockstep(h: string -> Tokens.Digest, s: System, c: Uuid)
    requires Reachable(h, s) && c in s.conns && s.conns[c].phase.Running?
    ensures var k := s.conns[c];
            && (k.authed <==> k.state in {AwaitAttachOrResume, Attached})
            && (k.attachedEpoch.Some? <==> k.state == Attached)
            && k.state != Closed
  {
    ReachableInv(h, s);
  }

  lemma ArmsReached(x: Sessions.Session, c: Conn, kind: MessageKind)
    requires ConnInv(x, c) && c.phase.Running? && Dispatch(c.state, kind).1.Success?
    ensures !kind.Pong? && !kind.Error?
    ensures kind.Attach? || kind.Resume? ==> c.authed && c.attachedEpoch.None?
    ensures kind.Detach? ==> c.attachedEpoch.Some?
  {
  }

  /** So a message that gets past the dispatcher never meets the "before AUTH" or the PONG/ERROR branch. */
  lemma DeadBranches(h: string -> Tokens.Digest, s: System, c: Uuid, msg: Message)
    requires Reachable(h, s) && c in s.conns && s.conns[c].phase.Running?
    requires Dispatch(s.conns[c].state, Kind(msg)).1.Success?
    ensures !msg.Pong? && !msg.Error?
    ensures msg.Attach? || msg.Resume? ==> s.conns[c].authed && s.conns[c].attachedEpoch.None?
    ensures msg.Detach? ==> s.conns[c].attachedEpoch.Some?
  {
    ReachableInv(h, s);
    ArmsReached(s.Session(), s.conns[c], Kind(msg));
  }

  // ---------------------------------------------------------------- the end of a session

  lemma TerminalStays(h: string -> Tokens.Digest, s: System, step: Step)
    requires StateInv(s) && Enabled(h, s, step) && s.Session().Terminal()
    ensures Next(h, s, step).Ready() && Next(h, s, step).Session().Terminal()
    ensures Next(h, s, step).Session().attachEpoch == s.Session().attachEpoch
  {
    StepKeeps(h, s, step);
    match step.action
    case Take(c, input, env) =>
      TurnKeeps(h, s.server, s.conns[c], input, env);
      TurnRecorded(h, s.server, s.conns[c], input, env);
      NoAttachWhenTerminal(h, s.server, s.conns[c], input, env);
    case Clean(c) => CleanUpKeeps(s.server, s.conns[c], step.now);
    case AcceptCheck => AcceptChecksKeep(s.server, step.now);
    case _ =>
  }

  /** Once ended, always ended: no step of any run brings the session back or attaches to it. */
  lemma {:induction false} EndIsFinal(h: string -> Tokens.Digest, s: System, steps: Steps)
    requires Reachable(h, s) && IsRun(h, s, steps) && s.Ready() && s.Session().Terminal()
    ensures var s' := After(h, s, steps);
            && s'.Ready() && s'.Session().Terminal() && s'.Session().attachedConn.None?
            && s'.Session().attachEpoch == s.Session().attachEpoch
    decreases |steps|
  {
    ReachableInv(h, s);
    RunKeeps(h, s, steps);
    if steps != [] {
      var front := steps[..|steps| - 1];
      RunKeeps(h, s, front);
      EndIsFinal(h, s, front);
      TerminalStays(h, After(h, s, front), steps[|steps| - 1]);
    }
  }

  /** What the accept loop says when it stops is so. */
  lemma StopReasonsTruthful(h: string -> Tokens.Digest, s: System, step: Step)
    requires Reachable(h, s) && Enabled(h, s, step) && step.action.AcceptCheck?
    ensures var s' := Next(h, s, step);
            && s'.Ready()
            && s'.stop != Some(SessionExpired)
            && (s'.stop in {Some(InitialAttachTimeout), Some(DetachedSessionTimeout)} ==> s'.Session().state.Expired?)
            && (s'.stop == Some(SessionTerminated) ==> s'.Session().state.Terminated?)
            && (s'.stop.None? ==> !s'.Session().Terminal() && s'.server == s.server)
            && (s'.stop == Some(InitialAttachTimeout) ==> s.attaches == [])
  {
    ReachableInv(h, s);
    AcceptChecksKeep(s.server, step.now);
  }

  /** The session is Created exactly while nobody has attached and it has not ended. */
  lemma CreatedIffNeverAttached(h: string -> Tokens.Digest, s: System)
    requires Reachable(h, s)
    ensures s.Ready()
    ensures s.Session().state.Created? <==> s.attaches == [] && !s.Session().Terminal()
    ensures s.Session().state.Detached? ==> s.attaches != []
  {
    ReachableInv(h, s);
  }

  lemma {:induction false} AttachesStay(h: string -> Tokens.Digest, s: System, steps: Steps)
    ensures s.attaches != [] ==> After(h, s, steps).attaches != []
    decreases |steps|
  {
    if steps != [] {
      AttachesStay(h, s, steps[..|steps| - 1]);
    }
  }

  /** After the first attach the initial timeout is disarmed for good. */
  lemma InitialTimeoutDisarmed(h: string -> Tokens.Digest, s: System, steps: Steps)
    requires Reachable(h, s) && IsRun(h, s, steps) && s.attaches != []
    ensures After(h, s, steps).attaches != [] && After(h, s, steps).stop != Some(InitialAttachTimeout)
  {
    ReachableInv(h, s);
    RunKeeps(h, s, steps);
    AttachesStay(h, s, steps);
  }

  lemma StopStep(h: string -> Tokens.Digest, s: System, step: Step)
    requires Enabled(h, s, step)
    ensures s.stop.Some? ==> Next(h, s, step).stop == s.stop
    ensures s.stop.None? ==> (Next(h, s, step).stop == Some(EndpointClosed) <==> step.action.EndpointClose?)
  {
  }

  ghost predicate EndpointGone(steps: Steps) {
    exists k :: 0 <= k < |steps| && steps[k].action.EndpointClose?
  }

  /** The loop stops once, for one reason, and for EndpointClosed if and only if the endpoint was closed under it. */
  lemma {:induction false} StopsOnce(h: string -> Tokens.Digest, s: System, steps: Steps)
    requires IsRun(h, s, steps)
    ensures s.stop.Some? ==> After(h, s, steps).stop == s.stop
    ensures s.stop.None? ==> (After(h, s, steps).stop == Some(EndpointClosed) <==> EndpointGone(steps))
    decreases |steps|
  {
    if steps != [] {
      var front, last := steps[..|steps| - 1], steps[|steps| - 1];
      StopsOnce(h, s, front);
      StopStep(h, After(h, s, front), last);
      if EndpointGone(front) {
        var k :| 0 <= k < |front| && front[k].action.EndpointClose?;
        assert steps[k].action.EndpointClose?;
      }
      if EndpointGone(steps) && !last.action.EndpointClose? {
        var k :| 0 <= k < |steps| && steps[k].action.EndpointClose?;
        assert front[k].action.EndpointClose?;
      }
    }
  }

  /**
   Nobody waits for anybody: in every state a handler in its loop may read anything, one that has left
   it may be cleaned up or one in it cut short, the store may be swept and anybody may connect; the
   accept loop acts until it stops, the shell once it has been started.
   */
  lemma NobodyWaits(h: string -> Tokens.Digest, s: System, now: Time)
    requires s.clock <= now
    ensures forall c, input, env: Env ::
              c in s.conns && s.conns[c].phase.Running? && env.now == now && !TokenRuns.Issued(h, s.ops, h(env.token))
              ==> Enabled(h, s, Step(now, Take(c, input, env)))
    ensures forall c :: c in s.conns && s.conns[c].phase.Running? ==> Enabled(h, s, Step(now, Abandon(c)))
    ensures forall c :: c in s.conns && s.conns[c].phase.Leaving? ==> Enabled(h, s, Step(now, Clean(c)))
    ensures forall c :: c !in s.conns ==> Enabled(h, s, Step(now, Connect(c)))
    ensures forall retention :: Enabled(h, s, Step(now, Sweep(retention)))
    ensures forall req, raw :: !TokenRuns.Issued(h, s.ops, h(raw)) ==> Enabled(h, s, Step(now, Renew(req, raw)))
    ensures s.stop.None? ==> Enabled(h, s, Step(now, AcceptCheck)) && Enabled(h, s, Step(now, EndpointClose))
    ensures s.server.ptyStarted ==>
              Enabled(h, s, Step(now, PtyExit)) && forall chunk :: Enabled(h, s, Step(now, Output(chunk)))
  {
  }

  // ---------------------------------------------------------------- accounting

  /**
   Over any run: each attach is a different connection's, and each of these has authenticated. As many
   auth tokens were used up, and as many resume tokens issued, as connections have authenticated;
   `AuthPairing` says which belongs to which. Up to the `u64` bound the epoch
   is the number of attaches.
   */
  lemma Accounting(h: string -> Tokens.Digest, s: System)
    requires Reachable(h, s)
    ensures s.Ready()
    ensures Distinct(s.attaches) && Distinct(s.auths) && forall c :: c in s.attaches ==> c in s.auths
    ensures s.Session().attachEpoch ==
            if |s.attaches| <= 0xFFFF_FFFF_FFFF_FFFF then |s.attaches| else 0xFFFF_FFFF_FFFF_FFFF
    ensures |s.attaches| <= |s.auths|
    ensures |s.auths| == |TokenAccounting.IssuedDigests(h, s.ops, Tokens.ResumeToken)|
    ensures |s.auths| == |TokenAccounting.AcceptedDigests(h, s.ops)|
    ensures |s.auths| <= |TokenAccounting.IssuedDigests(h, s.ops, Tokens.AuthToken)|
  {
    ReachableInv(h, s);
    DistinctWithin(s.attaches, s.auths);
    TokenAccounting.AcceptedWithinIssued(h, s.ops);
  }

  /** The replay buffer holds the last bytes of all output, whatever else the server did meanwhile. */
  lemma ReplayIsTailOfOutput(h: string -> Tokens.Digest, s: System)
    requires Reachable(h, s)
    ensures var n, cap := |s.output|, s.server.cfg.replayCap;
            s.server.replay == if n <= cap then s.output else s.output[n - cap..]
  {
    ReachableInv(h, s);
  }
}
