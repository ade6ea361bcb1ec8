/** The invariant of the interleaved server, kept by every step. */
module SessionInvariant {
  import opened Wrappers
  import opened ServerCore
  import opened Connections
  import opened SessionProtocol
  import Sessions
  import Tokens

  /** Every connection's claims hold of the one session, and its owner is a known connection. */
  ghost predicate ClaimsHold(x: Sessions.Session, conns: map<Uuid, Conn>) {
    && (forall d :: d in conns ==> conns[d].id == d && ConnInv(x, conns[d]))
    && (x.attachedConn.Some? ==> x.attachedConn.value in conns)
  }

  /** Why the accept loop stopped, and what that says about the session. */
  predicate StopInv(x: Sessions.Session, stop: Option<StopReason>) {
    && stop != Some(SessionExpired)
    && (x.state.Expired? ==> stop in {Some(InitialAttachTimeout), Some(DetachedSessionTimeout)})
    && (stop in {Some(InitialAttachTimeout), Some(DetachedSessionTimeout), Some(SessionTerminated)} ==> x.Terminal())
  }

  ghost predicate StateInv(s: System) {
    && ServerInv(s.server)
    && ClaimsHold(s.Session(), s.conns)
    && StopInv(s.Session(), s.stop)
    && (s.server.detachedAt.Some? ==> s.server.detachedAt.value <= s.clock)
  }

  /** A move by `who`, with its own claims renewed, keeps everyone's claims. */
  lemma ClaimsAfterMove(x: Sessions.Session, y: Sessions.Session, conns: map<Uuid, Conn>, who: Uuid, c: Conn)
    requires ClaimsHold(x, conns) && Moves(x, y, who) && c.id == who && ConnInv(y, c)
    requires y.Consistent()
    ensures ClaimsHold(y, conns[who := c])
  {
    forall d | d in conns && d != who
      ensures ConnInv(y, conns[d])
    {
      OthersUndisturbed(x, y, who, conns[d]);
    }
  }

  /** The accept loop's checks: the session stays, or it expires and the loop returns for that reason. */
  lemma AcceptChecksKeep(st: Server, now: Time)
    requires ServerInv(st)
    ensures var (st', stop) := AfterAcceptChecks(st, now);
            && ServerInv(st') && st' == st.(sessions := st'.sessions)
            && (|| (st' == st && stop == (if st.Session().state.Terminated? then Some(SessionTerminated)
                                          else if st.Session().state.Expired? then Some(SessionExpired) else None))
                || (st'.Session() == st.Session().(state := Sessions.Expired, attachedConn := None)
                    && stop in {Some(InitialAttachTimeout), Some(DetachedSessionTimeout)}))
  {
  }

  lemma CleanUpKeeps(st: Server, c: Conn, now: Time)
    requires ServerInv(st) && ConnInv(st.Session(), c) && c.phase.Leaving?
    ensures var (st', c') := CleanUp(st, c, now);
            && ServerInv(st') && ConnInv(st'.Session(), c') && c'.id == c.id && c'.phase.Finished?
            && Moves(st.Session(), st'.Session(), c.id)
            && (st'.detachedAt in {st.detachedAt, None, Some(now)})
            && st' == st.(sessions := st'.sessions, detachedAt := st'.detachedAt)
  {
  }

  lemma TakeKeeps(h: string -> Tokens.Digest, s: System, step: Step)
    requires StateInv(s) && Enabled(h, s, step) && step.action.Take?
    ensures StateInv(Next(h, s, step))
  {
    var a := step.action;
    var c := s.conns[a.conn];
    TurnKeeps(h, s.server, c, a.input, a.env);
    var t := TakeTurn(h, s.server, c, a.input, a.env);
    ClaimsAfterMove(s.Session(), t.st.Session(), s.conns, a.conn, t.conn);
  }

  lemma CleanKeeps(h: string -> Tokens.Digest, s: System, step: Step)
    requires StateInv(s) && Enabled(h, s, step) && step.action.Clean?
    ensures StateInv(Next(h, s, step))
  {
    var who := step.action.conn;
    CleanUpKeeps(s.server, s.conns[who], step.now);
    var (st, c) := CleanUp(s.server, s.conns[who], step.now);
    ClaimsAfterMove(s.Session(), st.Session(), s.conns, who, c);
  }

  lemma StepKeeps(h: string -> Tokens.Digest, s: System, step: Step)
    requires StateInv(s) && Enabled(h, s, step)
    ensures StateInv(Next(h, s, step))
  {
    match step.action
    case Connect(c) => ClaimsAfterMove(s.Session(), s.Session(), s.conns, c, NewConn(c));
    case Take(_, _, _) => TakeKeeps(h, s, step);
    case Abandon(c) => ClaimsAfterMove(s.Session(), s.Session(), s.conns, c, Abort(s.conns[c]));
    case Clean(_) => CleanKeeps(h, s, step);
    case AcceptCheck => CheckKeeps(h, s, step);
    case _ =>
  }

  lemma CheckKeeps(h: string -> Tokens.Digest, s: System, step: Step)
    requires StateInv(s) && Enabled(h, s, step) && step.action.AcceptCheck?
    ensures StateInv(Next(h, s, step))
  {
    AcceptChecksKeep(s.server, step.now);
    var st := AfterAcceptChecks(s.server, step.now).0;
    forall d | d in s.conns
      ensures ConnInv(st.Session(), s.conns[d])
    {
    }
  }

  lemma StartKeeps(h: string -> Tokens.Digest, cfg: Config, raw: string, now: Time)
    ensures StateInv(Start(h, cfg, raw, now))
  {
  }
}
