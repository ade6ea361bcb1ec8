/**
 The history of a run next to its state: the token store is what its operations made it, the
 replay buffer is the tail of the output, and authentications and attaches are accounted for.
 */
module SessionHistory {
  import opened Wrappers
  import opened Dispatching
  import opened ServerCore
  import opened Connections
  import opened SessionProtocol
  import opened SessionInvariant
  import opened Counting
  import Sessions
  import Tokens
  import TokenRuns
  import TokenAccounting
  import ReplayBuffer
  import opened WireErrors

  ghost predicate TokensInv(h: string -> Tokens.Digest, s: System) {
    && TokenRuns.WellFormed(h, s.ops)
    && TokenRuns.Clock(s.ops) <= s.clock
    && s.server.records == TokenRuns.Exec(h, s.ops)
  }

  function Capped(n: nat): nat {
    if n <= U64_MAX then n else U64_MAX
  }

  /** Who authenticated and who attached: nobody twice, and nobody attached without having authenticated. */
  ghost predicate LedgerInv(s: System) {
    && s.Ready()
    && Distinct(s.auths) && Distinct(s.attaches)
    && (forall c :: c in s.auths ==> c in s.conns && (s.conns[c].phase.Running? ==> s.conns[c].authed))
    && (forall c :: c in s.conns && s.conns[c].authed ==> c in s.auths)
    && (forall c :: c in s.attaches ==>
          c in s.auths && (s.conns[c].phase.Running? ==> s.conns[c].attachedEpoch.Some?))
    && s.Session().attachEpoch == Capped(|s.attaches|)
    && (s.stop == Some(InitialAttachTimeout) ==> s.attaches == [])
  }

  ghost predicate CountsInv(h: string -> Tokens.Digest, s: System) {
    && |s.auths| == |TokenAccounting.AcceptedDigests(h, s.ops)|
    && |s.auths| == |TokenAccounting.IssuedDigests(h, s.ops, Tokens.ResumeToken)|
  }

  ghost predicate HistoryInv(h: string -> Tokens.Digest, s: System) {
    && TokensInv(h, s)
    && LedgerInv(s)
    && CountsInv(h, s)
    && s.server.replay == ReplayBuffer.Tail(s.output, s.server.cfg.replayCap)
  }

  // ---------------------------------------------------------------- what a turn records

  predicate IsAuthFrame(input: Input) {
    input.Frame? && input.msg.Auth?
  }

  /** What a turn asked of the token store, and what it did to the epoch. */
  predicate Recorded(h: string -> Tokens.Digest, st: Server, c: Conn, t: Turn, env: Env) {
    && st.HasSession() && t.st.HasSession()
    && (t.attached ==>
          && c.authed && c.attachedEpoch.None?
          && t.st.Session().attachEpoch == Sessions.NextEpoch(st.Session().attachEpoch)
          && (t.conn.phase.Running? ==> t.conn.attachedEpoch.Some?))
    && (!t.attached ==>
          t.st.Session().attachEpoch == st.Session().attachEpoch && t.conn.attachedEpoch == c.attachedEpoch)
    && t.conn.id == c.id
    && match |t.calls|
       case 0 => t.st.records == st.records && t.conn.authed == c.authed
       case 1 =>
         && t.conn.authed == c.authed && t.calls[0].now == env.now && !t.calls[0].Issue?
         && t.st.records == TokenRuns.Apply(h, st.records, t.calls[0]).0
         && (t.calls[0].Authenticate? ==>
               TokenRuns.Apply(h, st.records, t.calls[0]).1 != TokenRuns.Answer(Success(())))
       case _ =>
         && !c.authed && t.conn.authed && t.calls[0].now == env.now && t.calls[0].Authenticate?
         && TokenRuns.Apply(h, st.records, t.calls[0]).1 == TokenRuns.Answer(Success(()))
         && t.calls == [t.calls[0], IssueOp(st.cfg, Tokens.ResumeToken, env.token, env.now)]
         && t.st.records == TokenRuns.Apply(h, TokenRuns.Apply(h, st.records, t.calls[0]).0, t.calls[1]).0
  }

  lemma AuthRecorded(h: string -> Tokens.Digest, st: Server, c: Conn, token: Option<string>, env: Env)
    requires st.HasSession() && !c.authed
    ensures Recorded(h, st, c, HandleAuth(h, st, c, token, env), env)
  {
  }

  lemma TakeSessionRecorded(h: string -> Tokens.Digest, st: Server, c: Conn, resume: bool, env: Env)
    requires st.HasSession() && c.authed && c.attachedEpoch.None?
    ensures Recorded(h, st, c, TakeSession(st, c, resume, env), env)
    ensures TakeSession(st, c, resume, env).calls == []
  {
  }

  lemma RefuseRecorded(h: string -> Tokens.Digest, st: Server, c: Conn, err: ServerError, env: Env)
    requires st.HasSession()
    ensures Recorded(h, st, c, Refuse(st, c, err, env), env)
    ensures Refuse(st, c, err, env).calls == []
  {
  }

  /** The check of a resume token, before a turn that asks the token store for nothing else. */
  lemma OneCallRecorded(h: string -> Tokens.Digest, st: Server, c: Conn, t: Turn, raw: string, env: Env)
    requires Recorded(h, st, c, t, env) && t.calls == []
    ensures var check := TokenRuns.Resume(raw, st.cfg.sessionId, st.cfg.ownerUser, env.now);
            Recorded(h, st, c, t.(calls := [check]), env)
  {
  }

  lemma ResumeRecorded(h: string -> Tokens.Digest, st: Server, c: Conn, request: Option<(Uuid, string)>, env: Env)
    requires st.HasSession() && c.authed && c.attachedEpoch.None?
    ensures Recorded(h, st, c, HandleResume(h, st, c, request, env), env)
  {
    if request.None? || request.value.0 != st.cfg.sessionId {
      RefuseRecorded(h, st, c, if request.None? then Protocol else SessionNotFound, env);
    } else {
      var sid, user, raw := st.cfg.sessionId, st.cfg.ownerUser, request.value.1;
      var verdict := Tokens.ResumeVerdict(st.records, h(raw), sid, user, env.now);
      if verdict.Failure? {
        RefuseRecorded(h, st, c, MapTokenResumeError(verdict.error), env);
        OneCallRecorded(h, st, c, Refuse(st, c, MapTokenResumeError(verdict.error), env), raw, env);
      } else {
        TakeSessionRecorded(h, st, c, true, env);
        OneCallRecorded(h, st, c, TakeSession(st, c, true, env), raw, env);
      }
    }
  }

  lemma MessageRecorded(h: string -> Tokens.Digest, st: Server, c: Conn, from: ConnectionState, msg: Message, env: Env)
    requires ServerInv(st) && Dispatched(st.Session(), c, from, Kind(msg))
    ensures Recorded(h, st, c, HandleMessage(h, st, c, msg, env), env)
    ensures |HandleMessage(h, st, c, msg, env).calls| >= 2 ==> msg.Auth?
  {
    match msg
    case Auth(token) => AuthRecorded(h, st, c, token, env);
    case Attach(sid) => TakeSessionRecorded(h, st, c, false, env);
    case Resume(request) => ResumeRecorded(h, st, c, request, env);
    case _ =>
  }

  lemma TurnRecorded(h: string -> Tokens.Digest, st: Server, c: Conn, input: Input, env: Env)
    requires ServerInv(st) && c.phase.Running? && ConnInv(st.Session(), c)
    ensures Recorded(h, st, c, TakeTurn(h, st, c, input, env), env)
    ensures |TakeTurn(h, st, c, input, env).calls| >= 2 ==> IsAuthFrame(input)
  {
    if input.Frame? && Dispatch(c.state, Kind(input.msg)).1.Success? {
      MessageRecorded(h, st, c.(state := Dispatch(c.state, Kind(input.msg)).0), c.state, input.msg, env);
    }
  }

  // ---------------------------------------------------------------- tokens

  /** One more operation at the end of the run. */
  lemma OneMoreOp(h: string -> Tokens.Digest, ops: seq<TokenRuns.Op>, op: TokenRuns.Op)
    requires TokenRuns.WellFormed(h, ops) && TokenRuns.Clock(ops) <= op.now
    requires op.Issue? ==> !TokenRuns.Issued(h, ops, h(op.raw))
    ensures TokenRuns.WellFormed(h, ops + [op]) && TokenRuns.Clock(ops + [op]) == op.now
    ensures TokenRuns.Exec(h, ops + [op]) == TokenRuns.Apply(h, TokenRuns.Exec(h, ops), op).0
    ensures TokenAccounting.AcceptedDigests(h, ops + [op]) ==
            TokenAccounting.AcceptedDigests(h, ops) +
            if op.Authenticate? && TokenRuns.Apply(h, TokenRuns.Exec(h, ops), op).1 == TokenRuns.Answer(Success(()))
            then [h(op.raw)] else []
    ensures TokenAccounting.IssuedDigests(h, ops + [op], Tokens.ResumeToken) ==
            TokenAccounting.IssuedDigests(h, ops, Tokens.ResumeToken) +
            if op.Issue? && op.kind.ResumeToken? then [h(op.raw)] else []
  {
    TokenRuns.AppendOp(h, ops, op);
    assert TokenRuns.Front(ops + [op]) == ops && TokenRuns.Last(ops + [op]) == op;
    TokenAccounting.DigestsGrow(h, ops + [op], ops, op, Tokens.ResumeToken);
  }

  lemma StillFresh(h: string -> Tokens.Digest, ops: seq<TokenRuns.Op>, op: TokenRuns.Op, x: Tokens.Digest)
    requires !op.Issue? && !TokenRuns.Issued(h, ops, x)
    ensures !TokenRuns.Issued(h, ops + [op], x)
  {
    assert forall i :: 0 <= i < |ops| ==> (ops + [op])[i] == ops[i];
  }

  /** The operations of a turn, at the end of the run: records and counts move together. */
  lemma TurnTokens(h: string -> Tokens.Digest, s: System, c: Conn, t: Turn, env: Env)
    requires TokensInv(h, s) && s.clock <= env.now && Recorded(h, s.server, c, t, env)
    requires |t.calls| >= 2 ==> !TokenRuns.Issued(h, s.ops, h(env.token))
    ensures var ops := s.ops + t.calls;
            && TokenRuns.WellFormed(h, ops) && TokenRuns.Clock(ops) <= env.now
            && t.st.records == TokenRuns.Exec(h, ops)
            && var more := if t.conn.authed && !c.authed then 1 else 0;
               && (more == 1 ==> |t.calls| == 2)
               && TokenAccounting.AcceptedDigests(h, ops) ==
                  TokenAccounting.AcceptedDigests(h, s.ops) + (if more == 1 then [h(t.calls[0].raw)] else [])
               && TokenAccounting.IssuedDigests(h, ops, Tokens.ResumeToken) ==
                  TokenAccounting.IssuedDigests(h, s.ops, Tokens.ResumeToken) + (if more == 1 then [h(env.token)] else [])
  {
    if |t.calls| == 0 {
      assert s.ops + t.calls == s.ops;
    } else {
      var check := t.calls[0];
      OneMoreOp(h, s.ops, check);
      if |t.calls| == 1 {
        assert t.calls == [check];
      } else {
        var issue := IssueOp(s.server.cfg, Tokens.ResumeToken, env.token, env.now);
        StillFresh(h, s.ops, check, h(env.token));
        OneMoreOp(h, s.ops + [check], issue);
        assert s.ops + t.calls == (s.ops + [check]) + [issue];
      }
    }
  }

  // ---------------------------------------------------------------- steps

  /** The ledger after a turn that kept the session's invariant and recorded what it did. */
  lemma LedgerAfterTurn(h: string -> Tokens.Digest, s: System, c: Uuid, t: Turn, env: Env)
    requires StateInv(s) && LedgerInv(s) && c in s.conns && s.conns[c].phase.Running?
    requires Recorded(h, s.server, s.conns[c], t, env)
    requires s.Session().Terminal() ==> !t.attached
    ensures LedgerInv(AfterTake(s, c, t))
  {
    assert !s.conns[c].authed ==> c !in s.auths;
    assert t.attached ==> c !in s.attaches && c in s.auths;
  }

  lemma NoAttachWhenTerminal(h: string -> Tokens.Digest, st: Server, c: Conn, input: Input, env: Env)
    requires st.HasSession() && st.Session().Terminal()
    ensures !TakeTurn(h, st, c, input, env).attached
  {
  }

  lemma TakeLedger(h: string -> Tokens.Digest, s: System, step: Step)
    requires StateInv(s) && LedgerInv(s) && Enabled(h, s, step) && step.action.Take?
    ensures LedgerInv(Next(h, s, step))
  {
    var a := step.action;
    var c := s.conns[a.conn];
    TurnRecorded(h, s.server, c, a.input, a.env);
    if s.Session().Terminal() {
      NoAttachWhenTerminal(h, s.server, c, a.input, a.env);
    }
    LedgerAfterTurn(h, s, a.conn, TakeTurn(h, s.server, c, a.input, a.env), a.env);
  }

  lemma TakeHistory(h: string -> Tokens.Digest, s: System, step: Step)
    requires StateInv(s) && HistoryInv(h, s) && Enabled(h, s, step) && step.action.Take?
    ensures HistoryInv(h, Next(h, s, step))
  {
    var a := step.action;
    TakeLedger(h, s, step);
    TurnRecorded(h, s.server, s.conns[a.conn], a.input, a.env);
    TurnKeeps(h, s.server, s.conns[a.conn], a.input, a.env);
    TurnTokens(h, s, s.conns[a.conn], TakeTurn(h, s.server, s.conns[a.conn], a.input, a.env), a.env);
  }

  /** Renewals and sweeps touch the token store alone. */
  lemma StoreHistory(h: string -> Tokens.Digest, s: System, step: Step)
    requires HistoryInv(h, s) && Enabled(h, s, step) && (step.action.Renew? || step.action.Sweep?)
    ensures HistoryInv(h, Next(h, s, step))
  {
    match step.action
    case Renew(req, raw) =>
      if RenewAllowed(s.server.cfg, req) {
        OneMoreOp(h, s.ops, IssueOp(s.server.cfg, Tokens.AuthToken, raw, step.now));
      }
    case Sweep(retention) => OneMoreOp(h, s.ops, TokenRuns.Sweep(retention, step.now));
  }

  lemma CleanHistory(h: string -> Tokens.Digest, s: System, step: Step)
    requires StateInv(s) && HistoryInv(h, s) && Enabled(h, s, step) && step.action.Clean?
    ensures HistoryInv(h, Next(h, s, step))
  {
    CleanUpKeeps(s.server, s.conns[step.action.conn], step.now);
  }

  lemma CheckHistory(h: string -> Tokens.Digest, s: System, step: Step)
    requires StateInv(s) && HistoryInv(h, s) && Enabled(h, s, step) && step.action.AcceptCheck?
    ensures HistoryInv(h, Next(h, s, step))
  {
    AcceptChecksKeep(s.server, step.now);
  }

  lemma OutputHistory(h: string -> Tokens.Digest, s: System, step: Step)
    requires HistoryInv(h, s) && Enabled(h, s, step) && step.action.Output?
    ensures HistoryInv(h, Next(h, s, step))
  {
    ReplayBuffer.AppendKeepsTail(s.output, step.action.chunk, s.server.cfg.replayCap);
  }

  lemma HistoryKeeps(h: string -> Tokens.Digest, s: System, step: Step)
    requires StateInv(s) && HistoryInv(h, s) && Enabled(h, s, step)
    ensures HistoryInv(h, Next(h, s, step))
  {
    match step.action
    case Take(_, _, _) => TakeHistory(h, s, step);
    case Renew(_, _) => StoreHistory(h, s, step);
    case Sweep(_) => StoreHistory(h, s, step);
    case Clean(_) => CleanHistory(h, s, step);
    case AcceptCheck => CheckHistory(h, s, step);
    case Output(_) => OutputHistory(h, s, step);
    case _ =>
  }

  lemma StartHistory(h: string -> Tokens.Digest, cfg: Config, raw: string, now: Time)
    ensures HistoryInv(h, Start(h, cfg, raw, now))
  {
    OneMoreOp(h, [], IssueOp(cfg, Tokens.AuthToken, raw, now));
    assert [] + [IssueOp(cfg, Tokens.AuthToken, raw, now)] == [IssueOp(cfg, Tokens.AuthToken, raw, now)];
  }
}
