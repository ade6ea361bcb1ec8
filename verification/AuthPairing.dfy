/**
 Which connection used up which token. Every successful AUTH adds one connection, one accepted auth
 token and one issued resume token to the history; equal positions belong together.
 */
module AuthPairing {
  import opened Wrappers
  import opened ServerCore
  import opened Connections
  import opened SessionProtocol
  import opened SessionInvariant
  import opened SessionHistory
  import opened ProtocolRuns
  import opened Counting
  import Tokens
  import TokenRuns
  import TokenAccounting

  /** The connections that authenticated, the auth tokens they used up, the resume tokens they were given. */
  datatype Ledger = Ledger(auths: seq<Uuid>, used: seq<Tokens.Digest>, given: seq<Tokens.Digest>)
  {
    function Plus(c: Uuid, used: Tokens.Digest, given: Tokens.Digest): Ledger {
      Ledger(auths + [c], this.used + [used], this.given + [given])
    }

    predicate Even() {
      |auths| == |used| == |given|
    }

    /** The first `n` entries. */
    function First(n: nat): Ledger
      requires Even() && n <= |auths|
    {
      Ledger(auths[..n], used[..n], given[..n])
    }
  }

  function LedgerOf(h: string -> Tokens.Digest, s: System): Ledger {
    Ledger(s.auths, TokenAccounting.AcceptedDigests(h, s.ops),
           TokenAccounting.IssuedDigests(h, s.ops, Tokens.ResumeToken))
  }

  /** In this step connection `c` presents the token `used` in an AUTH, and `given` is drawn for it. */
  predicate Presents(h: string -> Tokens.Digest, step: Step, c: Uuid, used: Tokens.Digest, given: Tokens.Digest) {
    && step.action.Take? && step.action.conn == c
    && step.action.input.Frame? && step.action.input.msg.Auth? && step.action.input.msg.token.Some?
    && h(step.action.input.msg.token.value) == used && h(step.action.env.token) == given
  }

  /** A handler that becomes authenticated has presented the token that its turn checked first. */
  lemma AuthTurnPresents(h: string -> Tokens.Digest, st: Server, c: Conn, input: Input, env: Env)
    requires ServerInv(st) && c.phase.Running? && ConnInv(st.Session(), c)
    requires !c.authed && TakeTurn(h, st, c, input, env).conn.authed
    ensures input.Frame? && input.msg.Auth? && input.msg.token.Some?
    ensures var calls := TakeTurn(h, st, c, input, env).calls;
            |calls| == 2 && calls[0].Authenticate? && calls[0].raw == input.msg.token.value
  {
  }

  /** The ledger grows by a whole entry, or not at all. */
  ghost predicate Grows(h: string -> Tokens.Digest, s: System, step: Step, s': System) {
    || LedgerOf(h, s') == LedgerOf(h, s)
    || exists c, used, given ::
         Presents(h, step, c, used, given) && LedgerOf(h, s') == LedgerOf(h, s).Plus(c, used, given)
  }

  lemma TakeGrows(h: string -> Tokens.Digest, s: System, step: Step)
    requires Inv(h, s) && Enabled(h, s, step) && step.action.Take?
    ensures Grows(h, s, step, Next(h, s, step))
  {
    var a := step.action;
    var c := s.conns[a.conn];
    var t := TakeTurn(h, s.server, c, a.input, a.env);
    TurnRecorded(h, s.server, c, a.input, a.env);
    TurnTokens(h, s, c, t, a.env);
    if t.conn.authed && !c.authed {
      AuthTurnPresents(h, s.server, c, a.input, a.env);
      assert Presents(h, step, a.conn, h(t.calls[0].raw), h(a.env.token));
    }
  }

  lemma StepGrows(h: string -> Tokens.Digest, s: System, step: Step)
    requires Inv(h, s) && Enabled(h, s, step)
    ensures Grows(h, s, step, Next(h, s, step))
  {
    match step.action
    case Take(_, _, _) => TakeGrows(h, s, step);
    case Renew(req, raw) =>
      if RenewAllowed(s.server.cfg, req) {
        OneMoreOp(h, s.ops, IssueOp(s.server.cfg, Tokens.AuthToken, raw, step.now));
      }
    case Sweep(retention) => OneMoreOp(h, s.ops, TokenRuns.Sweep(retention, step.now));
    case _ =>
  }

  /** Step `k` of the run made entry `i` of the ledger: it came after the first `i`, for what was presented then. */
  ghost predicate MadeAt(h: string -> Tokens.Digest, s: System, steps: Steps, l: Ledger, i: nat, k: nat) {
    && l.Even() && i < |l.auths| && k < |steps|
    && Presents(h, steps[k], l.auths[i], l.used[i], l.given[i])
    && LedgerOf(h, After(h, s, steps[..k])) == l.First(i)
    && LedgerOf(h, After(h, s, steps[..k + 1])) == l.First(i + 1)
  }

  ghost predicate Made(h: string -> Tokens.Digest, s: System, steps: Steps, l: Ledger, i: nat) {
    exists k: nat :: MadeAt(h, s, steps, l, i, k)
  }

  ghost predicate AllMade(h: string -> Tokens.Digest, s: System, steps: Steps, l: Ledger) {
    l.Even() && forall i: nat :: i < |l.auths| ==> Made(h, s, steps, l, i)
  }

  lemma FirstOfFirst(l: Ledger, n: nat, m: nat)
    requires l.Even() && m <= n <= |l.auths|
    ensures l.First(n).Even() && l.First(n).First(m) == l.First(m)
  {
    assert l.auths[..n][..m] == l.auths[..m] && l.used[..n][..m] == l.used[..m] && l.given[..n][..m] == l.given[..m];
  }

  lemma StillMade(h: string -> Tokens.Digest, s: System, steps: Steps, l: Ledger, l': Ledger, i: nat)
    requires steps != [] && l.Even() && l'.Even() && i < |l.auths| <= |l'.auths| && l == l'.First(|l.auths|)
    requires Made(h, s, steps[..|steps| - 1], l, i)
    ensures Made(h, s, steps, l', i)
  {
    var front := steps[..|steps| - 1];
    var k: nat :| MadeAt(h, s, front, l, i, k);
    assert front[..k] == steps[..k] && front[..k + 1] == steps[..k + 1];
    FirstOfFirst(l', |l.auths|, i);
    FirstOfFirst(l', |l.auths|, i + 1);
    assert MadeAt(h, s, steps, l', i, k);
  }

  lemma PlusFirst(l: Ledger, c: Uuid, used: Tokens.Digest, given: Tokens.Digest)
    requires l.Even()
    ensures var n, l' := |l.auths|, l.Plus(c, used, given);
            && l'.Even() && |l'.auths| == n + 1 && l'.First(n) == l && l'.First(n + 1) == l'
            && l'.auths[n] == c && l'.used[n] == used && l'.given[n] == given
  {
  }

  lemma MadeLast(h: string -> Tokens.Digest, s: System, steps: Steps, c: Uuid, used: Tokens.Digest, given: Tokens.Digest)
    requires steps != [] && Presents(h, steps[|steps| - 1], c, used, given)
    requires var l := LedgerOf(h, After(h, s, steps[..|steps| - 1]));
             l.Even() && LedgerOf(h, After(h, s, steps)) == l.Plus(c, used, given)
    ensures var l' := LedgerOf(h, After(h, s, steps)); Made(h, s, steps, l', |l'.auths| - 1)
  {
    var l, l' := LedgerOf(h, After(h, s, steps[..|steps| - 1])), LedgerOf(h, After(h, s, steps));
    var n := |steps| - 1;
    assert steps[..n + 1] == steps;
    PlusFirst(l, c, used, given);
    assert MadeAt(h, s, steps, l', |l.auths|, n);
  }

  lemma {:induction false} RunMade(h: string -> Tokens.Digest, s: System, steps: Steps)
    requires Inv(h, s) && LedgerOf(h, s) == Ledger([], [], []) && IsRun(h, s, steps)
    ensures AllMade(h, s, steps, LedgerOf(h, After(h, s, steps)))
    decreases |steps|
  {
    if steps != [] {
      var front, last := steps[..|steps| - 1], steps[|steps| - 1];
      RunMade(h, s, front);
      RunKeeps(h, s, front);
      StepGrows(h, After(h, s, front), last);
      MadeStep(h, s, steps);
    }
  }

  /** Whatever was made stays made; a longer ledger needs its last entry made. */
  lemma LongerMade(h: string -> Tokens.Digest, s: System, steps: Steps, l: Ledger, l': Ledger)
    requires steps != [] && AllMade(h, s, steps[..|steps| - 1], l)
    requires l'.Even() && |l.auths| <= |l'.auths| <= |l.auths| + 1 && l == l'.First(|l.auths|)
    requires |l'.auths| == |l.auths| + 1 ==> Made(h, s, steps, l', |l.auths|)
    ensures AllMade(h, s, steps, l')
  {
    forall i: nat | i < |l.auths|
      ensures Made(h, s, steps, l', i)
    {
      StillMade(h, s, steps, l, l', i);
    }
  }

  lemma MadeStep(h: string -> Tokens.Digest, s: System, steps: Steps)
    requires steps != []
    requires var front := steps[..|steps| - 1];
             && AllMade(h, s, front, LedgerOf(h, After(h, s, front)))
             && Grows(h, After(h, s, front), steps[|steps| - 1], After(h, s, steps))
    ensures AllMade(h, s, steps, LedgerOf(h, After(h, s, steps)))
  {
    var front, last := steps[..|steps| - 1], steps[|steps| - 1];
    var l, l' := LedgerOf(h, After(h, s, front)), LedgerOf(h, After(h, s, steps));
    if l' == l {
      assert l == l'.First(|l.auths|);
    } else {
      var c, used, given :| Presents(h, last, c, used, given) && l' == l.Plus(c, used, given);
      PlusFirst(l, c, used, given);
      MadeLast(h, s, steps, c, used, given);
    }
    LongerMade(h, s, steps, l, l');
  }

  lemma StartLedger(h: string -> Tokens.Digest, cfg: Config, raw: string, now: Time)
    ensures LedgerOf(h, Start(h, cfg, raw, now)) == Ledger([], [], [])
  {
    OneMoreOp(h, [], IssueOp(cfg, Tokens.AuthToken, raw, now));
    assert [] + [IssueOp(cfg, Tokens.AuthToken, raw, now)] == [IssueOp(cfg, Tokens.AuthToken, raw, now)];
  }

  /**
   Who used up what, after any run from the start of the server: the i-th connection to authenticate
   did so in a step in which it presented the i-th accepted auth token, and the i-th resume token was
   drawn for it. No connection, no auth token and no resume token is in there twice, and every auth
   token used up had been issued as one.
   */
  lemma AuthsArePaired(h: string -> Tokens.Digest, cfg: Config, raw: string, now: Time, steps: Steps)
    requires IsRun(h, Start(h, cfg, raw, now), steps)
    ensures var s := After(h, Start(h, cfg, raw, now), steps);
            var l := LedgerOf(h, s);
            && AllMade(h, Start(h, cfg, raw, now), steps, l)
            && Distinct(l.auths) && Distinct(l.used) && Distinct(l.given)
            && forall x :: x in l.used ==> x in TokenAccounting.IssuedDigests(h, s.ops, Tokens.AuthToken)
  {
    var s0 := Start(h, cfg, raw, now);
    StartKeeps(h, cfg, raw, now);
    StartHistory(h, cfg, raw, now);
    StartLedger(h, cfg, raw, now);
    RunMade(h, s0, steps);
    RunKeeps(h, s0, steps);
    TokenAccounting.AcceptedWithinIssued(h, After(h, s0, steps).ops);
    TokenAccounting.DigestsDistinct(h, After(h, s0, steps).ops, Tokens.ResumeToken);
  }
}
