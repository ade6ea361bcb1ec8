/** Where every token comes from, over whole runs: the start of the server, the owner's renewal, or a successful AUTH. */
module TokenSources {
  import opened Wrappers
  import opened ServerCore
  import opened Connections
  import opened SessionProtocol
  import opened SessionInvariant
  import opened SessionHistory
  import opened ProtocolRuns
  import Tokens
  import TokenRuns
  import TokenHistory
  import TokenAccounting

  /** Somebody with the owner's uid asks, for this session and in the owner's name. */
  predicate OwnersRequest(cfg: Config, req: RenewRequest) {
    req.peerUid == cfg.ownerUid && req.sessionId == cfg.sessionId && req.user == cfg.ownerUser
  }

  /** A renewal on the local socket: one auth token for the owner, and nothing at all for anybody else. */
  lemma RenewIsForOwner(h: string -> Tokens.Digest, s: System, step: Step)
    requires Enabled(h, s, step) && step.action.Renew?
    ensures var cfg, a := s.server.cfg, step.action;
            var token := Tokens.Record(h(a.raw), Tokens.AuthToken, cfg.sessionId, cfg.ownerUser,
                                       step.now + cfg.authTokenTtl, None, None, step.now);
            var more := if OwnersRequest(cfg, a.request) then [token] else [];
            && Next(h, s, step).server == s.server.(records := s.server.records + more)
            && (!OwnersRequest(cfg, a.request) ==> Next(h, s, step) == s.(clock := step.now))
  {
    assert s.server.records + [] == s.server.records;
  }

  /** The step draws this token: for the owner's renewal request, or for a connection's AUTH. */
  predicate Draws(cfg: Config, step: Step, op: TokenRuns.Op)
    requires op.Issue?
  {
    && step.now == op.now
    && if op.kind.AuthToken? then
         step.action.Renew? && step.action.raw == op.raw && OwnersRequest(cfg, step.action.request)
       else
         && step.action.Take? && step.action.input.Frame? && step.action.input.msg.Auth?
         && step.action.env.token == op.raw
  }

  /** Issued for this session and its owner, for the time that is configured for its kind. */
  predicate Ours(cfg: Config, op: TokenRuns.Op)
    requires op.Issue?
  {
    && op.session == cfg.sessionId && op.user == cfg.ownerUser
    && op.ttl == if op.kind.AuthToken? then cfg.authTokenTtl else cfg.resumeTokenTtl
  }

  ghost predicate DrawnIn(cfg: Config, steps: Steps, op: TokenRuns.Op)
    requires op.Issue?
  {
    exists k :: 0 <= k < |steps| && Draws(cfg, steps[k], op)
  }

  /** The token is the bootstrap token, issued before the run, or some step of the run draws it. */
  ghost predicate Sourced(cfg: Config, first: TokenRuns.Op, steps: Steps, op: TokenRuns.Op)
    requires op.Issue?
  {
    Ours(cfg, op) && (op == first || DrawnIn(cfg, steps, op))
  }

  ghost predicate AllSourced(cfg: Config, first: TokenRuns.Op, steps: Steps, ops: seq<TokenRuns.Op>) {
    forall i :: 0 <= i < |ops| && ops[i].Issue? ==> Sourced(cfg, first, steps, ops[i])
  }

  /** A step adds only operations whose tokens it draws itself. */
  ghost predicate AddsOwn(cfg: Config, step: Step, ops: seq<TokenRuns.Op>, longer: seq<TokenRuns.Op>) {
    && |ops| <= |longer| && longer[..|ops|] == ops
    && forall i :: |ops| <= i < |longer| && longer[i].Issue? ==> Ours(cfg, longer[i]) && Draws(cfg, step, longer[i])
  }

  lemma AppendOwn(cfg: Config, step: Step, ops: seq<TokenRuns.Op>, more: seq<TokenRuns.Op>)
    requires forall j :: 0 <= j < |more| && more[j].Issue? ==> Ours(cfg, more[j]) && Draws(cfg, step, more[j])
    ensures AddsOwn(cfg, step, ops, ops + more)
  {
    forall i | |ops| <= i < |ops + more| && (ops + more)[i].Issue?
      ensures Ours(cfg, (ops + more)[i]) && Draws(cfg, step, (ops + more)[i])
    {
      assert (ops + more)[i] == more[i - |ops|];
    }
  }

  /** The only token a turn issues is the resume token drawn for its AUTH. */
  lemma TurnDrawsOwn(h: string -> Tokens.Digest, st: Server, c: Conn, step: Step)
    requires ServerInv(st) && c.phase.Running? && ConnInv(st.Session(), c)
    requires step.action.Take? && step.action.env.now == step.now
    ensures var calls := TakeTurn(h, st, c, step.action.input, step.action.env).calls;
            forall j :: 0 <= j < |calls| && calls[j].Issue? ==>
              Ours(st.cfg, calls[j]) && Draws(st.cfg, step, calls[j])
  {
    TurnRecorded(h, st, c, step.action.input, step.action.env);
  }

  lemma TakeAddsOwn(h: string -> Tokens.Digest, s: System, step: Step)
    requires Inv(h, s) && Enabled(h, s, step) && step.action.Take?
    ensures AddsOwn(s.server.cfg, step, s.ops, Next(h, s, step).ops)
    ensures Next(h, s, step).server.cfg == s.server.cfg
  {
    var a := step.action;
    TurnKeeps(h, s.server, s.conns[a.conn], a.input, a.env);
    TurnDrawsOwn(h, s.server, s.conns[a.conn], step);
    AppendOwn(s.server.cfg, step, s.ops, TakeTurn(h, s.server, s.conns[a.conn], a.input, a.env).calls);
  }

  lemma StepAddsOwn(h: string -> Tokens.Digest, s: System, step: Step)
    requires Inv(h, s) && Enabled(h, s, step)
    ensures AddsOwn(s.server.cfg, step, s.ops, Next(h, s, step).ops)
    ensures Next(h, s, step).server.cfg == s.server.cfg
  {
    if step.action.Take? {
      TakeAddsOwn(h, s, step);
    }
  }

  lemma StillSourced(
    cfg: Config, first: TokenRuns.Op, steps: Steps, ops: seq<TokenRuns.Op>, longer: seq<TokenRuns.Op>)
    requires steps != [] && AllSourced(cfg, first, steps[..|steps| - 1], ops)
    requires AddsOwn(cfg, steps[|steps| - 1], ops, longer)
    ensures AllSourced(cfg, first, steps, longer)
  {
    forall i | 0 <= i < |longer| && longer[i].Issue?
      ensures Sourced(cfg, first, steps, longer[i])
    {
      if i < |ops| {
        assert longer[i] == ops[i];
        StillDrawn(cfg, steps, ops[i]);
      } else {
        assert Draws(cfg, steps[|steps| - 1], longer[i]);
      }
    }
  }

  lemma StillDrawn(cfg: Config, steps: Steps, op: TokenRuns.Op)
    requires steps != [] && op.Issue?
    ensures DrawnIn(cfg, steps[..|steps| - 1], op) ==> DrawnIn(cfg, steps, op)
  {
    if DrawnIn(cfg, steps[..|steps| - 1], op) {
      var k :| 0 <= k < |steps| - 1 && Draws(cfg, steps[..|steps| - 1][k], op);
      assert Draws(cfg, steps[k], op);
    }
  }

  /** Where a run has got to, with every token sourced. */
  ghost predicate SourcedRun(cfg: Config, first: TokenRuns.Op, steps: Steps, s: System) {
    s.server.cfg == cfg && AllSourced(cfg, first, steps, s.ops)
  }

  lemma StepSourced(
    h: string -> Tokens.Digest, cfg: Config, first: TokenRuns.Op, steps: Steps, before: System)
    requires steps != [] && Inv(h, before) && Enabled(h, before, steps[|steps| - 1])
    requires SourcedRun(cfg, first, steps[..|steps| - 1], before)
    ensures SourcedRun(cfg, first, steps, Next(h, before, steps[|steps| - 1]))
  {
    StepAddsOwn(h, before, steps[|steps| - 1]);
    StillSourced(cfg, first, steps, before.ops, Next(h, before, steps[|steps| - 1]).ops);
  }

  lemma {:induction false} RunSourced(h: string -> Tokens.Digest, s: System, cfg: Config, first: TokenRuns.Op, steps: Steps)
    requires Inv(h, s) && IsRun(h, s, steps) && SourcedRun(cfg, first, [], s)
    ensures SourcedRun(cfg, first, steps, After(h, s, steps))
    decreases |steps|
  {
    if steps != [] {
      var front := steps[..|steps| - 1];
      RunSourced(h, s, cfg, first, front);
      RunKeeps(h, s, front);
      StepSourced(h, cfg, first, steps, After(h, s, front));
    }
  }

  /** The bootstrap token, as `run_new` issues it. */
  function Bootstrap(cfg: Config, raw: string, now: Time): TokenRuns.Op {
    TokenRuns.Issue(raw, Tokens.AuthToken, cfg.sessionId, cfg.ownerUser, cfg.authTokenTtl, now)
  }

  /** After any run from the start of the server, every token that was issued has its source. */
  lemma TokensAreSourced(h: string -> Tokens.Digest, cfg: Config, raw: string, now: Time, steps: Steps)
    requires IsRun(h, Start(h, cfg, raw, now), steps)
    ensures AllSourced(cfg, Bootstrap(cfg, raw, now), steps, After(h, Start(h, cfg, raw, now), steps).ops)
  {
    StartKeeps(h, cfg, raw, now);
    StartHistory(h, cfg, raw, now);
    RunSourced(h, Start(h, cfg, raw, now), cfg, Bootstrap(cfg, raw, now), steps);
  }

  /** This auth token is the bootstrap token, or was drawn for the owner. */
  ghost predicate FromOwner(h: string -> Tokens.Digest, cfg: Config, raw: string, steps: Steps, x: Tokens.Digest) {
    || x == h(raw)
    || exists k :: 0 <= k < |steps| && steps[k].action.Renew?
                   && OwnersRequest(cfg, steps[k].action.request) && h(steps[k].action.raw) == x
  }

  /**
   Who can get in at all: every token that any AUTH of any run accepts is the bootstrap token, or was
   drawn for a request on the local socket with the owner's uid, this session and the owner's name.
   */
  lemma AcceptedTokensAreOwners(h: string -> Tokens.Digest, cfg: Config, raw: string, now: Time, steps: Steps)
    requires IsRun(h, Start(h, cfg, raw, now), steps)
    ensures var s := After(h, Start(h, cfg, raw, now), steps);
            forall x :: TokenHistory.Accepted(h, s.ops, x) ==> FromOwner(h, cfg, raw, steps, x)
  {
    var s0 := Start(h, cfg, raw, now);
    StartKeeps(h, cfg, raw, now);
    StartHistory(h, cfg, raw, now);
    RunKeeps(h, s0, steps);
    TokensAreSourced(h, cfg, raw, now, steps);
    var ops := After(h, s0, steps).ops;
    forall x | TokenHistory.Accepted(h, ops, x)
      ensures FromOwner(h, cfg, raw, steps, x)
    {
      var i := IssueOfAccepted(h, ops, x);
      assert Sourced(cfg, Bootstrap(cfg, raw, now), steps, ops[i]);
      if ops[i] != Bootstrap(cfg, raw, now) {
        var k :| 0 <= k < |steps| && Draws(cfg, steps[k], ops[i]);
      }
    }
  }

  lemma IssueOfAccepted(h: string -> Tokens.Digest, ops: seq<TokenRuns.Op>, x: Tokens.Digest) returns (i: nat)
    requires TokenRuns.WellFormed(h, ops) && TokenHistory.Accepted(h, ops, x)
    ensures i < |ops| && ops[i].Issue? && ops[i].kind.AuthToken? && h(ops[i].raw) == x
  {
    var k :| TokenHistory.AcceptedAt(h, ops, k, x);
    TokenHistory.AuthAcceptedIff(h, ops, k);
    i :| TokenHistory.Honours(h, ops[..k], i, ops[k], Tokens.AuthToken);
  }
}
