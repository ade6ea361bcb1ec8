/** A run, step by step, in which a session that was closed is afterwards reported as timed out. */
module ClosedThenExpired {
  import opened Wrappers
  import opened Dispatching
  import opened ServerCore
  import opened Connections
  import opened SessionProtocol
  import opened ProtocolRuns
  import Tokens
  import TokenRuns

  /** A connection that has said HELLO and AUTH, and nothing else. */
  function Greeted(c: Uuid): Conn {
    Conn(c, AwaitAttachOrResume, true, None, ConnectionEnd, Running)
  }

  function Calm(now: Time, token: string): Env {
    Env(now, true, true, true, true, token)
  }

  /** A new connection says HELLO. */
  lemma SaysHello(h: string -> Tokens.Digest, s: System, c: Uuid) returns (s': System)
    requires Reachable(h, s) && c !in s.conns
    ensures Reachable(h, s') && s' == s.(conns := s.conns[c := NewConn(c).(state := AwaitAuth)])
  {
    var connect := Step(s.clock, Connect(c));
    var s1 := Next(h, s, connect);
    ReachableStep(h, s, connect);
    var hello := Step(s.clock, Take(c, Frame(Message.Hello), Calm(s.clock, [])));
    s' := Next(h, s1, hello);
    ReachableStep(h, s1, hello);
    assert s'.conns == s.conns[c := NewConn(c).(state := AwaitAuth)];
    assert s1.ops + [] == s.ops;
  }

  /** A connection with a good auth token gets through AUTH. */
  lemma SaysAuth(h: string -> Tokens.Digest, s: System, c: Uuid, raw: string, token: string) returns (s': System)
    requires Reachable(h, s) && s.stop.None? && c in s.conns && s.conns[c] == NewConn(c).(state := AwaitAuth)
    requires TokenRuns.Lookup(s.server.records, h(raw)).Some?
    requires Tokens.CheckAuth(TokenRuns.Lookup(s.server.records, h(raw)).value,
                              s.server.cfg.sessionId, s.server.cfg.ownerUser, s.clock).Success?
    requires !TokenRuns.Issued(h, s.ops, h(token))
    ensures Reachable(h, s')
    ensures s'.conns == s.conns[c := Greeted(c)] && s'.clock == s.clock && s'.stop.None?
    ensures s'.server == s.server.(records := s'.server.records)
    ensures forall x :: TokenRuns.Issued(h, s'.ops, x) ==> TokenRuns.Issued(h, s.ops, x) || x == h(token)
  {
    var auth := Step(s.clock, Take(c, Frame(Message.Auth(Some(raw))), Calm(s.clock, token)));
    s' := Next(h, s, auth);
    ReachableStep(h, s, auth);
    GoodAuthTurn(h, s.server, c, raw, token, s.clock);
    var calls := TakeTurn(h, s.server, s.conns[c], auth.action.input, auth.action.env).calls;
    forall x | TokenRuns.Issued(h, s'.ops, x) && x != h(token)
      ensures TokenRuns.Issued(h, s.ops, x)
    {
      IssuedEarlier(h, s.ops, calls, x);
    }
  }

  lemma GoodAuthTurn(h: string -> Tokens.Digest, st: Server, c: Uuid, raw: string, token: string, now: Time)
    requires TokenRuns.Lookup(st.records, h(raw)).Some?
    requires Tokens.CheckAuth(TokenRuns.Lookup(st.records, h(raw)).value,
                              st.cfg.sessionId, st.cfg.ownerUser, now).Success?
    ensures var t := TakeTurn(h, st, NewConn(c).(state := AwaitAuth), Frame(Message.Auth(Some(raw))), Calm(now, token));
            && t.conn == Greeted(c) && t.st == st.(records := t.st.records)
            && forall i :: 0 <= i < |t.calls| && t.calls[i].Issue? ==> t.calls[i].raw == token
  {
  }

  lemma IssuedEarlier(h: string -> Tokens.Digest, ops: seq<TokenRuns.Op>, more: seq<TokenRuns.Op>, x: Tokens.Digest)
    requires forall i :: 0 <= i < |more| ==> more[i].Issue? ==> h(more[i].raw) != x
    ensures TokenRuns.Issued(h, ops + more, x) ==> TokenRuns.Issued(h, ops, x)
  {
    assert forall i :: 0 <= i < |ops| ==> (ops + more)[i] == ops[i];
    assert forall i :: |ops| <= i < |ops + more| ==> (ops + more)[i] == more[i - |ops|];
  }

  lemma NewTokenFound(h: string -> Tokens.Digest, s: System, r: Tokens.Record)
    requires Reachable(h, s) && !TokenRuns.Issued(h, s.ops, r.digest)
    ensures TokenRuns.Lookup(s.server.records + [r], r.digest) == Some(r)
  {
    ReachableInv(h, s);
    TokenRuns.VectorRefinesReference(h, s.ops);
    TokenRuns.RefIssued(h, s.ops, r.digest);
    assert TokenRuns.Agrees(TokenRuns.Lookup(s.server.records, r.digest), TokenRuns.Ref(h, s.ops, r.digest),
                            TokenRuns.Clock(s.ops));
    TokenRuns.LookupAppend(s.server.records, r, r.digest);
  }

  /** A server just started has one good token. */
  lemma Boots(h: string -> Tokens.Digest, cfg: Config, a: string) returns (s: System)
    requires 0 < cfg.authTokenTtl
    ensures Reachable(h, s) && s.server.cfg == cfg && s.clock == 0 && s.stop.None? && s.conns == map[]
    ensures Untouched(s.server)
    ensures var r := TokenRuns.Lookup(s.server.records, h(a));
            r.Some? && Tokens.CheckAuth(r.value, cfg.sessionId, cfg.ownerUser, 0).Success?
    ensures forall x :: TokenRuns.Issued(h, s.ops, x) ==> x == h(a)
  {
    s := Start(h, cfg, a, 0);
    ReachableStart(h, cfg, a, 0);
    TokenRuns.LookupAppend([], Tokens.Fresh(h(a), Tokens.AuthToken, cfg.sessionId, cfg.ownerUser, cfg.authTokenTtl, 0), h(a));
  }

  predicate FourTokens(h: string -> Tokens.Digest, a: string, b: string, c: string, d: string) {
    h(a) != h(b) && h(a) != h(c) && h(a) != h(d) && h(b) != h(c) && h(b) != h(d) && h(c) != h(d)
  }

  /** A server whose first connection is authenticated. */
  lemma FirstVisitor(h: string -> Tokens.Digest, cfg: Config, a: string, b: string) returns (s: System)
    requires 0 < cfg.authTokenTtl && h(a) != h(b)
    ensures Reachable(h, s) && s.server.cfg == cfg && s.clock == 0 && s.stop.None?
    ensures s.conns == map[1 := Greeted(1)] && Untouched(s.server)
    ensures forall x :: TokenRuns.Issued(h, s.ops, x) ==> x == h(a) || x == h(b)
  {
    s := Boots(h, cfg, a);
    s := SaysHello(h, s, 1);
    s := SaysAuth(h, s, 1, a, b);
  }

  /** A server whose first connection holds the session. */
  lemma FirstHolder(h: string -> Tokens.Digest, cfg: Config, a: string, b: string) returns (s: System)
    requires 0 < cfg.authTokenTtl && h(a) != h(b)
    ensures Reachable(h, s) && s.server.cfg == cfg && s.clock == 0 && s.stop.None? && s.conns.Keys == {1}
    ensures s.Ready() && s.Session().attachedConn == Some(1) && s.Session().state.Attached?
    ensures s.conns[1].phase.Running? && s.conns[1].state == Attached && s.server.ptyStarted
    ensures forall x :: TokenRuns.Issued(h, s.ops, x) ==> x == h(a) || x == h(b)
  {
    s := FirstVisitor(h, cfg, a, b);
    s := Comes(h, s, 1);
  }

  /** A server whose first connection attached and detached at time 0. */
  lemma VisitedOnce(h: string -> Tokens.Digest, cfg: Config, a: string, b: string) returns (s: System)
    requires 0 < cfg.authTokenTtl && h(a) != h(b)
    ensures Reachable(h, s) && s.server.cfg == cfg && s.clock == 0 && s.stop.None? && 2 !in s.conns
    ensures s.Ready() && s.Session().state.Detached? && s.server.detachedAt == Some(0)
    ensures forall x :: TokenRuns.Issued(h, s.ops, x) ==> x == h(a) || x == h(b)
  {
    s := FirstHolder(h, cfg, a, b);
    ReachableInv(h, s);
    s := Goes(h, s, 1);
  }

  /** The same, with a second connection that is authenticated. */
  lemma DetachedWithVisitor(h: string -> Tokens.Digest, cfg: Config, a: string, b: string, c: string, d: string)
    returns (s: System)
    requires 0 < cfg.authTokenTtl && FourTokens(h, a, b, c, d)
    ensures Reachable(h, s) && s.server.cfg == cfg && s.clock == 0 && s.stop.None?
    ensures s.Ready() && s.Session().state.Detached? && s.server.detachedAt == Some(0)
    ensures 2 in s.conns && s.conns[2] == Greeted(2)
  {
    s := VisitedOnce(h, cfg, a, b);
    s := GetsNewToken(h, s, c);
    s := SaysHello(h, s, 2);
    s := SaysAuth(h, s, 2, c, d);
  }

  predicate Untouched(st: Server) {
    st.HasSession() && st.Session().state.Created? && st.Session().attachedConn.None? && !st.ptyStarted
  }

  /** A greeted connection takes the session. */
  lemma Comes(h: string -> Tokens.Digest, s: System, c: Uuid) returns (s': System)
    requires Reachable(h, s) && c in s.conns && s.conns[c] == Greeted(c) && Untouched(s.server)
    ensures Reachable(h, s') && s'.clock == s.clock && s'.stop == s.stop && s'.ops == s.ops
    ensures s'.conns.Keys == s.conns.Keys && s'.server.cfg == s.server.cfg && s'.server.records == s.server.records
    ensures s'.Ready() && s'.Session().attachedConn == Some(c) && s'.Session().state.Attached?
    ensures s'.conns[c].phase.Running? && s'.conns[c].state == Attached && s'.server.ptyStarted
  {
    var attach := Step(s.clock, Take(c, Frame(Message.Attach(Some(s.server.cfg.sessionId))), Calm(s.clock, [])));
    s' := Next(h, s, attach);
    ReachableStep(h, s, attach);
    assert s'.ops == s.ops + [];
  }

  /** The owner detaches. */
  lemma Goes(h: string -> Tokens.Digest, s: System, c: Uuid) returns (s': System)
    requires Reachable(h, s) && c in s.conns && s.conns[c].id == c && s.conns[c].phase.Running?
    requires s.conns[c].state == Attached
    requires s.Ready() && s.Session().attachedConn == Some(c) && s.Session().state.Attached?
    ensures Reachable(h, s') && s'.clock == s.clock && s'.stop == s.stop && s'.ops == s.ops
    ensures s'.conns.Keys == s.conns.Keys && s'.server.cfg == s.server.cfg && s'.server.records == s.server.records
    ensures s'.Ready() && s'.Session().state.Detached? && s'.server.detachedAt == Some(s.clock)
  {
    var detach := Step(s.clock, Take(c, Frame(Message.Detach), Calm(s.clock, [])));
    s' := Next(h, s, detach);
    ReachableStep(h, s, detach);
    assert s'.ops == s.ops + [];
  }

  /** A greeted connection closes the session. */
  lemma Ends(h: string -> Tokens.Digest, s: System, c: Uuid) returns (s': System)
    requires Reachable(h, s) && c in s.conns && s.conns[c] == Greeted(c) && s.Ready()
    ensures Reachable(h, s') && s'.clock == s.clock && s'.stop == s.stop && s'.server.cfg == s.server.cfg
    ensures s'.Ready() && s'.Session().state.Terminated? && s'.server.detachedAt == s.server.detachedAt
    ensures s'.conns.Keys == s.conns.Keys && forall d :: d in s.conns && d != c ==> s'.conns[d] == s.conns[d]
  {
    var close := Step(s.clock, Take(c, Frame(Message.Close), Calm(s.clock, [])));
    s' := Next(h, s, close);
    ReachableStep(h, s, close);
  }

  lemma GetsNewToken(h: string -> Tokens.Digest, s: System, raw: string) returns (s': System)
    requires Reachable(h, s) && !TokenRuns.Issued(h, s.ops, h(raw)) && 0 < s.server.cfg.authTokenTtl
    ensures Reachable(h, s') && s' == s.(server := s.server.(records := s'.server.records), ops := s'.ops)
    ensures var r := TokenRuns.Lookup(s'.server.records, h(raw));
            r.Some? && Tokens.CheckAuth(r.value, s.server.cfg.sessionId, s.server.cfg.ownerUser, s.clock).Success?
    ensures forall x :: TokenRuns.Issued(h, s'.ops, x) ==> TokenRuns.Issued(h, s.ops, x) || x == h(raw)
  {
    var cfg := s.server.cfg;
    var renew := Step(s.clock, Renew(RenewRequest(cfg.ownerUid, cfg.sessionId, cfg.ownerUser), raw));
    s' := Next(h, s, renew);
    ReachableStep(h, s, renew);
    NewTokenFound(h, s, Tokens.Fresh(h(raw), Tokens.AuthToken, cfg.sessionId, cfg.ownerUser, cfg.authTokenTtl, s.clock));
    forall x | TokenRuns.Issued(h, s'.ops, x) && x != h(raw)
      ensures TokenRuns.Issued(h, s.ops, x)
    {
      IssuedEarlier(h, s.ops, [IssueOp(cfg, Tokens.AuthToken, raw, s.clock)], x);
    }
  }

  /**
   It happens: a session detached at time 0, closed by a second connection, is turned from
   Terminated into Expired by a check at time `session_timeout`, and the stop is called a timeout.
   */
  lemma TerminatedThenExpired(h: string -> Tokens.Digest, cfg: Config, a: string, b: string, c: string, d: string)
    returns (s: System, check: Step)
    requires 0 < cfg.authTokenTtl && 0 < cfg.sessionTimeout
    requires FourTokens(h, a, b, c, d)
    ensures Reachable(h, s) && s.Ready() && s.Session().state.Terminated?
    ensures Enabled(h, s, check) && check.action.AcceptCheck?
    ensures Next(h, s, check).Ready() && Next(h, s, check).Session().state.Expired?
    ensures Next(h, s, check).stop == Some(DetachedSessionTimeout)
  {
    var s1 := DetachedWithVisitor(h, cfg, a, b, c, d);
    s := Ends(h, s1, 2);
    check := Step(cfg.sessionTimeout, AcceptCheck);
  }
}
