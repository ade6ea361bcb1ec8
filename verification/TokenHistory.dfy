/**
 What a run of the token store accepts, told by its history alone: when a token was issued,
 for whom, and what was asked of it since. Holds with sweeps anywhere in the run.
 */
module TokenHistory {
  import opened Wrappers
  import opened Tokens
  import opened TokenRuns

  lemma {:induction false} WellFormedPrefix(h: string -> Digest, ops: seq<Op>, k: nat)
    requires WellFormed(h, ops) && k <= |ops|
    ensures WellFormed(h, ops[..k])
    ensures Clock(ops[..k]) <= Clock(ops)
    ensures k < |ops| ==> Clock(ops[..k]) <= ops[k].now
    decreases |ops|
  {
    if k == |ops| {
      assert ops[..k] == ops;
    } else {
      assert Front(ops)[..k] == ops[..k];
      WellFormedPrefix(h, Front(ops), k);
    }
  }

  predicate AcceptedAt(h: string -> Digest, ops: seq<Op>, k: int, x: Digest) {
    0 <= k < |ops| && ops[k].Authenticate? && h(ops[k].raw) == x && OutcomeAt(h, ops, k) == Answer(Success(()))
  }

  ghost predicate Accepted(h: string -> Digest, ops: seq<Op>, x: Digest) {
    exists k :: AcceptedAt(h, ops, k, x)
  }

  predicate RevokedAt(h: string -> Digest, ops: seq<Op>, k: int, x: Digest) {
    0 <= k < |ops| && ops[k].Revoke? && h(ops[k].raw) == x
  }

  ghost predicate RevokedSince(h: string -> Digest, ops: seq<Op>, i: int, x: Digest) {
    exists k :: i < k && RevokedAt(h, ops, k, x)
  }

  /** Being accepted is decided by the reference record, whatever was swept. */
  lemma AcceptedByReference(h: string -> Digest, ops: seq<Op>, k: nat)
    requires WellFormed(h, ops) && k < |ops| && ops[k].Authenticate?
    ensures AcceptedAt(h, ops, k, h(ops[k].raw)) <==>
              var ref := Ref(h, ops[..k], h(ops[k].raw));
              ref.Some? && CheckAuth(ref.value, ops[k].session, ops[k].user, ops[k].now).Success?
  {
    WellFormedPrefix(h, ops, k);
    VectorRefinesReference(h, ops[..k]);
    assert Agrees(Lookup(Exec(h, ops[..k]), h(ops[k].raw)), Ref(h, ops[..k], h(ops[k].raw)), Clock(ops[..k]));
  }

  lemma AcceptedStep(h: string -> Digest, ops: seq<Op>, x: Digest)
    requires ops != []
    ensures Accepted(h, ops, x) <==> Accepted(h, Front(ops), x) || AcceptedAt(h, ops, |ops| - 1, x)
  {
    assert forall k :: 0 <= k < |ops| - 1 ==> Front(ops)[..k] == ops[..k] && Front(ops)[k] == ops[k];
    if Accepted(h, ops, x) {
      var k :| AcceptedAt(h, ops, k, x);
      if k < |ops| - 1 {
        assert AcceptedAt(h, Front(ops), k, x);
      }
    }
    if Accepted(h, Front(ops), x) {
      var k :| AcceptedAt(h, Front(ops), k, x);
      assert AcceptedAt(h, ops, k, x);
    }
  }

  lemma RevokedStep(h: string -> Digest, ops: seq<Op>, i: int, x: Digest)
    requires ops != []
    ensures RevokedSince(h, ops, i, x) <==>
              RevokedSince(h, Front(ops), i, x) || (i < |ops| - 1 && RevokedAt(h, ops, |ops| - 1, x))
  {
    if RevokedSince(h, ops, i, x) {
      var k :| i < k && RevokedAt(h, ops, k, x);
      if k < |ops| - 1 {
        assert RevokedAt(h, Front(ops), k, x);
      }
    }
    if RevokedSince(h, Front(ops), i, x) {
      var k :| i < k && RevokedAt(h, Front(ops), k, x);
      assert RevokedAt(h, ops, k, x);
    }
  }

  lemma {:induction false} AcceptedWasIssued(h: string -> Digest, ops: seq<Op>, x: Digest)
    requires WellFormed(h, ops)
    ensures Accepted(h, ops, x) ==> Issued(h, ops, x)
    decreases |ops|
  {
    if Accepted(h, ops, x) {
      var k :| AcceptedAt(h, ops, k, x);
      AcceptedByReference(h, ops, k);
      RefIssued(h, ops[..k], x);
      var i :| 0 <= i < k && ops[..k][i].Issue? && h(ops[..k][i].raw) == x;
      assert ops[i].Issue?;
    }
  }

  /** The reference record of an issued token is its issue, marked by what happened to it since. */
  lemma {:induction false} ReferenceIsHistory(h: string -> Digest, ops: seq<Op>, i: nat, x: Digest)
    requires WellFormed(h, ops) && i < |ops| && ops[i].Issue? && h(ops[i].raw) == x
    ensures Ref(h, ops, x).Some?
    ensures var r := Ref(h, ops, x).value;
            && r.kind == ops[i].kind && r.session == ops[i].session && r.user == ops[i].user
            && r.expiresAt == ops[i].now + ops[i].ttl
            && (r.consumedAt.Some? <==> Accepted(h, ops, x))
            && (r.revokedAt.Some? <==> RevokedSince(h, ops, i, x))
    decreases |ops|
  {
    var front, n := Front(ops), |ops| - 1;
    AcceptedStep(h, ops, x);
    RevokedStep(h, ops, i, x);
    if i == n {
      AcceptedWasIssued(h, front, x);
    } else {
      assert front[i] == ops[i];
      ReferenceIsHistory(h, front, i, x);
      assert ops[..n] == front;
      assert Issued(h, front, x);
      if Last(ops).Authenticate? {
        AcceptedByReference(h, ops, n);
      }
    }
  }

  /** `issue` made a token of this kind for the bearer named in the attempt. */
  predicate Names(h: string -> Digest, issue: Op, attempt: Op, kind: TokenKind)
    requires attempt.Authenticate? || attempt.Resume?
  {
    && issue.Issue? && h(issue.raw) == h(attempt.raw)
    && issue.kind == kind && issue.session == attempt.session && issue.user == attempt.user
  }

  /** Issue `i` of the past entitles the bearer of an attempt: it names him, is in time and not revoked. */
  ghost predicate Honours(h: string -> Digest, past: seq<Op>, i: int, attempt: Op, kind: TokenKind)
    requires attempt.Authenticate? || attempt.Resume?
  {
    && 0 <= i < |past| && Names(h, past[i], attempt, kind)
    && attempt.now < past[i].now + past[i].ttl
    && !RevokedSince(h, past, i, h(attempt.raw))
  }

  /** Some issue entitles the bearer. */
  ghost predicate Entitled(h: string -> Digest, past: seq<Op>, attempt: Op, kind: TokenKind)
    requires attempt.Authenticate? || attempt.Resume?
  {
    exists i :: Honours(h, past, i, attempt, kind)
  }

  /** The rule for AUTH, for an attempt made at the end of a run. */
  lemma NextAuthIff(h: string -> Digest, past: seq<Op>, attempt: Op)
    requires WellFormed(h, past) && Clock(past) <= attempt.now && attempt.Authenticate?
    ensures Apply(h, Exec(h, past), attempt).1 == Answer(Success(())) <==>
              Entitled(h, past, attempt, AuthToken) && !Accepted(h, past, h(attempt.raw))
  {
    var x, got := h(attempt.raw), Apply(h, Exec(h, past), attempt).1 == Answer(Success(()));
    VectorRefinesReference(h, past);
    assert Agrees(Lookup(Exec(h, past), x), Ref(h, past, x), Clock(past));
    RefIssued(h, past, x);
    forall i | 0 <= i < |past| && past[i].Issue? && h(past[i].raw) == x
      ensures got <==> Honours(h, past, i, attempt, AuthToken) && !Accepted(h, past, x)
    {
      ReferenceIsHistory(h, past, i, x);
    }
    if got {
      var i :| 0 <= i < |past| && past[i].Issue? && h(past[i].raw) == x;
      assert Honours(h, past, i, attempt, AuthToken);
    }
  }

  /** The rule for RESUME, for an attempt made at the end of a run. */
  lemma NextResumeIff(h: string -> Digest, past: seq<Op>, attempt: Op)
    requires WellFormed(h, past) && Clock(past) <= attempt.now && attempt.Resume?
    ensures Apply(h, Exec(h, past), attempt).1 == Answer(Success(())) <==> Entitled(h, past, attempt, ResumeToken)
  {
    var x, got := h(attempt.raw), Apply(h, Exec(h, past), attempt).1 == Answer(Success(()));
    VectorRefinesReference(h, past);
    assert Agrees(Lookup(Exec(h, past), x), Ref(h, past, x), Clock(past));
    RefIssued(h, past, x);
    forall i | 0 <= i < |past| && past[i].Issue? && h(past[i].raw) == x
      ensures got <==> Honours(h, past, i, attempt, ResumeToken)
    {
      ReferenceIsHistory(h, past, i, x);
    }
    if got {
      var i :| 0 <= i < |past| && past[i].Issue? && h(past[i].raw) == x;
      assert Honours(h, past, i, attempt, ResumeToken);
    }
  }

  /**
   The exact acceptance rule for AUTH. An attempt is accepted if and only if its token was issued
   earlier as an auth token for the same session and user, has not expired, has not been revoked
   since it was issued, and has not been accepted before.
   */
  lemma AuthAcceptedIff(h: string -> Digest, ops: seq<Op>, k: nat)
    requires WellFormed(h, ops) && k < |ops| && ops[k].Authenticate?
    ensures AcceptedAt(h, ops, k, h(ops[k].raw)) <==>
              Entitled(h, ops[..k], ops[k], AuthToken) && !Accepted(h, ops[..k], h(ops[k].raw))
  {
    WellFormedPrefix(h, ops, k);
    NextAuthIff(h, ops[..k], ops[k]);
  }

  /** The exact acceptance rule for RESUME: as for AUTH, but as often as it is asked. */
  lemma ResumeAcceptedIff(h: string -> Digest, ops: seq<Op>, k: nat)
    requires WellFormed(h, ops) && k < |ops| && ops[k].Resume?
    ensures OutcomeAt(h, ops, k) == Answer(Success(())) <==> Entitled(h, ops[..k], ops[k], ResumeToken)
  {
    WellFormedPrefix(h, ops, k);
    NextResumeIff(h, ops[..k], ops[k]);
  }

  /** Single use: two accepted AUTH attempts of one run never present the same token. */
  lemma AuthTokenSingleUse(h: string -> Digest, ops: seq<Op>, j: nat, k: nat)
    requires WellFormed(h, ops) && j < k < |ops|
    requires ops[j].Authenticate? && ops[k].Authenticate?
    requires OutcomeAt(h, ops, j) == Answer(Success(())) && OutcomeAt(h, ops, k) == Answer(Success(()))
    ensures h(ops[j].raw) != h(ops[k].raw) && ops[j].raw != ops[k].raw
  {
    assert ops[..k][..j] == ops[..j];
    assert AcceptedAt(h, ops[..k], j, h(ops[j].raw));
    AuthAcceptedIff(h, ops, k);
  }
}
