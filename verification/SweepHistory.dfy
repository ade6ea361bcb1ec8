/**
 What the sweeper has removed, told by the history alone: a token is forgotten once a sweep came
 after its expiry and found no acceptance or revocation of it within the retention.
 */
module SweepHistory {
  import opened Wrappers
  import opened Tokens
  import opened TokenRuns
  import opened TokenHistory

  // ---------------------------------------------------------------- marks

  /** Operation `j` accepts or revokes the token. */
  predicate MarkAt(h: string -> Digest, ops: seq<Op>, j: int, x: Digest) {
    AcceptedAt(h, ops, j, x) || RevokedAt(h, ops, j, x)
  }

  predicate RecentMarkAt(h: string -> Digest, ops: seq<Op>, i: int, j: int, x: Digest, now: Time, retention: Time) {
    i < j && MarkAt(h, ops, j, x) && now - ops[j].now <= retention
  }

  /** Since issue `i` the token was accepted or revoked, no longer ago than the retention. */
  ghost predicate MarkedRecently(h: string -> Digest, ops: seq<Op>, i: int, x: Digest, now: Time, retention: Time) {
    exists j :: RecentMarkAt(h, ops, i, j, x, now, retention)
  }

  lemma MarkedStep(h: string -> Digest, ops: seq<Op>, i: int, x: Digest, now: Time, retention: Time)
    requires ops != []
    ensures MarkedRecently(h, ops, i, x, now, retention) <==>
              || MarkedRecently(h, Front(ops), i, x, now, retention)
              || RecentMarkAt(h, ops, i, |ops| - 1, x, now, retention)
  {
    assert forall k :: 0 <= k < |ops| - 1 ==> Front(ops)[..k] == ops[..k] && Front(ops)[k] == ops[k];
    if MarkedRecently(h, ops, i, x, now, retention) {
      var j :| RecentMarkAt(h, ops, i, j, x, now, retention);
      assert j < |ops| - 1 ==> RecentMarkAt(h, Front(ops), i, j, x, now, retention);
    }
    if MarkedRecently(h, Front(ops), i, x, now, retention) {
      var j :| RecentMarkAt(h, Front(ops), i, j, x, now, retention);
      assert RecentMarkAt(h, ops, i, j, x, now, retention);
    }
  }

  predicate NotAfter(mark: Option<Time>, now: Time) {
    mark.Some? ==> mark.value <= now
  }

  lemma {:induction false} MarksArePast(h: string -> Digest, ops: seq<Op>, x: Digest)
    requires WellFormed(h, ops)
    ensures var r := Ref(h, ops, x);
            r.Some? ==> NotAfter(r.value.consumedAt, Clock(ops)) && NotAfter(r.value.revokedAt, Clock(ops))
    decreases |ops|
  {
    if ops != [] {
      MarksArePast(h, Front(ops), x);
    }
  }

  predicate RecentlyMarked(r: Record, now: Time, retention: Time) {
    Recent(r.revokedAt, now, retention) || Recent(r.consumedAt, now, retention)
  }

  /** The last operation of a run, seen by its reference record. */
  lemma ReferenceStep(h: string -> Digest, ops: seq<Op>, x: Digest)
    requires WellFormed(h, ops) && ops != [] && Ref(h, Front(ops), x).Some?
    ensures Ref(h, ops, x) ==
            var r, last := Ref(h, Front(ops), x).value, Last(ops);
            if AcceptedAt(h, ops, |ops| - 1, x) then Some(r.(consumedAt := Some(last.now)))
            else if RevokedAt(h, ops, |ops| - 1, x) then Some(r.(revokedAt := Some(last.now)))
            else Some(r)
    ensures AcceptedAt(h, ops, |ops| - 1, x) ==> Ref(h, Front(ops), x).value.consumedAt.None?
  {
    var n := |ops| - 1;
    assert ops[..n] == Front(ops);
    RefIssued(h, Front(ops), x);
    if Last(ops).Authenticate? {
      AcceptedByReference(h, ops, n);
    }
  }

  /** The marks in the reference record are recent if and only if some accepting or revoking operation is. */
  lemma {:induction false} RecentIff(h: string -> Digest, ops: seq<Op>, i: nat, x: Digest, now: Time, retention: Time)
    requires WellFormed(h, ops) && Clock(ops) <= now
    requires i < |ops| && ops[i].Issue? && h(ops[i].raw) == x
    ensures Ref(h, ops, x).Some?
    ensures RecentlyMarked(Ref(h, ops, x).value, now, retention) <==> MarkedRecently(h, ops, i, x, now, retention)
    decreases |ops|
  {
    var front, n := Front(ops), |ops| - 1;
    if i == n {
      assert !MarkedRecently(h, ops, i, x, now, retention);
    } else {
      assert front[i] == ops[i];
      RecentIff(h, front, i, x, now, retention);
      MarkedStep(h, ops, i, x, now, retention);
      ReferenceStep(h, ops, x);
      MarksArePast(h, front, x);
    }
  }

  // ---------------------------------------------------------------- sweeps

  /** Sweep `k` finds the token's record outside its retention. */
  predicate SweptAt(h: string -> Digest, ops: seq<Op>, k: int, x: Digest) {
    && 0 <= k < |ops| && ops[k].Sweep?
    && var r := Ref(h, ops[..k], x);
       r.Some? && !Retained(r.value, ops[k].now, ops[k].retention)
  }

  ghost predicate Swept(h: string -> Digest, ops: seq<Op>, x: Digest) {
    exists k :: SweptAt(h, ops, k, x)
  }

  lemma SweptStep(h: string -> Digest, ops: seq<Op>, x: Digest)
    requires ops != []
    ensures Swept(h, ops, x) <==> Swept(h, Front(ops), x) || SweptAt(h, ops, |ops| - 1, x)
  {
    assert forall k :: 0 <= k < |ops| - 1 ==> Front(ops)[..k] == ops[..k] && Front(ops)[k] == ops[k];
    if Swept(h, ops, x) {
      var k :| SweptAt(h, ops, k, x);
      assert k < |ops| - 1 ==> SweptAt(h, Front(ops), k, x);
    }
    if Swept(h, Front(ops), x) {
      var k :| SweptAt(h, Front(ops), k, x);
      assert SweptAt(h, ops, k, x);
    }
  }

  lemma {:induction false} SweptWasIssued(h: string -> Digest, ops: seq<Op>, x: Digest)
    ensures Swept(h, ops, x) ==> Issued(h, ops, x)
  {
    if Swept(h, ops, x) {
      var k :| SweptAt(h, ops, k, x);
      RefIssued(h, ops[..k], x);
      var i :| 0 <= i < k && ops[..k][i].Issue? && h(ops[..k][i].raw) == x;
      assert ops[i].Issue?;
    }
  }

  /**
   What a search finds after any run, sweeps included: nothing if a sweep ever found the record
   outside its retention, and otherwise exactly what the history says.
   */
  lemma {:induction false} LookupByHistory(h: string -> Digest, ops: seq<Op>, x: Digest)
    requires WellFormed(h, ops)
    ensures Lookup(Exec(h, ops), x) == if Swept(h, ops, x) then None else Ref(h, ops, x)
    decreases |ops|
  {
    if ops == [] {
      assert !Swept(h, ops, x);
    } else {
      var front, last := Front(ops), Last(ops);
      LookupByHistory(h, front, x);
      SweptStep(h, ops, x);
      SweptWasIssued(h, front, x);
      assert ops[..|ops| - 1] == front;
      VectorRefinesReference(h, front);
      if last.Issue? {
        RefIssued(h, front, h(last.raw));
        assert Agrees(Lookup(Exec(h, front), h(last.raw)), Ref(h, front, h(last.raw)), Clock(front));
      }
      LookupStep(h, Exec(h, front), last, x);
    }
  }

  lemma FreshWhenIssued(h: string -> Digest, ops: seq<Op>, k: nat)
    requires WellFormed(h, ops) && k < |ops| && ops[k].Issue?
    ensures !Issued(h, ops[..k], h(ops[k].raw))
  {
    WellFormedPrefix(h, ops, k + 1);
    assert Front(ops[..k + 1]) == ops[..k];
  }

  lemma IssuedOnce(h: string -> Digest, ops: seq<Op>, i: nat, j: nat)
    requires WellFormed(h, ops) && i < |ops| && j < |ops|
    requires ops[i].Issue? && ops[j].Issue? && h(ops[i].raw) == h(ops[j].raw)
    ensures i == j
  {
    var a, b := if i < j then i else j, if i < j then j else i;
    if a < b {
      assert ops[..b][a] == ops[a];
      FreshWhenIssued(h, ops, b);
    }
  }

  /** Sweep `k` removes the token of issue `i`: it has expired, and was not marked within the retention. */
  ghost predicate Removes(h: string -> Digest, ops: seq<Op>, i: int, k: int) {
    && 0 <= i < k < |ops| && ops[i].Issue? && ops[k].Sweep?
    && ops[i].now + ops[i].ttl <= ops[k].now
    && !MarkedRecently(h, ops[..k], i, h(ops[i].raw), ops[k].now, ops[k].retention)
  }

  /** The same sweep, told by the operations alone. */
  lemma RemovesIff(h: string -> Digest, ops: seq<Op>, i: nat, k: int)
    requires WellFormed(h, ops) && i < |ops| && ops[i].Issue?
    ensures Removes(h, ops, i, k) <==> SweptAt(h, ops, k, h(ops[i].raw))
  {
    var x := h(ops[i].raw);
    if 0 <= k < |ops| && ops[k].Sweep? {
      var past := ops[..k];
      assert i < k ==> past[i] == ops[i];
      WellFormedPrefix(h, ops, k);
      RefIssued(h, past, x);
      if Issued(h, past, x) {
        var j :| 0 <= j < k && past[j].Issue? && h(past[j].raw) == x;
        IssuedOnce(h, ops, i, j);
        ReferenceIsHistory(h, past, i, x);
        RecentIff(h, past, i, x, ops[k].now, ops[k].retention);
      }
    }
  }

  /** The token of issue `i` has been removed by some sweep. */
  ghost predicate Forgotten(h: string -> Digest, ops: seq<Op>, i: int) {
    exists k :: Removes(h, ops, i, k)
  }

  /** A search finds an issued token, with its marks, unless the history has it forgotten. */
  lemma FoundUnlessForgotten(h: string -> Digest, ops: seq<Op>, i: nat)
    requires WellFormed(h, ops) && i < |ops| && ops[i].Issue?
    ensures var x := h(ops[i].raw);
            Lookup(Exec(h, ops), x) == if Forgotten(h, ops, i) then None else Ref(h, ops, x)
  {
    var x := h(ops[i].raw);
    LookupByHistory(h, ops, x);
    if Forgotten(h, ops, i) {
      var k :| Removes(h, ops, i, k);
      RemovesIff(h, ops, i, k);
    }
    if Swept(h, ops, x) {
      var k :| SweptAt(h, ops, k, x);
      RemovesIff(h, ops, i, k);
    }
  }

  /** A record of this kind for the bearer named in the attempt. */
  predicate Bound(r: Option<Record>, attempt: Op, kind: TokenKind)
    requires attempt.Authenticate? || attempt.Resume?
  {
    r.Some? && r.value.kind == kind && r.value.session == attempt.session && r.value.user == attempt.user
  }

  /** The token was issued for its bearer and no sweep has removed it. */
  ghost predicate Known(h: string -> Digest, ops: seq<Op>, attempt: Op, kind: TokenKind)
    requires attempt.Authenticate? || attempt.Resume?
  {
    exists i: nat :: i < |ops| && Names(h, ops[i], attempt, kind) && !Forgotten(h, ops, i)
  }

  lemma KnownIff(h: string -> Digest, ops: seq<Op>, attempt: Op, kind: TokenKind)
    requires WellFormed(h, ops) && (attempt.Authenticate? || attempt.Resume?)
    ensures Bound(Lookup(Exec(h, ops), h(attempt.raw)), attempt, kind) <==> Known(h, ops, attempt, kind)
  {
    var x := h(attempt.raw);
    LookupByHistory(h, ops, x);
    RefIssued(h, ops, x);
    forall i: nat | i < |ops| && ops[i].Issue? && h(ops[i].raw) == x
      ensures Bound(Lookup(Exec(h, ops), x), attempt, kind) <==>
                Names(h, ops[i], attempt, kind) && !Forgotten(h, ops, i)
    {
      ReferenceIsHistory(h, ops, i, x);
      FoundUnlessForgotten(h, ops, i);
    }
  }

  // ---------------------------------------------------------------- answers

  /** The answer to AUTH or RESUME with the token of issue `i`, by what happened to it since. */
  ghost predicate AnsweredBy(h: string -> Digest, past: seq<Op>, i: int, attempt: Op, v: Verdict)
    requires 0 <= i < |past| && past[i].Issue? && (attempt.Authenticate? || attempt.Resume?)
  {
    var x, kind := h(attempt.raw), if attempt.Authenticate? then AuthToken else ResumeToken;
    v == if Forgotten(h, past, i) then Failure(NotFound)
         else if past[i].kind != kind then Failure(TypeMismatch)
         else if past[i].session != attempt.session || past[i].user != attempt.user then Failure(BindingMismatch)
         else if past[i].now + past[i].ttl <= attempt.now then Failure(Expired)
         else if RevokedSince(h, past, i, x) then Failure(Revoked)
         else if attempt.Authenticate? && Accepted(h, past, x) then Failure(Consumed)
         else Success(())
  }

  /**
   Every answer of the token store, told by the history: NotFound for a token that was never issued or
   has been removed by a sweep, and otherwise the first of these that applies: the other kind, another
   bearer, expired, revoked since it was issued, and for AUTH accepted before.
   */
  lemma AnswerByHistory(h: string -> Digest, past: seq<Op>, attempt: Op)
    requires WellFormed(h, past) && (attempt.Authenticate? || attempt.Resume?)
    ensures !Issued(h, past, h(attempt.raw)) ==> Apply(h, Exec(h, past), attempt).1 == Answer(Failure(NotFound))
    ensures forall i :: 0 <= i < |past| && past[i].Issue? && h(past[i].raw) == h(attempt.raw) ==>
              AnsweredBy(h, past, i, attempt, Apply(h, Exec(h, past), attempt).1.verdict)
  {
    var x := h(attempt.raw);
    LookupByHistory(h, past, x);
    RefIssued(h, past, x);
    forall i | 0 <= i < |past| && past[i].Issue? && h(past[i].raw) == x
      ensures AnsweredBy(h, past, i, attempt, Apply(h, Exec(h, past), attempt).1.verdict)
    {
      ReferenceIsHistory(h, past, i, x);
      FoundUnlessForgotten(h, past, i);
    }
  }

  /** A revocation succeeds if and only if the token was issued and has not been removed. */
  lemma RevokeByHistory(h: string -> Digest, past: seq<Op>, op: Op)
    requires WellFormed(h, past) && op.Revoke?
    ensures !Issued(h, past, h(op.raw)) ==> Apply(h, Exec(h, past), op) == (Exec(h, past), Answer(Failure(NotFound)))
    ensures forall i :: 0 <= i < |past| && past[i].Issue? && h(past[i].raw) == h(op.raw) ==>
              Apply(h, Exec(h, past), op).1 ==
              Answer(if Forgotten(h, past, i) then Failure(NotFound) else Success(()))
  {
    var x := h(op.raw);
    LookupByHistory(h, past, x);
    RefIssued(h, past, x);
    forall i | 0 <= i < |past| && past[i].Issue? && h(past[i].raw) == x
      ensures Apply(h, Exec(h, past), op).1 == Answer(if Forgotten(h, past, i) then Failure(NotFound) else Success(()))
    {
      ReferenceIsHistory(h, past, i, x);
      FoundUnlessForgotten(h, past, i);
    }
  }

  /**
   What a sweep keeps of any vector, marks of the future included: the records that have not expired,
   and those marked within the retention, and no others.
   */
  lemma {:induction false} SweepKeepsExactly(rs: seq<Record>, now: Time, retention: Time, r: Record)
    ensures r in AfterSweep(rs, now, retention) <==>
              && r in rs
              && (|| now < r.expiresAt
                  || (r.revokedAt.Some? && r.revokedAt.value <= now <= r.revokedAt.value + retention)
                  || (r.consumedAt.Some? && r.consumedAt.value <= now <= r.consumedAt.value + retention))
    decreases |rs|
  {
    if rs != [] {
      SweepKeepsExactly(rs[..|rs| - 1], now, retention, r);
      assert rs == rs[..|rs| - 1] + [rs[|rs| - 1]];
    }
  }

  lemma SweepLast(front: seq<Record>, last: Record, now: Time, retention: Time)
    ensures AfterSweep(front + [last], now, retention) ==
            AfterSweep(front, now, retention) + if Retained(last, now, retention) then [last] else []
  {
    var rs := front + [last];
    assert rs[..|rs| - 1] == front && rs[|rs| - 1] == last;
    assert AfterSweep(front, now, retention) + [] == AfterSweep(front, now, retention);
  }

  lemma Associate(a: seq<Record>, b: seq<Record>, c: seq<Record>)
    ensures a + (b + c) == (a + b) + c
  {
  }

  /** And it keeps them in their order: it takes a vector part by part. */
  lemma {:induction false} SweepKeepsOrder(a: seq<Record>, b: seq<Record>, now: Time, retention: Time)
    ensures AfterSweep(a + b, now, retention) == AfterSweep(a, now, retention) + AfterSweep(b, now, retention)
    decreases |b|
  {
    if b == [] {
      assert a + b == a && AfterSweep(a, now, retention) + [] == AfterSweep(a, now, retention);
    } else {
      var front, last := b[..|b| - 1], b[|b| - 1];
      assert b == front + [last];
      SweepKeepsOrder(a, front, now, retention);
      SweepLast(a + front, last, now, retention);
      SweepLast(front, last, now, retention);
      Associate(a, front, [last]);
      Associate(AfterSweep(a, now, retention), AfterSweep(front, now, retention),
                if Retained(last, now, retention) then [last] else []);
    }
  }
}
