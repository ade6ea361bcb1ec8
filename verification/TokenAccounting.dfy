/** How many tokens a run issues and accepts. */
module TokenAccounting {
  import opened Wrappers
  import opened Tokens
  import opened TokenRuns
  import opened TokenHistory
  import opened Counting

  predicate IsAccept(h: string -> Digest, ops: seq<Op>, k: nat)
    requires k < |ops|
  {
    ops[k].Authenticate? && OutcomeAt(h, ops, k) == Answer(Success(()))
  }

  /** The digests accepted by AUTH, in order. */
  function AcceptedDigests(h: string -> Digest, ops: seq<Op>): seq<Digest>
    decreases |ops|
  {
    if ops == [] then []
    else
      var before := AcceptedDigests(h, Front(ops));
      if IsAccept(h, ops, |ops| - 1) then before + [h(Last(ops).raw)] else before
  }

  /** The digests of the issued tokens of one kind, in order. */
  function IssuedDigests(h: string -> Digest, ops: seq<Op>, kind: TokenKind): seq<Digest>
    decreases |ops|
  {
    if ops == [] then []
    else
      var before := IssuedDigests(h, Front(ops), kind);
      if Last(ops).Issue? && Last(ops).kind == kind then before + [h(Last(ops).raw)] else before
  }

  /** What the last operation of a run adds. */
  lemma DigestsGrow(h: string -> Digest, ops: seq<Op>, front: seq<Op>, last: Op, kind: TokenKind)
    requires ops != [] && Front(ops) == front && Last(ops) == last
    ensures AcceptedDigests(h, ops) == AcceptedDigests(h, front) +
              if last.Authenticate? && Apply(h, Exec(h, front), last).1 == Answer(Success(()))
              then [h(last.raw)] else []
    ensures IssuedDigests(h, ops, kind) == IssuedDigests(h, front, kind) +
              if last.Issue? && last.kind == kind then [h(last.raw)] else []
  {
  }

  lemma {:induction false} IssuedDigestsMembers(h: string -> Digest, ops: seq<Op>, kind: TokenKind, x: Digest)
    ensures x in IssuedDigests(h, ops, kind) <==>
              exists i :: 0 <= i < |ops| && ops[i].Issue? && ops[i].kind == kind && h(ops[i].raw) == x
    decreases |ops|
  {
    if ops != [] {
      IssuedDigestsMembers(h, Front(ops), kind, x);
      assert forall i :: 0 <= i < |ops| - 1 ==> Front(ops)[i] == ops[i];
      if x in IssuedDigests(h, Front(ops), kind) {
        var i :| 0 <= i < |Front(ops)| && Front(ops)[i].Issue? && Front(ops)[i].kind == kind
                 && h(Front(ops)[i].raw) == x;
        assert ops[i].Issue?;
      }
      if Last(ops).Issue? && Last(ops).kind == kind && h(Last(ops).raw) == x {
        assert ops[|ops| - 1].Issue?;
      }
    }
  }

  lemma {:induction false} AcceptedDigestsMembers(h: string -> Digest, ops: seq<Op>, x: Digest)
    ensures x in AcceptedDigests(h, ops) <==> Accepted(h, ops, x)
    decreases |ops|
  {
    if ops != [] {
      AcceptedDigestsMembers(h, Front(ops), x);
      AcceptedStep(h, ops, x);
      assert ops[..|ops| - 1] == Front(ops);
    }
  }

  lemma {:induction false} DigestsDistinct(h: string -> Digest, ops: seq<Op>, kind: TokenKind)
    requires WellFormed(h, ops)
    ensures Distinct(IssuedDigests(h, ops, kind))
    ensures Distinct(AcceptedDigests(h, ops))
    decreases |ops|
  {
    if ops != [] {
      var front, last := Front(ops), Last(ops);
      DigestsDistinct(h, front, kind);
      if last.Issue? {
        IssuedDigestsMembers(h, front, kind, h(last.raw));
      }
      if IsAccept(h, ops, |ops| - 1) {
        AcceptedDigestsMembers(h, front, h(last.raw));
        AuthAcceptedIff(h, ops, |ops| - 1);
      }
    }
  }

  /** Every AUTH that succeeds uses up one auth token: there are no more of them than auth tokens issued. */
  lemma AcceptedWithinIssued(h: string -> Digest, ops: seq<Op>)
    requires WellFormed(h, ops)
    ensures Distinct(AcceptedDigests(h, ops))
    ensures forall x :: x in AcceptedDigests(h, ops) ==> x in IssuedDigests(h, ops, AuthToken)
    ensures |AcceptedDigests(h, ops)| <= |IssuedDigests(h, ops, AuthToken)|
  {
    DigestsDistinct(h, ops, AuthToken);
    forall x | x in AcceptedDigests(h, ops)
      ensures x in IssuedDigests(h, ops, AuthToken)
    {
      AcceptedDigestsMembers(h, ops, x);
      var k :| AcceptedAt(h, ops, k, x);
      AuthAcceptedIff(h, ops, k);
      var i :| Honours(h, ops[..k], i, ops[k], AuthToken);
      IssuedDigestsMembers(h, ops, AuthToken, x);
    }
    DistinctWithin(AcceptedDigests(h, ops), IssuedDigests(h, ops, AuthToken));
  }
}
