/**
 Sweeping is invisible to whoever presents tokens: a run with `cleanup_expired` anywhere in it,
 with any retention, answers every AUTH and RESUME like the same run without sweeps, up to one
 difference on the wire.
 */
module SweeperTransparency {
  import opened Wrappers
  import opened Tokens
  import opened TokenRuns
  import opened TokenHistory
  import opened WireErrors
  import opened SweepHistory

  /** The run with its sweeps left out. */
  function Unswept(ops: seq<Op>): (r: seq<Op>)
    ensures forall k :: 0 <= k < |r| ==> !r[k].Sweep?
    decreases |ops|
  {
    if ops == [] then []
    else if Last(ops).Sweep? then Unswept(Front(ops))
    else Unswept(Front(ops)) + [Last(ops)]
  }

  lemma {:induction false} UnsweptRef(h: string -> Digest, ops: seq<Op>, x: Digest)
    ensures Ref(h, Unswept(ops), x) == Ref(h, ops, x)
    decreases |ops|
  {
    if ops != [] {
      UnsweptRef(h, Front(ops), x);
      if !Last(ops).Sweep? {
        assert Front(Unswept(ops)) == Unswept(Front(ops));
      }
    }
  }

  lemma {:induction false} UnsweptWellFormed(h: string -> Digest, ops: seq<Op>)
    requires WellFormed(h, ops)
    ensures WellFormed(h, Unswept(ops)) && Clock(Unswept(ops)) <= Clock(ops)
    decreases |ops|
  {
    if ops != [] {
      UnsweptWellFormed(h, Front(ops));
      if !Last(ops).Sweep? {
        assert Front(Unswept(ops)) == Unswept(Front(ops));
        if Last(ops).Issue? {
          var x := h(Last(ops).raw);
          RefIssued(h, Front(ops), x);
          RefIssued(h, Unswept(Front(ops)), x);
          UnsweptRef(h, Front(ops), x);
        }
      }
    }
  }

  /** What a client is told about an attempt: nothing wrong, or an error frame. */
  function WireAnswer(op: Op, v: Verdict): Option<ErrorFrame>
    requires op.Authenticate? || op.Resume?
  {
    match v
    case Success(_) => None
    case Failure(e) =>
      Some(ErrorFrameFor(if op.Authenticate? then MapTokenAuthError(e) else MapTokenResumeError(e)))
  }

  /** The answer an attempt gets when made after a run. */
  function AnswerAfter(h: string -> Digest, ops: seq<Op>, attempt: Op): Verdict
    requires attempt.Authenticate? || attempt.Resume?
  {
    Apply(h, Exec(h, ops), attempt).1.verdict
  }

  /** The answer as the record found decides it. */
  function VerdictOn(r: Option<Record>, attempt: Op): Verdict
    requires attempt.Authenticate? || attempt.Resume?
  {
    if r.None? then Failure(NotFound)
    else if attempt.Authenticate? then CheckAuth(r.value, attempt.session, attempt.user, attempt.now)
    else CheckResume(r.value, attempt.session, attempt.user, attempt.now)
  }

  lemma AnswerByLookup(h: string -> Digest, ops: seq<Op>, attempt: Op)
    requires attempt.Authenticate? || attempt.Resume?
    ensures AnswerAfter(h, ops, attempt) == VerdictOn(Lookup(Exec(h, ops), h(attempt.raw)), attempt)
  {
  }

  /** The attempt names a token that was issued for its bearer and that a sweep has since removed. */
  ghost predicate NamesForgotten(h: string -> Digest, ops: seq<Op>, attempt: Op, kind: TokenKind)
    requires attempt.Authenticate? || attempt.Resume?
  {
    exists i: nat :: i < |ops| && Names(h, ops[i], attempt, kind) && Forgotten(h, ops, i)
  }

  /**
   How far the answers of a swept and of an unswept store may differ: accepted by both or by
   neither, AUTH the same on the wire, and RESUME with one code instead of another when `forgotten`.
   */
  predicate Transparent(attempt: Op, swept: Verdict, plain: Verdict, forgotten: bool)
    requires attempt.Authenticate? || attempt.Resume?
  {
    && (swept.Success? <==> plain.Success?)
    && (swept == plain || swept == Failure(NotFound))
    && (WireAnswer(attempt, swept) != WireAnswer(attempt, plain) <==> attempt.Resume? && forgotten)
    && (WireAnswer(attempt, swept) != WireAnswer(attempt, plain) ==>
          && WireAnswer(attempt, plain) == Some(ErrorFrame(SESSION_EXPIRED, false))
          && WireAnswer(attempt, swept) == Some(ErrorFrame(AUTH_FAILED, false)))
  }

  /** A record that names the bearer, and has expired. */
  predicate ExpiredOf(r: Option<Record>, attempt: Op)
    requires attempt.Authenticate? || attempt.Resume?
  {
    && r.Some? && r.value.kind == ResumeToken && r.value.session == attempt.session && r.value.user == attempt.user
    && r.value.expiresAt <= attempt.now
  }

  lemma CloseVerdicts(got: Option<Record>, ref: Option<Record>, attempt: Op)
    requires attempt.Authenticate? || attempt.Resume?
    requires Agrees(got, ref, attempt.now)
    ensures Transparent(attempt, VerdictOn(got, attempt), VerdictOn(ref, attempt), got.None? && ExpiredOf(ref, attempt))
  {
  }

  /** The record of a resume token that a sweep removed is an expired one of its bearer, and no other. */
  lemma ForgottenIff(h: string -> Digest, ops: seq<Op>, attempt: Op)
    requires WellFormed(h, ops) && Clock(ops) <= attempt.now
    requires attempt.Authenticate? || attempt.Resume?
    ensures var x := h(attempt.raw);
            Lookup(Exec(h, ops), x).None? && ExpiredOf(Ref(h, ops, x), attempt) <==>
              NamesForgotten(h, ops, attempt, ResumeToken)
  {
    var x := h(attempt.raw);
    RefIssued(h, ops, x);
    VectorRefinesReference(h, ops);
    assert Agrees(Lookup(Exec(h, ops), x), Ref(h, ops, x), Clock(ops));
    forall i: nat | i < |ops| && ops[i].Issue? && h(ops[i].raw) == x
      ensures Lookup(Exec(h, ops), x).None? && ExpiredOf(Ref(h, ops, x), attempt) <==>
                Names(h, ops[i], attempt, ResumeToken) && Forgotten(h, ops, i)
    {
      ReferenceIsHistory(h, ops, i, x);
      FoundUnlessForgotten(h, ops, i);
    }
  }

  /**
   Any attempt, made after a run and after the same run without its sweeps. It is accepted after
   both or after neither. AUTH is answered the same. RESUME is answered differently if and only if
   its token was issued as a resume token for this session and user, and some sweep came after its
   expiry with no revocation of it within the retention.
   */
  lemma SweepsAreTransparent(h: string -> Digest, ops: seq<Op>, attempt: Op)
    requires WellFormed(h, ops) && Clock(ops) <= attempt.now
    requires attempt.Authenticate? || attempt.Resume?
    ensures Transparent(attempt, AnswerAfter(h, ops, attempt), AnswerAfter(h, Unswept(ops), attempt),
                        NamesForgotten(h, ops, attempt, ResumeToken))
  {
    var x := h(attempt.raw);
    AnswerByLookup(h, ops, attempt);
    AnswerByLookup(h, Unswept(ops), attempt);
    assert Agrees(Lookup(Exec(h, ops), x), Ref(h, ops, x), attempt.now) by {
      VectorRefinesReference(h, ops);
      assert Agrees(Lookup(Exec(h, ops), x), Ref(h, ops, x), Clock(ops));
    }
    assert Lookup(Exec(h, Unswept(ops)), x) == Ref(h, ops, x) by {
      UnsweptWellFormed(h, ops);
      VectorRefinesReference(h, Unswept(ops));
      UnsweptRef(h, ops, x);
    }
    CloseVerdicts(Lookup(Exec(h, ops), x), Ref(h, ops, x), attempt);
    ForgottenIff(h, ops, attempt);
  }

  /** A resume token issued at 0 for five seconds, swept with a retention of 300 seconds at 10. */
  lemma ShortRun(h: string -> Digest, issue: Op, sweep: Op)
    requires issue.Issue? && issue.now == 0 && issue.ttl == 5 && sweep == Sweep(300, 10)
    ensures WellFormed(h, [issue, sweep]) && Unswept([issue, sweep]) == [issue]
    ensures Exec(h, [issue]) == [Fresh(h(issue.raw), issue.kind, issue.session, issue.user, 5, 0)]
    ensures Exec(h, [issue, sweep]) == []
  {
    var r := Fresh(h(issue.raw), issue.kind, issue.session, issue.user, 5, 0);
    assert Front([issue]) == [] && Front([issue, sweep]) == [issue];
    assert Last([issue]) == issue && !Issued(h, [], h(issue.raw)) && WellFormed(h, []);
    assert WellFormed(h, [issue]);
    assert Last([issue, sweep]) == sweep;
    assert Exec(h, [issue]) == Exec(h, []) + [r];
    assert [r][..0] == [];
    assert AfterSweep([r], 10, 300) == AfterSweep([], 10, 300);
    assert Unswept([issue, sweep]) == Unswept([issue]) == Unswept([]) + [issue];
  }

  /** The difference is real: an expired resume token, swept away, turns SESSION_EXPIRED into AUTH_FAILED. */
  lemma SweepingChangesOneAnswer(h: string -> Digest, raw: string, user: string)
    ensures var run := [Issue(raw, ResumeToken, 1, user, 5, 0), Sweep(300, 10)];
            var attempt := Resume(raw, 1, user, 10);
            && WellFormed(h, run)
            && WireAnswer(attempt, AnswerAfter(h, Unswept(run), attempt)) == Some(ErrorFrame(SESSION_EXPIRED, false))
            && WireAnswer(attempt, AnswerAfter(h, run, attempt)) == Some(ErrorFrame(AUTH_FAILED, false))
  {
    var issue := Issue(raw, ResumeToken, 1, user, 5, 0);
    ShortRun(h, issue, Sweep(300, 10));
  }

  /** A token accepted once stays refused after its record has been swept away. */
  lemma SweptTokenStaysRefused(h: string -> Digest, ops: seq<Op>, k: nat, attempt: Op)
    requires WellFormed(h, ops) && Clock(ops) <= attempt.now && attempt.Authenticate?
    requires k < |ops| && AcceptedAt(h, ops, k, h(attempt.raw))
    ensures AnswerAfter(h, ops, attempt).Failure?
  {
    NextAuthIff(h, ops, attempt);
  }
}
