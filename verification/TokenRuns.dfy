/**
 Runs of the token store: any interleaving of issue, authenticate, resume, revoke and sweep.

 `Exec` runs the vector of records. `Ref` is the reference: what the history alone says about
 one digest, with no vector, no search and no sweeping. Two hypotheses are stated in
 `WellFormed`: the clock never goes back, and a fresh token never has the digest of a token
 issued before.
 */
module TokenRuns {
  import opened Wrappers
  import opened Tokens

  datatype Op =
    | Issue(raw: string, kind: TokenKind, session: Uuid, user: string, ttl: Time, now: Time)
    | Authenticate(raw: string, session: Uuid, user: string, now: Time)
    | Resume(raw: string, session: Uuid, user: string, now: Time)
    | Revoke(raw: string, now: Time)
    | Sweep(retention: Time, now: Time)

  datatype Outcome = Done | Answer(verdict: Verdict)

  function Apply(h: string -> Digest, rs: seq<Record>, op: Op): (seq<Record>, Outcome) {
    match op
    case Issue(raw, kind, session, user, ttl, now) => (rs + [Fresh(h(raw), kind, session, user, ttl, now)], Done)
    case Authenticate(raw, session, user, now) =>
      var (rs', v) := AfterAuth(rs, h(raw), session, user, now); (rs', Answer(v))
    case Resume(raw, session, user, now) => (rs, Answer(ResumeVerdict(rs, h(raw), session, user, now)))
    case Revoke(raw, now) => var (rs', v) := AfterRevoke(rs, h(raw), now); (rs', Answer(v))
    case Sweep(retention, now) => (AfterSweep(rs, now, retention), Done)
  }

  function Exec(h: string -> Digest, ops: seq<Op>): seq<Record>
    decreases |ops|
  {
    if ops == [] then [] else Apply(h, Exec(h, Front(ops)), Last(ops)).0
  }

  function Front(ops: seq<Op>): (r: seq<Op>)
    requires ops != []
  {
    ops[..|ops| - 1]
  }

  function Last(ops: seq<Op>): Op
    requires ops != []
  {
    ops[|ops| - 1]
  }

  /** The answer operation `k` of the run gets. */
  function OutcomeAt(h: string -> Digest, ops: seq<Op>, k: nat): Outcome
    requires k < |ops|
  {
    Apply(h, Exec(h, ops[..k]), ops[k]).1
  }

  function Clock(ops: seq<Op>): Time {
    if ops == [] then 0 else Last(ops).now
  }

  predicate Issued(h: string -> Digest, ops: seq<Op>, x: Digest) {
    exists i :: 0 <= i < |ops| && ops[i].Issue? && h(ops[i].raw) == x
  }

  /** The two hypotheses on a run: a monotone clock and collision-free fresh tokens. */
  predicate WellFormed(h: string -> Digest, ops: seq<Op>)
    decreases |ops|
  {
    ops == [] ||
    (&& WellFormed(h, Front(ops))
     && Clock(Front(ops)) <= Last(ops).now
     && (Last(ops).Issue? ==> !Issued(h, Front(ops), h(Last(ops).raw))))
  }

  /** One more operation at the end of a run. */
  lemma AppendOp(h: string -> Digest, ops: seq<Op>, op: Op)
    requires WellFormed(h, ops) && Clock(ops) <= op.now
    requires op.Issue? ==> !Issued(h, ops, h(op.raw))
    ensures WellFormed(h, ops + [op]) && Clock(ops + [op]) == op.now
    ensures Exec(h, ops + [op]) == Apply(h, Exec(h, ops), op).0
    ensures OutcomeAt(h, ops + [op], |ops|) == Apply(h, Exec(h, ops), op).1
  {
    assert Front(ops + [op]) == ops && Last(ops + [op]) == op;
    assert (ops + [op])[..|ops|] == ops;
  }

  // ---------------------------------------------------------------- the reference

  function Ref(h: string -> Digest, ops: seq<Op>, x: Digest): Option<Record>
    decreases |ops|
  {
    if ops == [] then None else RefStep(h, Ref(h, Front(ops), x), Last(ops), x)
  }

  function RefStep(h: string -> Digest, known: Option<Record>, op: Op, x: Digest): Option<Record> {
    match op
    case Issue(raw, kind, session, user, ttl, now) =>
      if h(raw) == x then Some(Fresh(x, kind, session, user, ttl, now)) else known
    case Authenticate(raw, session, user, now) =>
      if h(raw) == x && known.Some? && CheckAuth(known.value, session, user, now).Success?
      then Some(known.value.(consumedAt := Some(now))) else known
    case Revoke(raw, now) =>
      if h(raw) == x && known.Some? then Some(known.value.(revokedAt := Some(now))) else known
    case _ => known
  }

  /** The record a search for `x` finds. */
  function Lookup(rs: seq<Record>, x: Digest): (r: Option<Record>)
    ensures r.Some? ==> r.value.digest == x
  {
    match Find(rs, x)
    case None => None
    case Some(i) => Some(rs[i])
  }

  ghost predicate Unique(rs: seq<Record>) {
    forall i, j :: 0 <= i < j < |rs| ==> rs[i].digest != rs[j].digest
  }

  lemma LookupAppend(rs: seq<Record>, r: Record, x: Digest)
    requires Lookup(rs, r.digest) == None
    ensures Lookup(rs + [r], x) == if x == r.digest then Some(r) else Lookup(rs, x)
  {
    var rs' := rs + [r];
    assert rs'[|rs|] == r;
    assert forall j :: 0 <= j < |rs| ==> rs'[j] == rs[j];
  }

  lemma LookupUpdate(rs: seq<Record>, i: nat, r: Record, x: Digest)
    requires Find(rs, r.digest) == Some(i)
    ensures Lookup(rs[i := r], x) == if x == r.digest then Some(r) else Lookup(rs, x)
  {
    var rs' := rs[i := r];
    assert forall j :: 0 <= j < |rs| ==> rs'[j].digest == rs[j].digest;
    assert Find(rs', x) == Find(rs, x);
  }

  /** Sweeping a vector of distinct digests keeps exactly the retained records, each still the one found. */
  lemma {:induction false} LookupSweep(rs: seq<Record>, now: Time, retention: Time, x: Digest)
    requires Unique(rs)
    ensures Unique(AfterSweep(rs, now, retention))
    ensures forall r :: r in AfterSweep(rs, now, retention) ==> r in rs
    ensures Lookup(AfterSweep(rs, now, retention), x) ==
            var r := Lookup(rs, x);
            if r.Some? && Retained(r.value, now, retention) then r else None
  {
    if rs != [] {
      var front, last := rs[..|rs| - 1], rs[|rs| - 1];
      LookupSweep(front, now, retention, x);
      assert rs == front + [last];
      assert Lookup(front, last.digest) == None;
      LookupAppend(front, last, x);
      var swept := AfterSweep(front, now, retention);
      assert forall r :: r in swept ==> r.digest != last.digest;
      assert Lookup(swept, last.digest) == None;
      LookupAppend(swept, last, x);
    }
  }

  // ---------------------------------------------------------------- refinement

  /** What the vector says about a digest, next to what the history says. */
  predicate Agrees(got: Option<Record>, ref: Option<Record>, clock: Time) {
    got == ref || (got.None? && ref.Some? && ref.value.expiresAt <= clock)
  }

  lemma {:induction false} RefIssued(h: string -> Digest, ops: seq<Op>, x: Digest)
    ensures Ref(h, ops, x).Some? <==> Issued(h, ops, x)
    ensures Ref(h, ops, x).Some? ==> Ref(h, ops, x).value.digest == x
    decreases |ops|
  {
    if ops != [] {
      RefIssued(h, Front(ops), x);
      if Issued(h, Front(ops), x) {
        var i :| 0 <= i < |Front(ops)| && Front(ops)[i].Issue? && h(Front(ops)[i].raw) == x;
        assert ops[i].Issue?;
      }
      if Issued(h, ops, x) && !(Last(ops).Issue? && h(Last(ops).raw) == x) {
        var i :| 0 <= i < |ops| && ops[i].Issue? && h(ops[i].raw) == x;
        assert Front(ops)[i].Issue?;
      }
    }
  }

  /** The vector, swept at any times with any retention, follows the reference for every digest. */
  lemma {:induction false} VectorRefinesReference(h: string -> Digest, ops: seq<Op>)
    requires WellFormed(h, ops)
    ensures Unique(Exec(h, ops))
    ensures forall x :: Agrees(Lookup(Exec(h, ops), x), Ref(h, ops, x), Clock(ops))
    ensures (forall k :: 0 <= k < |ops| ==> !ops[k].Sweep?) ==>
              forall x :: Lookup(Exec(h, ops), x) == Ref(h, ops, x)
    decreases |ops|
  {
    if ops != [] {
      var front, last := Front(ops), Last(ops);
      var rs := Exec(h, front);
      VectorRefinesReference(h, front);
      assert (forall k :: 0 <= k < |ops| ==> !ops[k].Sweep?) ==>
          forall k :: 0 <= k < |front| ==> !front[k].Sweep? && front[k] == ops[k];
      if last.Issue? {
        RefIssued(h, front, h(last.raw));
      }
      UniqueStep(h, rs, last);
      forall x
        ensures Agrees(Lookup(Exec(h, ops), x), Ref(h, ops, x), Clock(ops))
        ensures Lookup(rs, x) == Ref(h, front, x) && !last.Sweep? ==> Lookup(Exec(h, ops), x) == Ref(h, ops, x)
      {
        LookupStep(h, rs, last, x);
      }
    }
  }

  lemma UniqueStep(h: string -> Digest, rs: seq<Record>, op: Op)
    requires Unique(rs)
    requires op.Issue? ==> Lookup(rs, h(op.raw)) == None
    ensures Unique(Apply(h, rs, op).0)
  {
    if op.Sweep? {
      LookupSweep(rs, op.now, op.retention, 0);
    }
  }

  /** One operation on the vector, seen at digest `x`. */
  lemma LookupStep(h: string -> Digest, rs: seq<Record>, op: Op, x: Digest)
    requires Unique(rs)
    requires op.Issue? ==> Lookup(rs, h(op.raw)) == None
    ensures Lookup(Apply(h, rs, op).0, x) ==
            if op.Sweep? then
              (var r := Lookup(rs, x); if r.Some? && Retained(r.value, op.now, op.retention) then r else None)
            else RefStep(h, Lookup(rs, x), op, x)
  {
    match op
    case Issue(raw, kind, session, user, ttl, now) =>
      LookupAppend(rs, Fresh(h(raw), kind, session, user, ttl, now), x);
    case Authenticate(raw, session, user, now) =>
      var found := Find(rs, h(raw));
      if found.Some? && CheckAuth(rs[found.value], session, user, now).Success? {
        LookupUpdate(rs, found.value, rs[found.value].(consumedAt := Some(now)), x);
      }
    case Resume(_, _, _, _) =>
    case Revoke(raw, now) =>
      var found := Find(rs, h(raw));
      if found.Some? {
        LookupUpdate(rs, found.value, rs[found.value].(revokedAt := Some(now)), x);
      }
    case Sweep(retention, now) =>
      LookupSweep(rs, now, retention, x);
  }
}
