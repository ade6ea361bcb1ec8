/**
 Runs of the session table: any sequence of calls, on any mix of sessions.

 Each session, seen through its calls alone, is a five-state machine with an attach
 counter; no call on another session disturbs it.
 */
module SessionRuns {
  import opened Wrappers
  import opened Sessions

  datatype Call =
    | Attach(sid: Uuid, conn: Uuid)
    | Detach(sid: Uuid, conn: Uuid)
    | Cleanup(sid: Uuid, conn: Uuid, epoch: nat)
    | Terminate(sid: Uuid)
    | Expire(sid: Uuid)

  function Perform(m: Table, c: Call): Table {
    match c
    case Attach(sid, conn) => AfterAttach(m, sid, conn).0
    case Detach(sid, conn) => AfterDetach(m, sid, conn).0
    case Cleanup(sid, conn, epoch) => AfterCleanup(m, sid, conn, epoch).0
    case Terminate(sid) => AfterTerminate(m, sid).0
    case Expire(sid) => AfterExpire(m, sid).0
  }

  function PerformAll(m: Table, calls: seq<Call>): Table
    decreases |calls|
  {
    if calls == [] then m else PerformAll(Perform(m, calls[0]), calls[1..])
  }

  /** The plain machine: the owner is part of the state, so a session that is not held has none. */
  datatype Life = Created | Held(conn: Uuid) | Detached | Expired | Terminated

  datatype Machine = Machine(life: Life, epoch: nat)

  function View(s: Session): (r: Machine)
    requires s.Consistent()
  {
    Machine(
      match s.state
      case Created => Life.Created
      case Attached => Held(s.attachedConn.value)
      case Detached => Life.Detached
      case Expired => Life.Expired
      case Terminated => Life.Terminated,
      s.attachEpoch)
  }

  predicate Free(life: Life) { life.Created? || life.Detached? }

  function Move(a: Machine, c: Call): Machine {
    match c
    case Attach(_, conn) => if Free(a.life) then Machine(Held(conn), NextEpoch(a.epoch)) else a
    case Detach(_, conn) => if a.life == Held(conn) then a.(life := Life.Detached) else a
    case Cleanup(_, conn, epoch) =>
      if a.life == Held(conn) && a.epoch == epoch then a.(life := Life.Detached) else a
    case Terminate(_) => a.(life := Life.Terminated)
    case Expire(_) => a.(life := Life.Expired)
  }

  /** The moves that the calls naming `sid` make, in order; other calls are skipped. */
  function MoveAll(a: Machine, calls: seq<Call>, sid: Uuid): Machine
    decreases |calls|
  {
    if calls == [] then a
    else MoveAll(if calls[0].sid == sid then Move(a, calls[0]) else a, calls[1..], sid)
  }

  lemma PerformRefinesMove(m: Table, c: Call, sid: Uuid)
    requires sid in m && m[sid].Consistent()
    ensures sid in Perform(m, c) && Perform(m, c)[sid].Consistent()
    ensures View(Perform(m, c)[sid]) == if c.sid == sid then Move(View(m[sid]), c) else View(m[sid])
    ensures c.sid != sid ==> Perform(m, c)[sid] == m[sid]
  {
  }

  /** Whatever calls are made, on whatever sessions, a session is where its own calls put it. */
  lemma {:induction false} RunRefinesMachine(m: Table, calls: seq<Call>, sid: Uuid)
    requires sid in m && m[sid].Consistent()
    ensures sid in PerformAll(m, calls) && PerformAll(m, calls)[sid].Consistent()
    ensures View(PerformAll(m, calls)[sid]) == MoveAll(View(m[sid]), calls, sid)
    decreases |calls|
  {
    if calls != [] {
      PerformRefinesMove(m, calls[0], sid);
      RunRefinesMachine(Perform(m, calls[0]), calls[1..], sid);
    }
  }

  /** Which answer an attach gets is decided by the machine's state alone. */
  lemma AttachAnswer(m: Table, sid: Uuid, conn: Uuid)
    requires sid in m ==> m[sid].Consistent()
    ensures AfterAttach(m, sid, conn).1 ==
            if sid !in m then Failure(NotFound)
            else match View(m[sid]).life
                 case Created => Success(NextEpoch(m[sid].attachEpoch))
                 case Detached => Success(NextEpoch(m[sid].attachEpoch))
                 case Held(_) => Failure(AttachDenied)
                 case Expired => Failure(InvalidState)
                 case Terminated => Failure(InvalidState)
  {
  }

  /** The other answers, on any table: only the owner detaches, and only it, at its epoch, is cleaned up. */
  lemma CallAnswers(m: Table, sid: Uuid, conn: Uuid, epoch: nat)
    ensures AfterDetach(m, sid, conn).1 ==
            if sid !in m then Failure(NotFound)
            else if m[sid].attachedConn == Some(conn) then Success(()) else Failure(AttachDenied)
    ensures AfterCleanup(m, sid, conn, epoch).1 <==>
              sid in m && m[sid].attachedConn == Some(conn) && m[sid].attachEpoch == epoch
    ensures AfterTerminate(m, sid).1 == if sid in m then Success(()) else Failure(NotFound)
    ensures AfterExpire(m, sid).1 == if sid in m then Success(()) else Failure(NotFound)
  {
  }

  /** Whoever lets go of an ended session, even one that still names an owner, leaves it as it ended. */
  lemma ReleaseKeepsTheEnd(m: Table, sid: Uuid, conn: Uuid, epoch: nat)
    requires sid in m && m[sid].Terminal()
    ensures var s := m[sid];
            && AfterDetach(m, sid, conn).0[sid].state == s.state
            && AfterCleanup(m, sid, conn, epoch).0[sid].state == s.state
            && AfterAttach(m, sid, conn).0 == m
  {
  }

  /** Whatever is called, a session keeps its id, its user, its address and its fingerprint. */
  lemma {:induction false} IdentityIsKept(m: Table, calls: seq<Call>, sid: Uuid)
    requires sid in m
    ensures sid in PerformAll(m, calls)
    ensures PerformAll(m, calls)[sid] ==
            m[sid].(state := PerformAll(m, calls)[sid].state,
                    attachedConn := PerformAll(m, calls)[sid].attachedConn,
                    attachEpoch := PerformAll(m, calls)[sid].attachEpoch)
    decreases |calls|
  {
    if calls != [] {
      IdentityIsKept(Perform(m, calls[0]), calls[1..], sid);
    }
  }

  /** `Created` is left at the first attach and never comes back; an ended session never has an owner again. */
  lemma {:induction false} RunNeverReopens(m: Table, calls: seq<Call>, sid: Uuid)
    requires sid in m && m[sid].Consistent()
    ensures sid in PerformAll(m, calls)
    ensures m[sid].Terminal() ==>
              && PerformAll(m, calls)[sid].Terminal()
              && PerformAll(m, calls)[sid].attachedConn == None
              && PerformAll(m, calls)[sid].attachEpoch == m[sid].attachEpoch
    ensures m[sid].state != SessionState.Created ==> PerformAll(m, calls)[sid].state != SessionState.Created
    ensures m[sid].attachEpoch <= PerformAll(m, calls)[sid].attachEpoch
    decreases |calls|
  {
    if calls != [] {
      PerformRefinesMove(m, calls[0], sid);
      RunNeverReopens(Perform(m, calls[0]), calls[1..], sid);
    }
  }
}
