/**
 The session table of `src/session/manager.rs`: exclusive ownership of a session by one
 connection, with an epoch that grows at every attach.

 The functions on maps say what each operation does; the class performs it in place.
 */
module Sessions {
  import opened Wrappers

  datatype SessionState = Created | Attached | Detached | Expired | Terminated

  datatype Session = Session(
    id: Uuid,
    ownerUserId: string,
    quicAddr: string,
    certFingerprint: string,
    state: SessionState,
    attachedConn: Option<Uuid>,
    attachEpoch: nat)
  {
    predicate Terminal() {
      state.Expired? || state.Terminated?
    }

    /** What every operation keeps: an owner exactly when attached, and an epoch that fits `u64`. */
    predicate Consistent() {
      && (attachedConn.Some? <==> state.Attached?)
      && attachEpoch <= U64_MAX
    }
  }

  datatype SessionError = NotFound | AttachDenied | InvalidState | PermissionDenied

  type Table = map<Uuid, Session>

  function NewSession(sid: Uuid, user: string, addr: string, fingerprint: string): Session {
    Session(sid, user, addr, fingerprint, Created, None, 0)
  }

  /** `u64::saturating_add(1)`. */
  function NextEpoch(epoch: nat): nat {
    if epoch >= U64_MAX then U64_MAX else epoch + 1
  }

  function AfterAttach(m: Table, sid: Uuid, conn: Uuid): (Table, Result<nat, SessionError>) {
    if sid !in m then (m, Failure(NotFound))
    else
      var s := m[sid];
      if s.Terminal() then (m, Failure(InvalidState))
      else if s.attachedConn.Some? then (m, Failure(AttachDenied))
      else
        var s' := s.(attachEpoch := NextEpoch(s.attachEpoch), attachedConn := Some(conn), state := Attached);
        (m[sid := s'], Success(s'.attachEpoch))
  }

  /** The owner lets go: a terminal session keeps its state. */
  function Release(s: Session): Session {
    s.(attachedConn := None, state := if s.Terminal() then s.state else Detached)
  }

  function AfterDetach(m: Table, sid: Uuid, conn: Uuid): (Table, Result<(), SessionError>) {
    if sid !in m then (m, Failure(NotFound))
    else if m[sid].attachedConn != Some(conn) then (m, Failure(AttachDenied))
    else (m[sid := Release(m[sid])], Success(()))
  }

  function AfterCleanup(m: Table, sid: Uuid, conn: Uuid, epoch: nat): (Table, bool) {
    if sid in m && m[sid].attachedConn == Some(conn) && m[sid].attachEpoch == epoch then
      (m[sid := Release(m[sid])], true)
    else (m, false)
  }

  function AfterTerminate(m: Table, sid: Uuid): (Table, Result<(), SessionError>) {
    if sid !in m then (m, Failure(NotFound))
    else (m[sid := m[sid].(state := Terminated, attachedConn := None)], Success(()))
  }

  function AfterExpire(m: Table, sid: Uuid): (Table, Result<(), SessionError>) {
    if sid !in m then (m, Failure(NotFound))
    else (m[sid := m[sid].(state := Expired, attachedConn := None)], Success(()))
  }

  /** `SessionManager`: the table, updated in place. */
  class SessionManager {
    var sessions: Table

    constructor ()
      ensures sessions == map[]
    {
      sessions := map[];
    }

    method CreateSessionWithId(sid: Uuid, user: string, addr: string, fingerprint: string)
      modifies this
      ensures sessions == old(sessions)[sid := NewSession(sid, user, addr, fingerprint)]
      ensures sid in sessions && sessions[sid] == Session(sid, user, addr, fingerprint, Created, None, 0)
    {
      sessions := sessions[sid := Session(sid, user, addr, fingerprint, Created, None, 0)];
    }

    method Lookup(sid: Uuid) returns (r: Option<Session>)
      ensures r == if sid in sessions then Some(sessions[sid]) else None
    {
      if sid in sessions {
        r := Some(sessions[sid]);
      } else {
        r := None;
      }
    }

    method AttachExclusive(sid: Uuid, conn: Uuid) returns (r: Result<nat, SessionError>)
      modifies this
      ensures (sessions, r) == AfterAttach(old(sessions), sid, conn)
      ensures r.Success? <==> sid in old(sessions) && !old(sessions)[sid].Terminal() && old(sessions)[sid].attachedConn.None?
      ensures if r.Success? then
                sessions == old(sessions)[sid :=
                  old(sessions)[sid].(state := Attached, attachedConn := Some(conn), attachEpoch := r.value)]
                && r.value == (if old(sessions)[sid].attachEpoch < 0xFFFF_FFFF_FFFF_FFFF
                               then old(sessions)[sid].attachEpoch + 1 else 0xFFFF_FFFF_FFFF_FFFF)
              else sessions == old(sessions)
    {
      if sid !in sessions {
        return Failure(NotFound);
      }
      var session := sessions[sid];
      match session.state {
        case Expired => return Failure(InvalidState);
        case Terminated => return Failure(InvalidState);
        case _ =>
      }
      if session.attachedConn.Some? {
        return Failure(AttachDenied);
      }
      session := session.(attachEpoch := NextEpoch(session.attachEpoch));
      session := session.(attachedConn := Some(conn));
      session := session.(state := Attached);
      sessions := sessions[sid := session];
      r := Success(session.attachEpoch);
    }

    method Detach(sid: Uuid, conn: Uuid) returns (r: Result<(), SessionError>)
      modifies this
      ensures (sessions, r) == AfterDetach(old(sessions), sid, conn)
    {
      if sid !in sessions {
        return Failure(NotFound);
      }
      var session := sessions[sid];
      if session.attachedConn != Some(conn) {
        return Failure(AttachDenied);
      }
      session := session.(attachedConn := None);
      if session.state != Terminated && session.state != Expired {
        session := session.(state := Detached);
      }
      sessions := sessions[sid := session];
      r := Success(());
    }

    method ConditionalStaleCleanup(sid: Uuid, conn: Uuid, epoch: nat) returns (released: bool)
      modifies this
      ensures (sessions, released) == AfterCleanup(old(sessions), sid, conn, epoch)
    {
      if sid !in sessions {
        return false;
      }
      var session := sessions[sid];
      if session.attachedConn == Some(conn) && session.attachEpoch == epoch {
        session := session.(attachedConn := None);
        if session.state != Terminated && session.state != Expired {
          session := session.(state := Detached);
        }
        sessions := sessions[sid := session];
        return true;
      }
      released := false;
    }

    method Terminate(sid: Uuid) returns (r: Result<(), SessionError>)
      modifies this
      ensures (sessions, r) == AfterTerminate(old(sessions), sid)
      ensures r.Success? ==> sessions == old(sessions)[sid := old(sessions)[sid].(state := Terminated, attachedConn := None)]
    {
      if sid !in sessions {
        return Failure(NotFound);
      }
      sessions := sessions[sid := sessions[sid].(state := Terminated, attachedConn := None)];
      r := Success(());
    }

    method Expire(sid: Uuid) returns (r: Result<(), SessionError>)
      modifies this
      ensures (sessions, r) == AfterExpire(old(sessions), sid)
      ensures r.Success? ==> sessions == old(sessions)[sid := old(sessions)[sid].(state := Expired, attachedConn := None)]
    {
      if sid !in sessions {
        return Failure(NotFound);
      }
      sessions := sessions[sid := sessions[sid].(state := Expired, attachedConn := None)];
      r := Success(());
    }
  }
}
