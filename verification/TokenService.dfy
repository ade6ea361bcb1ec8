/**
 The token store of `src/token/service.rs`: a vector of records, searched for the first
 record with a given digest, updated in place, and swept of old records.
 */
module Tokens {
  import opened Wrappers

  /** A 32-byte SHA-256 digest. */
  type Digest = nat

  datatype TokenKind = AuthToken | ResumeToken

  datatype Record = Record(
    digest: Digest,
    kind: TokenKind,
    session: Uuid,
    user: string,
    expiresAt: Time,
    consumedAt: Option<Time>,
    revokedAt: Option<Time>,
    createdAt: Time)

  datatype TokenError = NotFound | Expired | Revoked | Consumed | BindingMismatch | TypeMismatch

  type Verdict = Result<(), TokenError>

  /** The position of the first record with digest `x`. */
  function Find(rs: seq<Record>, x: Digest): (r: Option<nat>)
    ensures r.Some? ==> r.value < |rs| && rs[r.value].digest == x
    ensures r.Some? ==> forall j :: 0 <= j < r.value ==> rs[j].digest != x
    ensures r.None? ==> forall j :: 0 <= j < |rs| ==> rs[j].digest != x
  {
    if rs == [] then None
    else if rs[0].digest == x then Some(0)
    else
      match Find(rs[1..], x)
      case None => None
      case Some(i) => Some(i + 1)
  }

  function Fresh(x: Digest, kind: TokenKind, session: Uuid, user: string, ttl: Time, now: Time): Record {
    Record(x, kind, session, user, now + ttl, None, None, now)
  }

  /** The checks of `validate_and_consume_auth`, in the order they are made. */
  function CheckAuth(r: Record, session: Uuid, user: string, now: Time): Verdict {
    if r.kind != AuthToken then Failure(TypeMismatch)
    else if r.session != session || r.user != user then Failure(BindingMismatch)
    else if r.expiresAt <= now then Failure(Expired)
    else if r.revokedAt.Some? then Failure(Revoked)
    else if r.consumedAt.Some? then Failure(Consumed)
    else Success(())
  }

  /** The checks of `validate_resume`: a resume token is not consumed. */
  function CheckResume(r: Record, session: Uuid, user: string, now: Time): Verdict {
    if r.kind != ResumeToken then Failure(TypeMismatch)
    else if r.session != session || r.user != user then Failure(BindingMismatch)
    else if r.expiresAt <= now then Failure(Expired)
    else if r.revokedAt.Some? then Failure(Revoked)
    else Success(())
  }

  function AfterAuth(rs: seq<Record>, x: Digest, session: Uuid, user: string, now: Time): (seq<Record>, Verdict) {
    match Find(rs, x)
    case None => (rs, Failure(NotFound))
    case Some(i) =>
      var v := CheckAuth(rs[i], session, user, now);
      (if v.Success? then rs[i := rs[i].(consumedAt := Some(now))] else rs, v)
  }

  function ResumeVerdict(rs: seq<Record>, x: Digest, session: Uuid, user: string, now: Time): Verdict {
    match Find(rs, x)
    case None => Failure(NotFound)
    case Some(i) => CheckResume(rs[i], session, user, now)
  }

  function AfterRevoke(rs: seq<Record>, x: Digest, now: Time): (seq<Record>, Verdict) {
    match Find(rs, x)
    case None => (rs, Failure(NotFound))
    case Some(i) => (rs[i := rs[i].(revokedAt := Some(now))], Success(()))
  }

  /** `now.duration_since(t)` is an error when `t` is in the future, and then the mark is not recent. */
  predicate Recent(mark: Option<Time>, now: Time, retention: Time) {
    mark.Some? && mark.value <= now && now - mark.value <= retention
  }

  predicate Retained(r: Record, now: Time, retention: Time) {
    r.expiresAt > now || Recent(r.revokedAt, now, retention) || Recent(r.consumedAt, now, retention)
  }

  /** `Vec::retain`. */
  function AfterSweep(rs: seq<Record>, now: Time, retention: Time): seq<Record> {
    if rs == [] then []
    else
      var rest := AfterSweep(rs[..|rs| - 1], now, retention);
      if Retained(rs[|rs| - 1], now, retention) then rest + [rs[|rs| - 1]] else rest
  }

  class TokenService {
    var records: seq<Record>
    const hash: string -> Digest

    constructor (hash: string -> Digest)
      ensures records == [] && this.hash == hash
    {
      records := [];
      this.hash := hash;
    }

    method IssueToken(raw: string, kind: TokenKind, session: Uuid, user: string, ttl: Time, now: Time)
      modifies this
      ensures records == old(records) + [Fresh(hash(raw), kind, session, user, ttl, now)]
      ensures records[|records| - 1] == Record(hash(raw), kind, session, user, now + ttl, None, None, now)
    {
      var digest := hash(raw);
      records := records + [Record(digest, kind, session, user, now + ttl, None, None, now)];
    }

    method FindRecord(raw: string) returns (r: Option<nat>)
      ensures r == Find(records, hash(raw))
    {
      var digest := hash(raw);
      var i := 0;
      while i < |records|
        invariant 0 <= i <= |records|
        invariant forall j :: 0 <= j < i ==> records[j].digest != digest
      {
        if records[i].digest == digest {
          return Some(i);
        }
        i := i + 1;
      }
      r := None;
    }

    method ValidateAndConsumeAuth(raw: string, session: Uuid, user: string, now: Time) returns (r: Verdict)
      modifies this
      ensures (records, r) == AfterAuth(old(records), hash(raw), session, user, now)
    {
      var found := FindRecord(raw);
      if found.None? {
        return Failure(NotFound);
      }
      var record := records[found.value];
      if record.kind != AuthToken {
        return Failure(TypeMismatch);
      }
      if record.session != session || record.user != user {
        return Failure(BindingMismatch);
      }
      if record.expiresAt <= now {
        return Failure(Expired);
      }
      if record.revokedAt.Some? {
        return Failure(Revoked);
      }
      if record.consumedAt.Some? {
        return Failure(Consumed);
      }
      records := records[found.value := record.(consumedAt := Some(now))];
      r := Success(());
    }

    method ValidateResume(raw: string, session: Uuid, user: string, now: Time) returns (r: Verdict)
      ensures r == ResumeVerdict(records, hash(raw), session, user, now)
    {
      var found := FindRecord(raw);
      if found.None? {
        return Failure(NotFound);
      }
      var record := records[found.value];
      if record.kind != ResumeToken {
        return Failure(TypeMismatch);
      }
      if record.session != session || record.user != user {
        return Failure(BindingMismatch);
      }
      if record.expiresAt <= now {
        return Failure(Expired);
      }
      if record.revokedAt.Some? {
        return Failure(Revoked);
      }
      r := Success(());
    }

    method RevokeToken(raw: string, now: Time) returns (r: Verdict)
      modifies this
      ensures (records, r) == AfterRevoke(old(records), hash(raw), now)
    {
      var found := FindRecord(raw);
      if found.None? {
        return Failure(NotFound);
      }
      records := records[found.value := records[found.value].(revokedAt := Some(now))];
      r := Success(());
    }

    method CleanupExpired(now: Time, retention: Time)
      modifies this
      ensures records == AfterSweep(old(records), now, retention)
    {
      var before := records;
      var kept := [];
      var i := 0;
      while i < |before|
        invariant 0 <= i <= |before|
        invariant kept == AfterSweep(before[..i], now, retention)
        invariant records == before
      {
        assert before[..i + 1][..i] == before[..i];
        if before[i].expiresAt > now {
          kept := kept + [before[i]];
        } else {
          var revokedTooRecent := Recent(before[i].revokedAt, now, retention);
          var consumedTooRecent := Recent(before[i].consumedAt, now, retention);
          if revokedTooRecent || consumedTooRecent {
            kept := kept + [before[i]];
          }
        }
        i := i + 1;
      }
      assert before[..i] == before;
      records := kept;
    }
  }
}
