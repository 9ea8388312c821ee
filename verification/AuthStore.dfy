/**
 The auth store as the code runs it: each method reads and changes a private copy of the tables statement by
 statement and installs it when it commits. Each is proved to perform its transaction.
 */
module AuthStore {
  import opened Base
  import opened Tables
  import opened Transactions

  /** The database behind the connection pool. */
  class Pool {
    var tables: Db

    constructor ()
      ensures tables == EMPTY
    {
      tables := EMPTY;
    }
  }

  datatype Snapshot = Snapshot(id: Id, expiresAt: Time)

  datatype ResendResult = ResendResult(
    userId: Id,
    userEmail: string,
    rows: NewRows,
    revokedAt: Option<Time>,
    revoked: seq<Snapshot>)

  ghost predicate DistinctIds(snaps: seq<Snapshot>) {
    forall i, j | 0 <= i < j < |snaps| :: snaps[i].id != snaps[j].id
  }

  /** The snapshots as a table from id to old expiry. */
  ghost function Expiries(snaps: seq<Snapshot>): map<Id, Time> {
    if snaps == [] then map[] else Expiries(snaps[..|snaps| - 1])[snaps[|snaps| - 1].id := snaps[|snaps| - 1].expiresAt]
  }

  ghost function TicketOf(r: ResendResult): Ticket {
    Ticket(r.userId, r.rows, r.revokedAt, Expiries(r.revoked))
  }

  lemma {:induction false} ExpiriesHoldIds(snaps: seq<Snapshot>)
    ensures forall v :: v in Expiries(snaps) <==> exists i :: 0 <= i < |snaps| && snaps[i].id == v
  {
    if snaps != [] {
      var front, last := snaps[..|snaps| - 1], snaps[|snaps| - 1];
      ExpiriesHoldIds(front);
      forall v ensures v in Expiries(snaps) <==> exists i :: 0 <= i < |snaps| && snaps[i].id == v {
        if v in Expiries(front) {
          var i :| 0 <= i < |front| && front[i].id == v;
          assert snaps[i].id == v;
        }
        if i :| 0 <= i < |snaps| && snaps[i].id == v && i < |front| {
          assert front[i].id == v;
        }
      }
    }
  }

  lemma ExpiriesAppend(snaps: seq<Snapshot>, snap: Snapshot)
    ensures Expiries(snaps + [snap]) == Expiries(snaps)[snap.id := snap.expiresAt]
  {
    assert (snaps + [snap])[..|snaps|] == snaps;
  }

  /** Restoring one more row, not restored before, extends the table of restored rows. */
  lemma RestoreOneMore(
    rows: map<Id, Verification>, uid: Id, revoked: map<Id, Time>, at: Time, v: Id, expiresAt: Time)
    requires v !in revoked
    ensures var done := Restore(rows, uid, revoked, at);
      Restore(rows, uid, revoked[v := expiresAt], at)
      == if v in done && Restorable(done[v], uid, at) then done[v := done[v].(expiresAt := expiresAt)] else done
  {
  }

  /** One guarded update per snapshot, in order: a row named twice is restored by the first that moves it past `at`. */
  ghost function RestoreInOrder(rows: map<Id, Verification>, uid: Id, snaps: seq<Snapshot>, at: Time)
    : map<Id, Verification>
  {
    if snaps == [] then rows
    else
      var done, last := RestoreInOrder(rows, uid, snaps[..|snaps| - 1], at), snaps[|snaps| - 1];
      if last.id in done && Restorable(done[last.id], uid, at) then
        done[last.id := done[last.id].(expiresAt := last.expiresAt)]
      else done
  }

  /** When no row is named twice, and a resend names none twice, the order does not matter. */
  lemma {:induction false} DistinctSnapshotsRestore(
    rows: map<Id, Verification>, uid: Id, snaps: seq<Snapshot>, at: Time)
    requires DistinctIds(snaps)
    ensures RestoreInOrder(rows, uid, snaps, at) == Restore(rows, uid, Expiries(snaps), at)
    decreases |snaps|
  {
    if snaps == [] {
      assert Restore(rows, uid, map[], at) == rows;
    } else {
      var front, last := snaps[..|snaps| - 1], snaps[|snaps| - 1];
      DistinctSnapshotsRestore(rows, uid, front, at);
      ExpiriesHoldIds(front);
      RestoreOneMore(rows, uid, Expiries(front), at, last.id, last.expiresAt);
    }
  }

  /** What undoing a resend does to the tables, for any list of snapshots. */
  ghost function RollbackInOrder(db: Db, r: ResendResult, now: Time): Db {
    var kept := map v | v in db.verifications && !DeletedByRollback(db.verifications, TicketOf(r), v) :: db.verifications[v];
    var at := if r.revokedAt.Some? then r.revokedAt.value else now;
    RollbackResend(db, TicketOf(r), now).(verifications := RestoreInOrder(kept, r.userId, r.revoked, at))
  }

  lemma DistinctSnapshotsRollBack(db: Db, r: ResendResult, now: Time)
    requires DistinctIds(r.revoked)
    ensures RollbackInOrder(db, r, now) == RollbackResend(db, TicketOf(r), now)
  {
    var kept := map v | v in db.verifications && !DeletedByRollback(db.verifications, TicketOf(r), v) :: db.verifications[v];
    var at := if r.revokedAt.Some? then r.revokedAt.value else now;
    DistinctSnapshotsRestore(kept, r.userId, r.revoked, at);
  }

  // ----- order by ... limit 1 -----

  /** The newest candidate is the one the specification names. */
  lemma NewestIsTheOne(db: Db, email: string, candidates: set<Id>, v: Id)
    requires candidates <= db.verifications.Keys
    requires forall w :: w in candidates <==> OtpCandidate(db, email, w)
    requires v in candidates && forall w | w in candidates :: AtMostAsNew(db.verifications, w, v)
    ensures NewestOtp(db, email) == Some(v)
  {
    assert IsNewestOtp(db, email, v);
    assert forall w | IsNewestOtp(db, email, w) :: w == v;
  }

  class Store {
    const pool: Pool

    constructor (pool: Pool)
      ensures this.pool == pool
    {
      this.pool := pool;
    }

    /** select ... from users where email = $1 */
    method FindUser(tx: Db, email: string) returns (found: Option<Id>)
      requires UniqueIndexes(tx)
      ensures found == UserByEmail(tx.users, email)
    {
      if u :| u in tx.users && tx.users[u].email == email {
        found := Some(u);
      } else {
        found := None;
      }
    }

    /** select ... from refresh_sessions where token_hash = $1 */
    method FindSession(tx: Db, hash: string) returns (found: Option<Id>)
      requires UniqueIndexes(tx)
      ensures found == SessionByHash(tx.sessions, hash)
    {
      if x :| x in tx.sessions && tx.sessions[x].tokenHash == hash {
        found := Some(x);
      } else {
        found := None;
      }
    }

    /** createVerificationWithIDsTx, inside the caller's transaction. */
    method CreateVerificationTx(tx: Db, uid: Id, tokens: Tokens, now: Time, ids: NewRows)
      returns (tx': Db, err: Option<Error>)
      ensures var out := CreateVerification(tx, uid, tokens, now, ids);
        if err.None? then out == Outcome(tx', Ok(Registered(ids.recordId))) else out == Outcome(tx, Err(err.value))
    {
      if uid !in tx.users {
        return tx, Some(NoSuchUser);
      }
      var recipient := tx.users[uid].email;
      var rows := tx.verifications[ids.otpId := NewVerification(uid, tokens.otpHash, Otp, tokens.expiresAt, now)];
      if exists v | v in tx.verifications ::
        tx.verifications[v].tokenType == MagicLink && tx.verifications[v].tokenHash == tokens.magicHash {
        return tx, Some(HashTaken);
      }
      rows := rows[ids.magicId := NewVerification(uid, tokens.magicHash, MagicLink, tokens.expiresAt, now)];
      var records := tx.records[ids.recordId := EmailRecord(Some(uid), recipient, None, Queued, now, now)];
      return tx.(verifications := rows, records := records), None;
    }

    method RegisterWithVerification(email: string, uid: Id, tokens: Tokens, now: Time, ids: NewRows)
      returns (result: Result<Answer, Error>)
      requires UniqueIndexes(pool.tables)
      modifies pool
      ensures Outcome(pool.tables, result)
        == Transactions.RegisterWithVerification(old(pool.tables), email, uid, tokens, now, ids)
    {
      var tx := pool.tables;
      var taken := FindUser(tx, email);
      if taken.Some? {
        return Err(EmailTaken);
      }
      tx := tx.(users := tx.users[uid := User(email, 0, None)]);
      var err;
      tx, err := CreateVerificationTx(tx, uid, tokens, now, ids);
      if err.Some? {
        return Err(err.value);
      }
      pool.tables := tx;
      return Ok(Registered(ids.recordId));
    }

    /** Collect the live rows of the user, one by one, then revoke them, then create the new ones. */
    method ResendVerification(email: string, tokens: Tokens, now: Time, ids: NewRows)
      returns (result: Result<ResendResult, Error>)
      requires UniqueIndexes(pool.tables)
      modifies pool
      ensures var out := Transactions.ResendVerification(old(pool.tables), email, tokens, now, ids);
        && pool.tables == out.db
        && match result
           case Ok(r) =>
             && out.result == Ok(Resent(TicketOf(r)))
             && DistinctIds(r.revoked)
             && r.userId in pool.tables.users && r.userEmail == pool.tables.users[r.userId].email
           case Err(e) => out.result == Err(e)
    {
      var tx := pool.tables;
      var found := FindUser(tx, email);
      if found.None? {
        return Err(NoSuchUser);
      }
      var uid := found.value;
      if tx.users[uid].emailVerifiedAt.Some? {
        return Err(AlreadyVerified);
      }
      var snaps := CollectLive(tx.verifications, uid, now);
      tx := tx.(verifications := Revoke(tx.verifications, uid, now));
      var err;
      tx, err := CreateVerificationTx(tx, uid, tokens, now, ids);
      if err.Some? {
        return Err(err.value);
      }
      pool.tables := tx;
      return Ok(ResendResult(uid, tx.users[uid].email, ids, Some(now), snaps));
    }

    /** for rows.Next(): each live row gives one snapshot. */
    method CollectLive(rows: map<Id, Verification>, uid: Id, now: Time) returns (snaps: seq<Snapshot>)
      ensures DistinctIds(snaps) && Expiries(snaps) == LiveExpiries(rows, uid, now)
    {
      var left := set v | v in rows && Live(rows[v], uid, now);
      snaps := [];
      while left != {}
        invariant left <= LiveExpiries(rows, uid, now).Keys
        invariant Expiries(snaps) == LiveExpiries(rows, uid, now) - left
        invariant forall i | 0 <= i < |snaps| :: snaps[i].id !in left
        invariant DistinctIds(snaps)
        decreases left
      {
        var v :| v in left;
        ExpiriesAppend(snaps, Snapshot(v, rows[v].expiresAt));
        assert LiveExpiries(rows, uid, now) - (left - {v}) == (LiveExpiries(rows, uid, now) - left)[v := rows[v].expiresAt];
        snaps := snaps + [Snapshot(v, rows[v].expiresAt)];
        left := left - {v};
      }
      assert LiveExpiries(rows, uid, now) - {} == LiveExpiries(rows, uid, now);
    }

    method RollbackResendVerification(resend: Option<ResendResult>, now: Time)
      modifies pool
      ensures pool.tables
        == if resend.None? then old(pool.tables) else RollbackInOrder(old(pool.tables), resend.value, now)
      ensures resend.Some? && DistinctIds(resend.value.revoked) ==>
        pool.tables == RollbackResend(old(pool.tables), TicketOf(resend.value), now)
    {
      if resend.None? {
        return;
      }
      var r := resend.value;
      var tx := pool.tables;
      var kept := DeleteCreatedRows(tx.verifications, r);
      var gone := if r.rows.recordId in tx.records && tx.records[r.rows.recordId].userId == Some(r.userId)
      then {r.rows.recordId} else {};
      tx := tx.(records := tx.records - gone, history := tx.history - gone);
      var at := if r.revokedAt.Some? then r.revokedAt.value else now;
      var rows := RestoreExpiries(kept, r.userId, r.revoked, at);
      pool.tables := tx.(verifications := rows);
      if DistinctIds(r.revoked) {
        DistinctSnapshotsRollBack(old(pool.tables), r, now);
      }
    }

    /** The rows the resend created go, unless they belong to somebody else or have been verified since. */
    method DeleteCreatedRows(rows: map<Id, Verification>, r: ResendResult) returns (kept: map<Id, Verification>)
      ensures kept == map v | v in rows && !DeletedByRollback(rows, TicketOf(r), v) :: rows[v]
    {
      var ids := [r.rows.otpId, r.rows.magicId];
      kept := map v | v in rows && !(v in ids && rows[v].userId == r.userId && rows[v].verifiedAt.None?) :: rows[v];
    }

    /** One update per snapshot, each guarded by the row still being unverified and expired at the resend. */
    method RestoreExpiries(kept: map<Id, Verification>, uid: Id, snaps: seq<Snapshot>, at: Time)
      returns (rows: map<Id, Verification>)
      ensures rows == RestoreInOrder(kept, uid, snaps, at)
    {
      rows := kept;
      for i := 0 to |snaps|
        invariant rows == RestoreInOrder(kept, uid, snaps[..i], at)
      {
        var snap := snaps[i];
        assert snaps[..i + 1][..i] == snaps[..i] && snaps[..i + 1][i] == snap;
        if snap.id in rows && rows[snap.id].userId == uid && rows[snap.id].verifiedAt.None?
          && rows[snap.id].expiresAt <= at {
          rows := rows[snap.id := rows[snap.id].(expiresAt := snap.expiresAt)];
        }
      }
      assert snaps[..|snaps|] == snaps;
    }

    /** The newest unverified OTP row of the address: a wrong guess commits its attempt, a right one verifies. */
    method VerifyEmailOTP(email: string, hash: string, now: Time) returns (result: Result<Answer, Error>)
      modifies pool
      ensures Outcome(pool.tables, result) == VerifyEmailOtp(old(pool.tables), email, hash, now)
    {
      var tx := pool.tables;
      var newest := FindNewestOtp(tx, email);
      if newest.None? {
        return Err(InvalidOtp);
      }
      var v := newest.value;
      var row := tx.verifications[v];
      if row.attempts > MAX_OTP_ATTEMPTS {
        return Err(TooManyAttempts);
      }
      if !(row.expiresAt > now) {
        return Err(VerificationExpired);
      }
      if row.tokenHash != hash {
        var attempts := row.attempts + 1;
        pool.tables := tx.(verifications := tx.verifications[v := row.(attempts := attempts)]);
        if attempts > MAX_OTP_ATTEMPTS {
          return Err(TooManyAttempts);
        }
        return Err(InvalidOtp);
      }
      result := MarkVerified(tx, v, now);
    }

    method FindNewestOtp(tx: Db, email: string) returns (newest: Option<Id>)
      ensures newest == NewestOtp(tx, email)
    {
      var candidates := set v | v in tx.verifications && OtpCandidate(tx, email, v);
      if candidates == {} {
        assert forall w :: OtpCandidate(tx, email, w) ==> w in candidates;
        return None;
      }
      ghost var newestOne := LastOfSome(
        candidates, (a, b) => a in tx.verifications && b in tx.verifications && AtMostAsNew(tx.verifications, a, b));
      var v :| v in candidates && forall w | w in candidates :: AtMostAsNew(tx.verifications, w, v);
      NewestIsTheOne(tx, email, candidates, v);
      return Some(v);
    }

    method VerifyMagicLinkToken(hash: string, now: Time) returns (result: Result<Answer, Error>)
      requires UniqueIndexes(pool.tables)
      modifies pool
      ensures Outcome(pool.tables, result) == VerifyMagicLink(old(pool.tables), hash, now)
    {
      var tx := pool.tables;
      if v :| v in tx.verifications && tx.verifications[v].tokenType == MagicLink
              && tx.verifications[v].tokenHash == hash && tx.verifications[v].verifiedAt.None? {
        assert IsOpenMagicLink(tx.verifications, hash, v);
        assert forall w | IsOpenMagicLink(tx.verifications, hash, w) :: w == v;
        if !(tx.verifications[v].expiresAt > now) {
          return Err(VerificationExpired);
        }
        result := MarkVerified(tx, v, now);
      } else {
        return Err(InvalidMagicLink);
      }
    }

    /** Set verified_at, then activate the user unless that has happened before, and commit. */
    method MarkVerified(tx: Db, v: Id, now: Time) returns (result: Result<Answer, Error>)
      requires v in tx.verifications
      modifies pool
      ensures Outcome(pool.tables, result) == Activate(tx, v, now)
    {
      var uid := tx.verifications[v].userId;
      var rows := tx.verifications[v := tx.verifications[v].(verifiedAt := Some(now))];
      var affected := uid in tx.users && tx.users[uid].emailVerifiedAt.None?;
      var users := tx.users;
      if affected {
        users := users[uid := users[uid].(status := 1, emailVerifiedAt := Some(now))];
      }
      pool.tables := tx.(verifications := rows, users := users);
      return Ok(Verified(affected));
    }

    /** Delete the records, then the user with its cascades; when no pending user is there, nothing is committed. */
    method CleanupPendingRegistration(uid: Id) returns (result: Result<Answer, Error>)
      modifies pool
      ensures Outcome(pool.tables, result) == Transactions.CleanupPendingRegistration(old(pool.tables), uid)
    {
      var tx := pool.tables;
      var gone := set r | r in tx.records && tx.records[r].userId == Some(uid);
      tx := tx.(records := tx.records - gone, history := tx.history - gone);
      if !(uid in tx.users && tx.users[uid].status == 0 && tx.users[uid].emailVerifiedAt.None?) {
        return Err(PendingRegistrationGone);
      }
      pool.tables := DeleteUser(tx, uid);
      return Ok(Done);
    }

    /** A new owner is created pending; an old one must be verified; a taken tenant name undoes either. */
    method Bootstrap(email: string, passwordOk: bool, tenantTaken: bool, uid: Id) returns (result: Result<Answer, Error>)
      requires UniqueIndexes(pool.tables)
      modifies pool
      ensures Outcome(pool.tables, result)
        == Transactions.Bootstrap(old(pool.tables), email, passwordOk, tenantTaken, uid)
    {
      var tx := pool.tables;
      var found := FindUser(tx, email);
      if found.None? {
        tx := tx.(users := tx.users[uid := User(email, 0, None)]);
      } else {
        var u := found.value;
        if !passwordOk {
          return Err(PasswordMismatch);
        }
        if tx.users[u].emailVerifiedAt.None? {
          return Err(EmailUnverified);
        }
        tx := tx.(users := tx.users[u := tx.users[u].(status := 1)]);
      }
      if tenantTaken {
        return Err(TenantNameConflict);
      }
      pool.tables := tx;
      return Ok(Done);
    }

    method SaveRefreshSession(hash: string, uid: Id, expiresAt: Time, x: Id) returns (result: Result<Answer, Error>)
      requires UniqueIndexes(pool.tables)
      modifies pool
      ensures Outcome(pool.tables, result)
        == Transactions.SaveRefreshSession(old(pool.tables), hash, uid, expiresAt, x)
    {
      var tx := pool.tables;
      if uid !in tx.users {
        return Err(NoSuchUser);
      }
      var clash := FindSession(tx, hash);
      if clash.Some? {
        return Err(HashTaken);
      }
      pool.tables := tx.(sessions := tx.sessions[x := Session(uid, hash, expiresAt, None, None)]);
      return Ok(LoggedIn(uid));
    }

    /** Insert the successor first, then revoke the old session and point it at the successor. */
    method RotateRefreshToken(oldHash: string, newHash: string, expiresAt: Time, now: Time, x: Id)
      returns (result: Result<Answer, Error>)
      requires UniqueIndexes(pool.tables) && x !in pool.tables.sessions
      modifies pool
      ensures Outcome(pool.tables, result)
        == Transactions.RotateRefreshToken(old(pool.tables), oldHash, newHash, expiresAt, now, x)
    {
      var tx := pool.tables;
      var found := FindSession(tx, oldHash);
      if found.None? {
        return Err(SessionNotFound);
      }
      var session := tx.sessions[found.value];
      if session.revokedAt.Some? {
        return Err(SessionRevoked);
      }
      if session.expiresAt < now {
        return Err(RefreshExpired);
      }
      var clash := FindSession(tx, newHash);
      if clash.Some? {
        return Err(HashTaken);
      }
      var sessions := tx.sessions[x := Session(session.userId, newHash, expiresAt, None, None)];
      sessions := map y | y in sessions ::
        if sessions[y].tokenHash == oldHash && sessions[y].revokedAt.None?
        then sessions[y].(revokedAt := Some(now), replacedBy := Some(x)) else sessions[y];
      RotatedTable(tx.sessions, found.value, x, sessions, newHash, expiresAt, now);
      pool.tables := tx.(sessions := sessions);
      return Ok(Rotated(session.userId));
    }

    method RevokeRefreshToken(hash: string, now: Time)
      modifies pool
      ensures pool.tables == old(pool.tables).(sessions := RevokeToken(old(pool.tables).sessions, hash, now))
    {
      var tx := pool.tables;
      var hit := set x | x in tx.sessions && tx.sessions[x].tokenHash == hash && tx.sessions[x].revokedAt.None?;
      var sessions := map x | x in tx.sessions ::
        if x in hit then tx.sessions[x].(revokedAt := Some(now)) else tx.sessions[x];
      pool.tables := tx.(sessions := sessions);
    }

    /** Returns the number of rows the update affected. */
    method RevokeAllRefreshTokensByUser(uid: Id, now: Time) returns (count: nat)
      modifies pool
      ensures pool.tables == old(pool.tables).(sessions := RevokeUser(old(pool.tables).sessions, uid, now))
      ensures count == |Unrevoked(old(pool.tables).sessions, uid)|
    {
      var tx := pool.tables;
      var hit := set x | x in tx.sessions && tx.sessions[x].userId == uid && tx.sessions[x].revokedAt.None?;
      var sessions := map x | x in tx.sessions ::
        if x in hit then tx.sessions[x].(revokedAt := Some(now)) else tx.sessions[x];
      pool.tables := tx.(sessions := sessions);
      assert hit == Unrevoked(tx.sessions, uid);
      return |hit|;
    }
  }

  /** The update by token hash touches exactly the rotated session. */
  lemma RotatedTable(
    sessions: map<Id, Session>, o: Id, x: Id, sessions': map<Id, Session>, newHash: string, expiresAt: Time, now: Time)
    requires UniqueSessionHashes(sessions) && o in sessions && x !in sessions && sessions[o].revokedAt.None?
    requires forall y | y in sessions :: sessions[y].tokenHash != newHash
    requires var added := sessions[x := Session(sessions[o].userId, newHash, expiresAt, None, None)];
      sessions' == map y | y in added ::
        if added[y].tokenHash == sessions[o].tokenHash && added[y].revokedAt.None?
        then added[y].(revokedAt := Some(now), replacedBy := Some(x)) else added[y]
    ensures sessions' == sessions
      [x := Session(sessions[o].userId, newHash, expiresAt, None, None)]
      [o := sessions[o].(revokedAt := Some(now), replacedBy := Some(x))]
  {
  }
}
