/**
 The committed transactions of the auth store, each as a function from the tables to the tables.
 A transaction that returns an error leaves the tables as they were, except for a wrong OTP,
 which commits its attempt counter before it answers.
 Tokens arrive as digests: hashing happens before the transaction and is not modelled.
 */
module Transactions {
  import opened Base
  import opened Tables

  /** The number of wrong guesses after which an OTP row is closed is one more than this. */
  const MAX_OTP_ATTEMPTS := 5

  datatype Error =
    | EmailTaken | HashTaken | NoSuchUser | AlreadyVerified
    | InvalidOtp | TooManyAttempts | VerificationExpired | InvalidMagicLink
    | PendingRegistrationGone
    | PasswordMismatch | EmailUnverified | TenantNameConflict | InvalidCredentials
    | SessionNotFound | SessionRevoked | RefreshExpired

  datatype Answer =
    | Done
    | Registered(recordId: Id)
    | Resent(ticket: Ticket)
    | Verified(activatedNow: bool)
    | LoggedIn(uid: Id)
    | Rotated(uid: Id)
    | RevokedAll(count: nat)

  datatype Outcome = Outcome(db: Db, result: Result<Answer, Error>)

  /** The ids that one verification e-mail needs, freshly drawn. */
  datatype NewRows = NewRows(otpId: Id, magicId: Id, recordId: Id)

  datatype Tokens = Tokens(otpHash: string, magicHash: string, expiresAt: Time)

  /** What a resend hands back so that it can be undone. `revoked` maps each revoked row to its old expiry. */
  datatype Ticket = Ticket(userId: Id, rows: NewRows, revokedAt: Option<Time>, revoked: map<Id, Time>)

  // ----- registration and verification rows -----

  ghost function UserByEmail(users: map<Id, User>, email: string): Option<Id> {
    if u :| u in users && users[u].email == email then Some(u) else None
  }

  ghost predicate MagicHashTaken(rows: map<Id, Verification>, hash: string) {
    exists v :: v in rows && rows[v].tokenType == MagicLink && rows[v].tokenHash == hash
  }

  function NewVerification(uid: Id, hash: string, kind: TokenType, expiresAt: Time, now: Time): Verification {
    Verification(uid, hash, kind, expiresAt, None, 0, now)
  }

  function WithVerification(rows: map<Id, Verification>, uid: Id, tokens: Tokens, now: Time, ids: NewRows)
    : map<Id, Verification>
  {
    rows
    [ids.otpId := NewVerification(uid, tokens.otpHash, Otp, tokens.expiresAt, now)]
    [ids.magicId := NewVerification(uid, tokens.magicHash, MagicLink, tokens.expiresAt, now)]
  }

  /** createVerificationWithIDsTx: one OTP row, one magic-link row and one queued e-mail record. */
  ghost function CreateVerification(db: Db, uid: Id, tokens: Tokens, now: Time, ids: NewRows): Outcome {
    if uid !in db.users then
      Outcome(db, Err(NoSuchUser))
    else if MagicHashTaken(db.verifications, tokens.magicHash) then
      Outcome(db, Err(HashTaken))
    else
      Outcome(
        db.(verifications := WithVerification(db.verifications, uid, tokens, now, ids),
        records := db.records[ids.recordId := EmailRecord(Some(uid), db.users[uid].email, None, Queued, now, now)]),
        Ok(Registered(ids.recordId)))
  }

  ghost function RegisterWithVerification(db: Db, email: string, uid: Id, tokens: Tokens, now: Time, ids: NewRows)
    : Outcome
  {
    if UserByEmail(db.users, email).Some? then
      Outcome(db, Err(EmailTaken))
    else
      var created := CreateVerification(db.(users := db.users[uid := User(email, 0, None)]), uid, tokens, now, ids);
      if created.result.Ok? then created else Outcome(db, created.result)
  }

  // ----- resend and its compensation -----

  predicate Live(row: Verification, uid: Id, now: Time) {
    row.userId == uid && row.verifiedAt.None? && row.expiresAt > now
  }

  function LiveExpiries(rows: map<Id, Verification>, uid: Id, now: Time): map<Id, Time> {
    map v | v in rows && Live(rows[v], uid, now) :: rows[v].expiresAt
  }

  function Revoke(rows: map<Id, Verification>, uid: Id, now: Time): map<Id, Verification> {
    map v | v in rows :: if Live(rows[v], uid, now) then rows[v].(expiresAt := now) else rows[v]
  }

  ghost function ResendVerification(db: Db, email: string, tokens: Tokens, now: Time, ids: NewRows): Outcome {
    match UserByEmail(db.users, email)
    case None => Outcome(db, Err(NoSuchUser))
    case Some(uid) =>
      if db.users[uid].emailVerifiedAt.Some? then
        Outcome(db, Err(AlreadyVerified))
      else
        var created :=
          CreateVerification(db.(verifications := Revoke(db.verifications, uid, now)), uid, tokens, now, ids);
        if created.result.Err? then Outcome(db, created.result)
        else
          Outcome(created.db, Ok(Resent(Ticket(uid, ids, Some(now), LiveExpiries(db.verifications, uid, now)))))
  }

  /** The rows that a rollback deletes: those the resend created, unless one has been verified since. */
  predicate DeletedByRollback(rows: map<Id, Verification>, ticket: Ticket, v: Id)
    requires v in rows
  {
    && (v == ticket.rows.otpId || v == ticket.rows.magicId)
    && rows[v].userId == ticket.userId
    && rows[v].verifiedAt.None?
  }

  predicate Restorable(row: Verification, uid: Id, at: Time) {
    row.userId == uid && row.verifiedAt.None? && row.expiresAt <= at
  }

  function Restore(rows: map<Id, Verification>, uid: Id, revoked: map<Id, Time>, at: Time): map<Id, Verification> {
    map v | v in rows ::
      if v in revoked && Restorable(rows[v], uid, at) then rows[v].(expiresAt := revoked[v]) else rows[v]
  }

  function DeleteRecords(db: Db, gone: set<Id>): Db {
    db.(records := db.records - gone, history := db.history - gone)
  }

  function RollbackResend(db: Db, ticket: Ticket, now: Time): Db {
    var kept := map v | v in db.verifications && !DeletedByRollback(db.verifications, ticket, v) :: db.verifications[v];
    var at := if ticket.revokedAt.Some? then ticket.revokedAt.value else now;
    var r := ticket.rows.recordId;
    var gone := if r in db.records && db.records[r].userId == Some(ticket.userId) then {r} else {};
    DeleteRecords(db.(verifications := Restore(kept, ticket.userId, ticket.revoked, at)), gone)
  }

  // ----- verification -----

  predicate OtpCandidate(db: Db, email: string, v: Id) {
    && v in db.verifications
    && db.verifications[v].userId in db.users
    && db.users[db.verifications[v].userId].email == email
    && db.verifications[v].tokenType == Otp
    && db.verifications[v].verifiedAt.None?
  }

  /** order by created_at, id */
  predicate AtMostAsNew(rows: map<Id, Verification>, a: Id, b: Id)
    requires a in rows && b in rows
  {
    rows[a].createdAt < rows[b].createdAt || (rows[a].createdAt == rows[b].createdAt && a <= b)
  }

  ghost predicate IsNewestOtp(db: Db, email: string, v: Id) {
    && OtpCandidate(db, email, v)
    && forall w | OtpCandidate(db, email, w) :: AtMostAsNew(db.verifications, w, v)
  }

  ghost function NewestOtp(db: Db, email: string): Option<Id> {
    if v :| IsNewestOtp(db, email, v) then Some(v) else None
  }

  /** Mark the row verified and, the first time, the user too. */
  function Activate(db: Db, v: Id, now: Time): Outcome
    requires v in db.verifications
  {
    var row := db.verifications[v];
    var verified := db.(verifications := db.verifications[v := row.(verifiedAt := Some(now))]);
    if row.userId in db.users && db.users[row.userId].emailVerifiedAt.None? then
      var user := db.users[row.userId].(status := 1, emailVerifiedAt := Some(now));
      Outcome(verified.(users := db.users[row.userId := user]), Ok(Verified(true)))
    else
      Outcome(verified, Ok(Verified(false)))
  }

  /** The row whose stored hash an OTP request gets to compare with, if any. */
  ghost function ComparedOtp(db: Db, email: string, now: Time): Option<Id> {
    match NewestOtp(db, email)
    case None => None
    case Some(v) =>
      if db.verifications[v].attempts <= MAX_OTP_ATTEMPTS && db.verifications[v].expiresAt > now then Some(v) else None
  }

  ghost function VerifyEmailOtp(db: Db, email: string, hash: string, now: Time): Outcome {
    match NewestOtp(db, email)
    case None => Outcome(db, Err(InvalidOtp))
    case Some(v) =>
      var row := db.verifications[v];
      if row.attempts > MAX_OTP_ATTEMPTS then
        Outcome(db, Err(TooManyAttempts))
      else if row.expiresAt <= now then
        Outcome(db, Err(VerificationExpired))
      else if row.tokenHash != hash then
        var attempts := row.attempts + 1;
        Outcome(
          db.(verifications := db.verifications[v := row.(attempts := attempts)]),
          Err(if attempts > MAX_OTP_ATTEMPTS then TooManyAttempts else InvalidOtp))
      else
        Activate(db, v, now)
  }

  ghost predicate IsOpenMagicLink(rows: map<Id, Verification>, hash: string, v: Id) {
    v in rows && rows[v].tokenType == MagicLink && rows[v].tokenHash == hash && rows[v].verifiedAt.None?
  }

  ghost function VerifyMagicLink(db: Db, hash: string, now: Time): Outcome {
    if v :| IsOpenMagicLink(db.verifications, hash, v) then
      if db.verifications[v].expiresAt <= now then Outcome(db, Err(VerificationExpired))
      else Activate(db, v, now)
    else
      Outcome(db, Err(InvalidMagicLink))
  }

  // ----- clean-up and bootstrap -----

  function RecordsOf(db: Db, uid: Id): set<Id> {
    set r | r in db.records && db.records[r].userId == Some(uid)
  }

  /** delete from users, with the cascades of the schema. */
  function DeleteUser(db: Db, uid: Id): Db {
    Db(
      db.users - {uid},
      map v | v in db.verifications && db.verifications[v].userId != uid :: db.verifications[v],
      map r | r in db.records ::
        if db.records[r].userId == Some(uid) then db.records[r].(userId := None) else db.records[r],
      db.history,
      map x | x in db.sessions && db.sessions[x].userId != uid :: db.sessions[x])
  }

  function CleanupPendingRegistration(db: Db, uid: Id): Outcome {
    if uid in db.users && db.users[uid].status == 0 && db.users[uid].emailVerifiedAt.None? then
      Outcome(DeleteUser(DeleteRecords(db, RecordsOf(db, uid)), uid), Ok(Done))
    else
      Outcome(db, Err(PendingRegistrationGone))
  }

  /** The part of Bootstrap that touches users; the tenant tables are not modelled. */
  ghost function Bootstrap(db: Db, email: string, passwordOk: bool, tenantTaken: bool, uid: Id): Outcome {
    match UserByEmail(db.users, email)
    case None =>
      if tenantTaken then Outcome(db, Err(TenantNameConflict))
      else Outcome(db.(users := db.users[uid := User(email, 0, None)]), Ok(Done))
    case Some(u) =>
      if !passwordOk then Outcome(db, Err(PasswordMismatch))
      else if db.users[u].emailVerifiedAt.None? then Outcome(db, Err(EmailUnverified))
      else if tenantTaken then Outcome(db, Err(TenantNameConflict))
      else Outcome(db.(users := db.users[u := db.users[u].(status := 1)]), Ok(Done))
  }

  // ----- refresh sessions -----

  ghost function SessionByHash(sessions: map<Id, Session>, hash: string): Option<Id> {
    if x :| x in sessions && sessions[x].tokenHash == hash then Some(x) else None
  }

  ghost function SaveRefreshSession(db: Db, hash: string, uid: Id, expiresAt: Time, x: Id): Outcome {
    if uid !in db.users then Outcome(db, Err(NoSuchUser))
    else if SessionByHash(db.sessions, hash).Some? then Outcome(db, Err(HashTaken))
    else Outcome(db.(sessions := db.sessions[x := Session(uid, hash, expiresAt, None, None)]), Ok(LoggedIn(uid)))
  }

  /** Login: the checks on the user, then a new session. */
  ghost function Login(db: Db, email: string, passwordOk: bool, hash: string, expiresAt: Time, x: Id): Outcome {
    match UserByEmail(db.users, email)
    case None => Outcome(db, Err(InvalidCredentials))
    case Some(uid) =>
      if db.users[uid].emailVerifiedAt.None? then Outcome(db, Err(EmailUnverified))
      else if db.users[uid].status != 1 then Outcome(db, Err(InvalidCredentials))
      else if !passwordOk then Outcome(db, Err(InvalidCredentials))
      else SaveRefreshSession(db, hash, uid, expiresAt, x)
  }

  ghost function RotateRefreshToken(db: Db, oldHash: string, newHash: string, expiresAt: Time, now: Time, x: Id)
    : Outcome
  {
    match SessionByHash(db.sessions, oldHash)
    case None => Outcome(db, Err(SessionNotFound))
    case Some(o) =>
      var old' := db.sessions[o];
      if old'.revokedAt.Some? then Outcome(db, Err(SessionRevoked))
      else if old'.expiresAt < now then Outcome(db, Err(RefreshExpired))
      else if SessionByHash(db.sessions, newHash).Some? then Outcome(db, Err(HashTaken))
      else
        Outcome(
          db.(sessions := db.sessions
          [x := Session(old'.userId, newHash, expiresAt, None, None)]
          [o := old'.(revokedAt := Some(now), replacedBy := Some(x))]),
          Ok(Rotated(old'.userId)))
  }

  function RevokeToken(sessions: map<Id, Session>, hash: string, now: Time): map<Id, Session> {
    map x | x in sessions ::
      if sessions[x].tokenHash == hash && sessions[x].revokedAt.None? then sessions[x].(revokedAt := Some(now))
      else sessions[x]
  }

  function Unrevoked(sessions: map<Id, Session>, uid: Id): set<Id> {
    set x | x in sessions && sessions[x].userId == uid && sessions[x].revokedAt.None?
  }

  function RevokeUser(sessions: map<Id, Session>, uid: Id, now: Time): map<Id, Session> {
    map x | x in sessions ::
      if sessions[x].userId == uid && sessions[x].revokedAt.None? then sessions[x].(revokedAt := Some(now))
      else sessions[x]
  }
}
