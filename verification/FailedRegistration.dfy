/**
 A registration whose enqueue fails and whose clean-up succeeds leaves no trace: whatever other users do in
 between, the tables end up as if the request had never been made.
 */
module FailedRegistration {
  import opened Base
  import opened Tables
  import opened Transactions
  import opened AuthRuns
  import opened AuthInvariants

  function RowsOfOthers(rows: map<Id, Verification>, uid: Id): map<Id, Verification> {
    map v | v in rows && rows[v].userId != uid :: rows[v]
  }

  /** The tables without the user, its verification rows and its e-mail records with their logs. */
  function Erase(db: Db, uid: Id): Db {
    var gone := RecordsOf(db, uid);
    Db(db.users - {uid}, RowsOfOthers(db.verifications, uid), db.records - gone, db.history - gone, db.sessions)
  }

  /** The user has registered, nothing else has happened to it, and its magic links have these digests. */
  ghost predicate Waiting(db: Db, uid: Id, email: string, links: set<string>) {
    && uid in db.users && db.users[uid] == User(email, 0, None)
    && forall v | v in db.verifications && db.verifications[v].userId == uid ::
         db.verifications[v].tokenType == MagicLink ==> db.verifications[v].tokenHash in links
  }

  /** The transaction uses neither the user's address nor its id nor any of its magic links. */
  predicate Elsewhere(e: Event, uid: Id, email: string, links: set<string>) {
    match e
    case Register(other, _, tokens, _) => other != email && tokens.magicHash !in links
    case Create(other, tokens, _) => other != uid && tokens.magicHash !in links
    case Resend(other, tokens, _) => other != email && tokens.magicHash !in links
    case Rollback(ticket) => ticket.userId != uid
    case VerifyOtp(other, _) => other != email
    case VerifyMagic(hash) => hash !in links
    case Cleanup(other) => other != uid
    case BootstrapOwner(other, _, _, _) => other != email
    case LogIn(other, _, _, _, _) => other != email
    case _ => true
  }

  lemma NewRowsErased(rows: map<Id, Verification>, uid: Id, tokens: Tokens, now: Time, ids: NewRows)
    requires forall v | v in rows :: rows[v].userId != uid
    requires ids.otpId !in rows && ids.magicId !in rows && ids.otpId != ids.magicId
    ensures RowsOfOthers(WithVerification(rows, uid, tokens, now, ids), uid) == rows
  {
  }

  lemma NewRecordErased(db: Db, db': Db, uid: Id, r: Id, record: EmailRecord)
    requires RecordsOf(db, uid) == {} && r !in db.records && r !in db.history && record.userId == Some(uid)
    requires db'.records == db.records[r := record] && db'.history == db.history
    ensures RecordsOf(db', uid) == {r} && db'.records - {r} == db.records && db'.history - {r} == db.history
  {
  }

  /** Erasing right after the registration gives the old tables back. */
  lemma RegisterThenErase(db: Db, email: string, uid: Id, tokens: Tokens, now: Time, ids: NewRows)
    requires ForeignKeys(db) && uid !in db.users
    requires ids.otpId !in db.verifications && ids.magicId !in db.verifications && ids.otpId != ids.magicId
    requires ids.recordId !in db.records
    requires RegisterWithVerification(db, email, uid, tokens, now, ids).result.Ok?
    ensures var out := RegisterWithVerification(db, email, uid, tokens, now, ids);
      Waiting(out.db, uid, email, {tokens.magicHash}) && Erase(out.db, uid) == db
  {
    var db' := RegisterWithVerification(db, email, uid, tokens, now, ids).db;
    NewRowsErased(db.verifications, uid, tokens, now, ids);
    NewRecordErased(db, db', uid, ids.recordId, db'.records[ids.recordId]);
    assert db'.users - {uid} == db.users;
  }

  // ----- each transaction about somebody else commutes with the erasure -----

  /** Same answer with and without the user, and the same tables but for the user. */
  ghost predicate Unaffected(uid: Id, out: Outcome, erased: Outcome) {
    erased == Outcome(Erase(out.db, uid), out.result)
  }

  lemma SameUserByEmail(db: Db, uid: Id, email: string, other: string)
    requires UniqueEmails(db.users) && uid in db.users && db.users[uid].email == email && other != email
    ensures UserByEmail(Erase(db, uid).users, other) == UserByEmail(db.users, other)
  {
    if u :| u in db.users && db.users[u].email == other {
      assert u in Erase(db, uid).users;
    }
  }

  lemma SameMagicHashTaken(db: Db, uid: Id, email: string, links: set<string>, other: string)
    requires Waiting(db, uid, email, links) && other !in links
    ensures MagicHashTaken(Erase(db, uid).verifications, other) == MagicHashTaken(db.verifications, other)
  {
    if v :| v in db.verifications && db.verifications[v].tokenType == MagicLink && db.verifications[v].tokenHash == other {
      assert v in Erase(db, uid).verifications;
    }
  }

  lemma NewRowsElsewhere(rows: map<Id, Verification>, uid: Id, other: Id, tokens: Tokens, now: Time, ids: NewRows)
    requires other != uid
    ensures RowsOfOthers(WithVerification(rows, other, tokens, now, ids), uid)
      == WithVerification(RowsOfOthers(rows, uid), other, tokens, now, ids)
  {
  }

  lemma NewRecordElsewhere(db: Db, db': Db, uid: Id, r: Id, record: EmailRecord)
    requires record.userId != Some(uid) && r !in db.records
    requires db'.records == db.records[r := record]
    ensures RecordsOf(db', uid) == RecordsOf(db, uid)
    ensures db'.records - RecordsOf(db', uid) == (db.records - RecordsOf(db, uid))[r := record]
  {
    assert r !in RecordsOf(db, uid);
  }

  lemma CreateElsewhere(db: Db, uid: Id, email: string, links: set<string>, other: Id, tokens: Tokens, now: Time, ids: NewRows)
    requires Waiting(db, uid, email, links) && other != uid && tokens.magicHash !in links
    requires ids.recordId !in db.records
    ensures Unaffected(uid, CreateVerification(db, other, tokens, now, ids),
      CreateVerification(Erase(db, uid), other, tokens, now, ids))
  {
    SameMagicHashTaken(db, uid, email, links, tokens.magicHash);
    var out := CreateVerification(db, other, tokens, now, ids);
    if out.result.Ok? {
      NewRowsElsewhere(db.verifications, uid, other, tokens, now, ids);
      NewRecordElsewhere(db, out.db, uid, ids.recordId, out.db.records[ids.recordId]);
    }
  }

  lemma NewUserElsewhere(db: Db, uid: Id, other: Id, user: User)
    requires other != uid
    ensures Erase(db.(users := db.users[other := user]), uid)
      == Erase(db, uid).(users := Erase(db, uid).users[other := user])
  {
    assert RecordsOf(db.(users := db.users[other := user]), uid) == RecordsOf(db, uid);
  }

  lemma RegisterElsewhere(
    db: Db, uid: Id, email: string, links: set<string>,
    address: string, other: Id, tokens: Tokens, now: Time, ids: NewRows)
    requires Waiting(db, uid, email, links) && UniqueEmails(db.users)
    requires other != uid && address != email && tokens.magicHash !in links && ids.recordId !in db.records
    ensures Unaffected(uid, RegisterWithVerification(db, address, other, tokens, now, ids),
      RegisterWithVerification(Erase(db, uid), address, other, tokens, now, ids))
  {
    SameUserByEmail(db, uid, email, address);
    NewUserElsewhere(db, uid, other, User(address, 0, None));
    CreateElsewhere(db.(users := db.users[other := User(address, 0, None)]), uid, email, links, other, tokens, now, ids);
  }

  lemma ResendElsewhere(
    db: Db, uid: Id, email: string, links: set<string>, address: string, tokens: Tokens, now: Time, ids: NewRows)
    requires Waiting(db, uid, email, links) && UniqueEmails(db.users)
    requires address != email && tokens.magicHash !in links && ids.recordId !in db.records
    ensures Unaffected(uid, ResendVerification(db, address, tokens, now, ids),
      ResendVerification(Erase(db, uid), address, tokens, now, ids))
  {
    SameUserByEmail(db, uid, email, address);
    var found := UserByEmail(db.users, address);
    if found.Some? {
      var other := found.value;
      var revoked := db.(verifications := Revoke(db.verifications, other, now));
      assert RecordsOf(revoked, uid) == RecordsOf(db, uid);
      assert RowsOfOthers(revoked.verifications, uid) == Revoke(RowsOfOthers(db.verifications, uid), other, now);
      assert Erase(revoked, uid) == Erase(db, uid).(verifications := Revoke(RowsOfOthers(db.verifications, uid), other, now));
      CreateElsewhere(revoked, uid, email, links, other, tokens, now, ids);
      assert LiveExpiries(RowsOfOthers(db.verifications, uid), other, now) == LiveExpiries(db.verifications, other, now);
    }
  }

  lemma RollbackRowsElsewhere(db: Db, uid: Id, ticket: Ticket, now: Time)
    requires ticket.userId != uid
    ensures RowsOfOthers(RollbackResend(db, ticket, now).verifications, uid)
      == RollbackResend(Erase(db, uid), ticket, now).verifications
  {
  }

  lemma RemovalElsewhere(db: Db, db': Db, uid: Id, gone: set<Id>)
    requires db'.records == db.records - gone
    ensures db'.records - RecordsOf(db', uid) == (db.records - RecordsOf(db, uid)) - gone
    ensures (db.history - gone) - RecordsOf(db', uid) == (db.history - RecordsOf(db, uid)) - gone
  {
    assert RecordsOf(db', uid) == RecordsOf(db, uid) - gone;
  }

  lemma RollbackElsewhere(db: Db, uid: Id, ticket: Ticket, now: Time)
    requires ticket.userId != uid
    ensures Erase(RollbackResend(db, ticket, now), uid) == RollbackResend(Erase(db, uid), ticket, now)
  {
    RollbackRowsElsewhere(db, uid, ticket, now);
    var r := ticket.rows.recordId;
    var gone := if r in db.records && db.records[r].userId == Some(ticket.userId) then {r} else {};
    RemovalElsewhere(db, RollbackResend(db, ticket, now), uid, gone);
  }

  lemma ChangedRowElsewhere(db: Db, uid: Id, v: Id, row: Verification)
    requires v in db.verifications && db.verifications[v].userId != uid && row.userId != uid
    ensures Erase(db.(verifications := db.verifications[v := row]), uid)
      == Erase(db, uid).(verifications := Erase(db, uid).verifications[v := row])
  {
    assert RecordsOf(db.(verifications := db.verifications[v := row]), uid) == RecordsOf(db, uid);
    assert RowsOfOthers(db.verifications[v := row], uid) == RowsOfOthers(db.verifications, uid)[v := row];
  }

  lemma ActivateElsewhere(db: Db, uid: Id, v: Id, now: Time)
    requires v in db.verifications && db.verifications[v].userId != uid
    ensures v in Erase(db, uid).verifications
    ensures Unaffected(uid, Activate(db, v, now), Activate(Erase(db, uid), v, now))
  {
    var row := db.verifications[v];
    var verified := row.(verifiedAt := Some(now));
    ChangedRowElsewhere(db, uid, v, verified);
    if row.userId in db.users && db.users[row.userId].emailVerifiedAt.None? {
      NewUserElsewhere(
        db.(verifications := db.verifications[v := verified]), uid, row.userId,
        db.users[row.userId].(status := 1, emailVerifiedAt := Some(now)));
    }
  }

  lemma SameNewestOtp(db: Db, uid: Id, email: string, address: string)
    requires uid in db.users && db.users[uid].email == email && address != email
    ensures NewestOtp(Erase(db, uid), address) == NewestOtp(db, address)
  {
    var erased := Erase(db, uid);
    assert forall v :: OtpCandidate(erased, address, v) <==> OtpCandidate(db, address, v);
    forall v ensures IsNewestOtp(erased, address, v) <==> IsNewestOtp(db, address, v) {
    }
    assert forall v, w | IsNewestOtp(db, address, v) && IsNewestOtp(db, address, w) :: v == w;
  }

  lemma VerifyOtpElsewhere(db: Db, uid: Id, email: string, address: string, hash: string, now: Time)
    requires uid in db.users && db.users[uid].email == email && address != email
    ensures Unaffected(uid, VerifyEmailOtp(db, address, hash, now), VerifyEmailOtp(Erase(db, uid), address, hash, now))
  {
    SameNewestOtp(db, uid, email, address);
    var newest := NewestOtp(db, address);
    if newest.Some? {
      var v := newest.value;
      var row := db.verifications[v];
      assert row.userId != uid;
      ActivateElsewhere(db, uid, v, now);
      ChangedRowElsewhere(db, uid, v, row.(attempts := row.attempts + 1));
    }
  }

  lemma VerifyMagicElsewhere(db: Db, uid: Id, email: string, links: set<string>, hash: string, now: Time)
    requires Waiting(db, uid, email, links) && UniqueMagicHashes(db.verifications) && hash !in links
    ensures Unaffected(uid, VerifyMagicLink(db, hash, now), VerifyMagicLink(Erase(db, uid), hash, now))
  {
    var erased := Erase(db, uid);
    assert forall v :: IsOpenMagicLink(erased.verifications, hash, v) <==> IsOpenMagicLink(db.verifications, hash, v);
    if v :| IsOpenMagicLink(db.verifications, hash, v) {
      assert forall w | IsOpenMagicLink(db.verifications, hash, w) :: w == v;
      ActivateElsewhere(db, uid, v, now);
    }
  }

  lemma CleanupIsErasure(db: Db, uid: Id)
    requires Consistent(db)
    ensures var out := CleanupPendingRegistration(db, uid);
      out == if uid in db.users && db.users[uid].emailVerifiedAt.None? then Outcome(Erase(db, uid), Ok(Done))
             else Outcome(db, Err(PendingRegistrationGone))
  {
    if uid in db.users && db.users[uid].emailVerifiedAt.None? {
      assert Agrees(db.users[uid], uid in VerifiedOwners(db.verifications));
      var cleaned := CleanupPendingRegistration(db, uid).db;
      assert cleaned.records == Erase(db, uid).records;
      assert cleaned.sessions == db.sessions;
    }
  }

  lemma RowErasuresCommute(rows: map<Id, Verification>, uid: Id, other: Id)
    ensures RowsOfOthers(RowsOfOthers(rows, uid), other) == RowsOfOthers(RowsOfOthers(rows, other), uid)
  {
  }

  lemma MinusCommutes<T>(m: map<Id, T>, a: set<Id>, b: set<Id>, a': set<Id>, b': set<Id>)
    requires a' == a - b && b' == b - a
    ensures (m - a) - b' == (m - b) - a'
  {
  }

  lemma ErasuresCommute(db: Db, uid: Id, other: Id)
    ensures Erase(Erase(db, uid), other) == Erase(Erase(db, other), uid)
  {
    RowErasuresCommute(db.verifications, uid, other);
    var a, b := RecordsOf(db, uid), RecordsOf(db, other);
    var a', b' := RecordsOf(Erase(db, other), uid), RecordsOf(Erase(db, uid), other);
    assert a' == a - b && b' == b - a;
    MinusCommutes(db.records, a, b, a', b');
    MinusCommutes(db.history, a, b, a', b');
    assert (db.users - {uid}) - {other} == (db.users - {other}) - {uid};
  }

  lemma CleanupElsewhere(db: Db, uid: Id, other: Id)
    requires Consistent(db) && Consistent(Erase(db, uid)) && other != uid
    ensures Unaffected(uid, CleanupPendingRegistration(db, other), CleanupPendingRegistration(Erase(db, uid), other))
  {
    CleanupIsErasure(db, other);
    CleanupIsErasure(Erase(db, uid), other);
    ErasuresCommute(db, uid, other);
  }

  lemma BootstrapElsewhere(
    db: Db, uid: Id, email: string, address: string, passwordOk: bool, tenantTaken: bool, other: Id)
    requires uid in db.users && db.users[uid].email == email && UniqueEmails(db.users)
    requires address != email && other != uid
    ensures Unaffected(uid, Bootstrap(db, address, passwordOk, tenantTaken, other),
      Bootstrap(Erase(db, uid), address, passwordOk, tenantTaken, other))
  {
    SameUserByEmail(db, uid, email, address);
    var found := UserByEmail(db.users, address);
    if found.Some? {
      NewUserElsewhere(db, uid, found.value, db.users[found.value].(status := 1));
    } else {
      NewUserElsewhere(db, uid, other, User(address, 0, None));
    }
  }

  lemma SessionsElsewhere(db: Db, uid: Id, sessions: map<Id, Session>)
    ensures Erase(db.(sessions := sessions), uid) == Erase(db, uid).(sessions := sessions)
  {
    assert RecordsOf(db.(sessions := sessions), uid) == RecordsOf(db, uid);
  }

  lemma LoginElsewhere(
    db: Db, uid: Id, email: string, address: string, passwordOk: bool, hash: string, expiresAt: Time, x: Id)
    requires uid in db.users && db.users[uid].email == email && UniqueEmails(db.users) && address != email
    ensures Unaffected(uid, Login(db, address, passwordOk, hash, expiresAt, x),
      Login(Erase(db, uid), address, passwordOk, hash, expiresAt, x))
  {
    SameUserByEmail(db, uid, email, address);
    var found := UserByEmail(db.users, address);
    if found.Some? {
      SessionsElsewhere(db, uid, db.sessions[x := Session(found.value, hash, expiresAt, None, None)]);
    }
  }

  lemma RotateElsewhere(db: Db, uid: Id, oldHash: string, newHash: string, expiresAt: Time, now: Time, x: Id)
    ensures Unaffected(uid, RotateRefreshToken(db, oldHash, newHash, expiresAt, now, x),
      RotateRefreshToken(Erase(db, uid), oldHash, newHash, expiresAt, now, x))
  {
    SessionsElsewhere(db, uid, RotateRefreshToken(db, oldHash, newHash, expiresAt, now, x).db.sessions);
  }

  /** Any transaction about somebody else gives the same answer, and the same tables but for the user. */
  lemma TransactionElsewhere(s: State, t: Timed, uid: Id, email: string, links: set<string>)
    requires Inv(s) && Admissible(s, t) && Waiting(s.db, uid, email, links)
    requires Elsewhere(t.event, uid, email, links)
    ensures Unaffected(uid, Apply(s.db, t.now, t.event), Apply(Erase(s.db, uid), t.now, t.event))
  {
    var db, now := s.db, t.now;
    DrawnIdsAreNew(s, t);
    match t.event
    case Register(address, other, tokens, ids) =>
      RegisterElsewhere(db, uid, email, links, address, other, tokens, now, ids);
    case Create(other, tokens, ids) => CreateElsewhere(db, uid, email, links, other, tokens, now, ids);
    case Resend(address, tokens, ids) => ResendElsewhere(db, uid, email, links, address, tokens, now, ids);
    case Rollback(ticket) => RollbackElsewhere(db, uid, ticket, now);
    case VerifyOtp(address, hash) => VerifyOtpElsewhere(db, uid, email, address, hash, now);
    case VerifyMagic(hash) => VerifyMagicElsewhere(db, uid, email, links, hash, now);
    case Cleanup(other) =>
      CleanupIsErasure(db, uid);
      CleanupKeepsConsistent(db, uid);
      CleanupElsewhere(db, uid, other);
    case BootstrapOwner(address, ok, taken, other) => BootstrapElsewhere(db, uid, email, address, ok, taken, other);
    case LogIn(address, ok, hash, expiresAt, x) => LoginElsewhere(db, uid, email, address, ok, hash, expiresAt, x);
    case Rotate(oldHash, newHash, expiresAt, x) => RotateElsewhere(db, uid, oldHash, newHash, expiresAt, now, x);
    case Logout(hash) => SessionsElsewhere(db, uid, RevokeToken(db.sessions, hash, now));
    case LogoutAll(other) => SessionsElsewhere(db, uid, RevokeUser(db.sessions, other, now));
  }

  // ----- what belongs to the user stays -----

  /** The user has the same verification rows in both tables. */
  ghost predicate SameOwnRows(rows: map<Id, Verification>, rows': map<Id, Verification>, uid: Id) {
    && (forall v | v in rows && rows[v].userId == uid :: v in rows' && rows'[v] == rows[v])
    && (forall v | v in rows' && rows'[v].userId == uid :: v in rows && rows[v].userId == uid)
  }

  /** The user has the same e-mail records with the same logs in both databases. */
  ghost predicate SameOwnRecords(db: Db, db': Db, uid: Id) {
    && RecordsOf(db', uid) == RecordsOf(db, uid)
    && (forall r | r in RecordsOf(db, uid) :: db'.records[r] == db.records[r])
    && (forall r | r in RecordsOf(db, uid) :: r in db'.history <==> r in db.history)
    && (forall r | r in RecordsOf(db, uid) && r in db.history :: db'.history[r] == db.history[r])
  }

  ghost predicate SameOwn(db: Db, db': Db, uid: Id) {
    && uid in db.users && uid in db'.users && db'.users[uid] == db.users[uid]
    && SameOwnRows(db.verifications, db'.verifications, uid)
    && SameOwnRecords(db, db', uid)
  }

  lemma SameOwnTwice(db: Db, db1: Db, db2: Db, uid: Id)
    requires SameOwn(db, db1, uid) && SameOwn(db1, db2, uid)
    ensures SameOwn(db, db2, uid)
  {
  }

  lemma NewRowsKeepOwn(rows: map<Id, Verification>, uid: Id, other: Id, tokens: Tokens, now: Time, ids: NewRows)
    requires other != uid && ids.otpId !in rows && ids.magicId !in rows
    ensures SameOwnRows(rows, WithVerification(rows, other, tokens, now, ids), uid)
  {
  }

  lemma CreateKeepsOwn(db: Db, uid: Id, other: Id, tokens: Tokens, now: Time, ids: NewRows)
    requires uid in db.users && other != uid
    requires ids.otpId !in db.verifications && ids.magicId !in db.verifications && ids.recordId !in db.records
    ensures SameOwn(db, CreateVerification(db, other, tokens, now, ids).db, uid)
  {
    var out := CreateVerification(db, other, tokens, now, ids);
    if out.result.Ok? {
      NewRowsKeepOwn(db.verifications, uid, other, tokens, now, ids);
      NewRecordElsewhere(db, out.db, uid, ids.recordId, out.db.records[ids.recordId]);
    }
  }

  lemma RegisterKeepsOwn(db: Db, uid: Id, address: string, other: Id, tokens: Tokens, now: Time, ids: NewRows)
    requires uid in db.users && other != uid
    requires ids.otpId !in db.verifications && ids.magicId !in db.verifications && ids.recordId !in db.records
    ensures SameOwn(db, RegisterWithVerification(db, address, other, tokens, now, ids).db, uid)
  {
    var db1 := db.(users := db.users[other := User(address, 0, None)]);
    CreateKeepsOwn(db1, uid, other, tokens, now, ids);
    assert RecordsOf(db1, uid) == RecordsOf(db, uid);
  }

  lemma RevokeKeepsOwn(rows: map<Id, Verification>, uid: Id, other: Id, now: Time)
    requires other != uid
    ensures SameOwnRows(rows, Revoke(rows, other, now), uid)
  {
  }

  lemma ResendKeepsOwn(db: Db, uid: Id, address: string, tokens: Tokens, now: Time, ids: NewRows)
    requires uid in db.users && address != db.users[uid].email
    requires ids.otpId !in db.verifications && ids.magicId !in db.verifications && ids.recordId !in db.records
    ensures SameOwn(db, ResendVerification(db, address, tokens, now, ids).db, uid)
  {
    var found := UserByEmail(db.users, address);
    if found.Some? {
      var db1 := db.(verifications := Revoke(db.verifications, found.value, now));
      RevokeKeepsOwn(db.verifications, uid, found.value, now);
      assert RecordsOf(db1, uid) == RecordsOf(db, uid);
      CreateKeepsOwn(db1, uid, found.value, tokens, now, ids);
      SameOwnTwice(db, db1, CreateVerification(db1, found.value, tokens, now, ids).db, uid);
    }
  }

  lemma RollbackKeepsOwnRows(db: Db, uid: Id, ticket: Ticket, now: Time)
    requires ticket.userId != uid
    ensures SameOwnRows(db.verifications, RollbackResend(db, ticket, now).verifications, uid)
  {
  }

  lemma RollbackKeepsOwn(db: Db, uid: Id, ticket: Ticket, now: Time)
    requires uid in db.users && ticket.userId != uid
    ensures SameOwn(db, RollbackResend(db, ticket, now), uid)
  {
    RollbackKeepsOwnRows(db, uid, ticket, now);
    assert RecordsOf(RollbackResend(db, ticket, now), uid) == RecordsOf(db, uid);
  }

  lemma ChangedRowKeepsOwn(db: Db, uid: Id, v: Id, row: Verification)
    requires uid in db.users && v in db.verifications && db.verifications[v].userId != uid && row.userId != uid
    ensures SameOwn(db, db.(verifications := db.verifications[v := row]), uid)
  {
    assert RecordsOf(db.(verifications := db.verifications[v := row]), uid) == RecordsOf(db, uid);
  }

  lemma ActivateKeepsOwn(db: Db, uid: Id, v: Id, now: Time)
    requires uid in db.users && v in db.verifications && db.verifications[v].userId != uid
    ensures SameOwn(db, Activate(db, v, now).db, uid)
  {
    ChangedRowKeepsOwn(db, uid, v, db.verifications[v].(verifiedAt := Some(now)));
    assert RecordsOf(Activate(db, v, now).db, uid) == RecordsOf(db, uid);
  }

  lemma VerifyOtpKeepsOwn(db: Db, uid: Id, address: string, hash: string, now: Time)
    requires uid in db.users && address != db.users[uid].email
    ensures SameOwn(db, VerifyEmailOtp(db, address, hash, now).db, uid)
  {
    match NewestOtp(db, address)
    case None => assert VerifyEmailOtp(db, address, hash, now).db == db;
    case Some(v) =>
      ActivateKeepsOwn(db, uid, v, now);
      ChangedRowKeepsOwn(db, uid, v, db.verifications[v].(attempts := db.verifications[v].attempts + 1));
  }

  lemma VerifyMagicKeepsOwn(db: Db, uid: Id, email: string, links: set<string>, hash: string, now: Time)
    requires Waiting(db, uid, email, links) && hash !in links
    ensures SameOwn(db, VerifyMagicLink(db, hash, now).db, uid)
  {
    forall v | IsOpenMagicLink(db.verifications, hash, v) ensures SameOwn(db, Activate(db, v, now).db, uid) {
      ActivateKeepsOwn(db, uid, v, now);
    }
  }

  lemma ErasingKeepsOwn(db: Db, uid: Id, other: Id)
    requires uid in db.users && other != uid
    ensures SameOwn(db, Erase(db, other), uid)
  {
    assert RecordsOf(Erase(db, other), uid) == RecordsOf(db, uid);
  }

  lemma SessionEventKeepsOwn(db: Db, now: Time, e: Event, uid: Id)
    requires e.LogIn? || e.Rotate? || e.Logout? || e.LogoutAll?
    requires uid in db.users
    ensures SameOwn(db, Apply(db, now, e).db, uid)
  {
    assert RecordsOf(Apply(db, now, e).db, uid) == RecordsOf(db, uid);
  }

  lemma BootstrapKeepsOwn(db: Db, uid: Id, address: string, passwordOk: bool, tenantTaken: bool, other: Id)
    requires uid in db.users && address != db.users[uid].email && other != uid
    ensures SameOwn(db, Bootstrap(db, address, passwordOk, tenantTaken, other).db, uid)
  {
    assert RecordsOf(Bootstrap(db, address, passwordOk, tenantTaken, other).db, uid) == RecordsOf(db, uid);
  }

  /** A transaction about somebody else changes nothing that belongs to the user. */
  lemma TransactionKeepsOwn(s: State, t: Timed, uid: Id, email: string, links: set<string>)
    requires Inv(s) && Admissible(s, t) && Waiting(s.db, uid, email, links)
    requires Elsewhere(t.event, uid, email, links)
    ensures SameOwn(s.db, Apply(s.db, t.now, t.event).db, uid)
  {
    var db, now := s.db, t.now;
    DrawnIdsAreNew(s, t);
    match t.event
    case Register(address, other, tokens, ids) => RegisterKeepsOwn(db, uid, address, other, tokens, now, ids);
    case Create(other, tokens, ids) => CreateKeepsOwn(db, uid, other, tokens, now, ids);
    case Resend(address, tokens, ids) => ResendKeepsOwn(db, uid, address, tokens, now, ids);
    case Rollback(ticket) => RollbackKeepsOwn(db, uid, ticket, now);
    case VerifyOtp(address, hash) => VerifyOtpKeepsOwn(db, uid, address, hash, now);
    case VerifyMagic(hash) => VerifyMagicKeepsOwn(db, uid, email, links, hash, now);
    case Cleanup(other) =>
      CleanupIsErasure(db, other);
      ErasingKeepsOwn(db, uid, other);
    case BootstrapOwner(address, ok, taken, other) => BootstrapKeepsOwn(db, uid, address, ok, taken, other);
    case _ => SessionEventKeepsOwn(db, now, t.event, uid);
  }

  lemma OwnKeepsWaiting(db: Db, db': Db, uid: Id, email: string, links: set<string>)
    requires Waiting(db, uid, email, links) && SameOwn(db, db', uid)
    ensures Waiting(db', uid, email, links)
  {
  }

  // ----- over runs -----

  ghost predicate AllElsewhere(run: seq<Timed>, uid: Id, email: string, links: set<string>) {
    forall i | 0 <= i < |run| :: Elsewhere(run[i].event, uid, email, links)
  }

  /** The same state had the user never registered. */
  ghost function Erased(s: State, uid: Id): State {
    s.(db := Erase(s.db, uid))
  }

  /** The same run is possible without the user and ends in the same tables but for the user. */
  lemma {:induction false} RunElsewhere(s: State, run: seq<Timed>, uid: Id, email: string, links: set<string>)
    requires Inv(s) && IsRun(s, run) && Waiting(s.db, uid, email, links)
    requires AllElsewhere(run, uid, email, links)
    ensures IsRun(Erased(s, uid), run) && Final(Erased(s, uid), run) == Erased(Final(s, run), uid)
    ensures Inv(Final(s, run)) && Waiting(Final(s, run).db, uid, email, links)
    ensures SameOwn(s.db, Final(s, run).db, uid)
    decreases |run|
  {
    if run != [] {
      var t := run[0];
      assert Elsewhere(t.event, uid, email, links);
      StepKeepsInv(s, t);
      TransactionElsewhere(s, t, uid, email, links);
      TransactionKeepsOwn(s, t, uid, email, links);
      OwnKeepsWaiting(s.db, Step(s, t).db, uid, email, links);
      assert Step(Erased(s, uid), t) == Erased(Step(s, t), uid);
      RunElsewhere(Step(s, t), run[1..], uid, email, links);
      SameOwnTwice(s.db, Step(s, t).db, Final(s, run).db, uid);
    }
  }

  /**
   The saga of Register: commit, anything done by others, a failed enqueue, clean-up. The clean-up succeeds and the
   tables are exactly those that the others alone would have produced.
   */
  lemma FailedRegistrationLeavesNoTrace(s: State, t: Timed, run: seq<Timed>)
    requires Inv(s) && Admissible(s, t) && t.event.Register? && Apply(s.db, t.now, t.event).result.Ok?
    requires IsRun(Step(s, t), run) && AllElsewhere(run, t.event.uid, t.event.email, {t.event.tokens.magicHash})
    ensures var never := Step(s, t).(db := s.db);
      && IsRun(never, run)
      && CleanupPendingRegistration(Final(Step(s, t), run).db, t.event.uid) == Outcome(Final(never, run).db, Ok(Done))
  {
    var e := t.event;
    DrawnIdsAreNew(s, t);
    RegisterThenErase(s.db, e.email, e.uid, e.tokens, t.now, e.ids);
    StepKeepsInv(s, t);
    RunElsewhere(Step(s, t), run, e.uid, e.email, {e.tokens.magicHash});
    CleanupIsErasure(Final(Step(s, t), run).db, e.uid);
  }
}
