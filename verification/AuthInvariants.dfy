/** What every transaction of the auth store keeps. */
module AuthInvariants {
  import opened Base
  import opened Tables
  import opened Transactions
  import opened AuthRuns

  /** The users that own at least one verified row. */
  ghost function VerifiedOwners(rows: map<Id, Verification>): set<Id> {
    set v | v in rows && rows[v].verifiedAt.Some? :: rows[v].userId
  }

  /** Status, verification time and verified rows tell the same story about each user. */
  ghost predicate Agrees(user: User, ownsVerifiedRow: bool) {
    && (user.status == 0 || user.status == 1)
    && (user.status == 1 <==> user.emailVerifiedAt.Some?)
    && (user.emailVerifiedAt.Some? <==> ownsVerifiedRow)
  }

  ghost predicate UsersAgree(users: map<Id, User>, owners: set<Id>) {
    forall u | u in users :: Agrees(users[u], u in owners)
  }

  /** Only users with a verified address have sessions. */
  ghost predicate SessionsVerified(sessions: map<Id, Session>, users: map<Id, User>) {
    forall x | x in sessions :: sessions[x].userId in users && users[sessions[x].userId].emailVerifiedAt.Some?
  }

  ghost predicate AttemptsInRange(row: Verification) {
    && 0 <= row.attempts <= MAX_OTP_ATTEMPTS + 1
    && (row.verifiedAt.Some? ==> row.attempts <= MAX_OTP_ATTEMPTS)
    && (row.tokenType == MagicLink ==> row.attempts == 0)
  }

  ghost predicate AttemptsBounded(rows: map<Id, Verification>) {
    forall v | v in rows :: AttemptsInRange(rows[v])
  }

  ghost predicate Consistent(db: Db) {
    && ForeignKeys(db)
    && UsersAgree(db.users, VerifiedOwners(db.verifications))
    && SessionsVerified(db.sessions, db.users)
    && AttemptsBounded(db.verifications)
  }

  ghost predicate Inv(s: State) {
    Consistent(s.db) && UniqueIndexes(s.db) && OnlyDrawnIds(s)
  }

  // ----- the set of verified owners -----

  /** Steps that touch only unverified rows keep the set of verified owners. */
  lemma SameVerifiedOwners(rows: map<Id, Verification>, rows': map<Id, Verification>)
    requires forall v | v in rows' && rows'[v].verifiedAt.Some? :: v in rows && rows[v] == rows'[v]
    requires forall v | v in rows && rows[v].verifiedAt.Some? :: v in rows' && rows[v] == rows'[v]
    ensures VerifiedOwners(rows) == VerifiedOwners(rows')
  {
    forall u | u in VerifiedOwners(rows) ensures u in VerifiedOwners(rows') {
      var v :| v in rows && rows[v].verifiedAt.Some? && rows[v].userId == u;
      assert v in rows' && rows'[v].verifiedAt.Some? && rows'[v].userId == u;
    }
    forall u | u in VerifiedOwners(rows') ensures u in VerifiedOwners(rows) {
      var v :| v in rows' && rows'[v].verifiedAt.Some? && rows'[v].userId == u;
      assert v in rows && rows[v].verifiedAt.Some? && rows[v].userId == u;
    }
  }

  /** Verifying a row adds exactly its owner. */
  lemma OwnersAfterVerifying(rows: map<Id, Verification>, v: Id, now: Time)
    requires v in rows && rows[v].verifiedAt.None?
    ensures VerifiedOwners(rows[v := rows[v].(verifiedAt := Some(now))]) == VerifiedOwners(rows) + {rows[v].userId}
  {
    var rows' := rows[v := rows[v].(verifiedAt := Some(now))];
    forall u | u in VerifiedOwners(rows) ensures u in VerifiedOwners(rows') {
      var w :| w in rows && rows[w].verifiedAt.Some? && rows[w].userId == u;
      assert rows'[w].verifiedAt.Some? && rows'[w].userId == u;
    }
    assert rows'[v].verifiedAt.Some? && rows'[v].userId == rows[v].userId;
  }

  lemma OwnersAreUsers(rows: map<Id, Verification>, users: map<Id, User>)
    requires RowsHaveUsers(rows, users)
    ensures VerifiedOwners(rows) <= users.Keys
  {
  }

  // ----- consistency, transaction by transaction -----

  lemma CreateKeepsConsistent(db: Db, uid: Id, tokens: Tokens, now: Time, ids: NewRows)
    requires Consistent(db)
    requires ids.otpId !in db.verifications && ids.magicId !in db.verifications && ids.otpId != ids.magicId
    ensures Consistent(CreateVerification(db, uid, tokens, now, ids).db)
  {
    SameVerifiedOwners(db.verifications, WithVerification(db.verifications, uid, tokens, now, ids));
  }

  lemma NewUserKeepsConsistent(db: Db, email: string, uid: Id)
    requires Consistent(db) && uid !in db.users
    ensures Consistent(db.(users := db.users[uid := User(email, 0, None)]))
  {
    OwnersAreUsers(db.verifications, db.users);
  }

  lemma RevokeKeepsConsistent(db: Db, uid: Id, now: Time)
    requires Consistent(db)
    ensures Consistent(db.(verifications := Revoke(db.verifications, uid, now)))
  {
    SameVerifiedOwners(db.verifications, Revoke(db.verifications, uid, now));
  }

  lemma RollbackKeepsConsistent(db: Db, ticket: Ticket, now: Time)
    requires Consistent(db)
    ensures Consistent(RollbackResend(db, ticket, now))
  {
    SameVerifiedOwners(db.verifications, RollbackResend(db, ticket, now).verifications);
  }

  lemma ActivateKeepsConsistent(db: Db, v: Id, now: Time)
    requires Consistent(db) && v in db.verifications
    requires db.verifications[v].verifiedAt.None? && db.verifications[v].attempts <= MAX_OTP_ATTEMPTS
    ensures Consistent(Activate(db, v, now).db)
  {
    OwnersAfterVerifying(db.verifications, v, now);
  }

  lemma WrongGuessKeepsConsistent(db: Db, v: Id)
    requires Consistent(db) && v in db.verifications && db.verifications[v].tokenType == Otp
    requires db.verifications[v].verifiedAt.None? && db.verifications[v].attempts <= MAX_OTP_ATTEMPTS
    ensures Consistent(db.(verifications :=
      db.verifications[v := db.verifications[v].(attempts := db.verifications[v].attempts + 1)]))
  {
    SameVerifiedOwners(db.verifications,
      db.verifications[v := db.verifications[v].(attempts := db.verifications[v].attempts + 1)]);
  }

  /** A pending registration has no sessions, so removing it cascades into none. */
  lemma CleanupKeepsConsistent(db: Db, uid: Id)
    requires Consistent(db)
    ensures Consistent(CleanupPendingRegistration(db, uid).db)
    ensures CleanupPendingRegistration(db, uid).db.sessions == db.sessions
  {
    var db' := CleanupPendingRegistration(db, uid).db;
    if CleanupPendingRegistration(db, uid).result.Ok? {
      assert db'.sessions == db.sessions;
      assert Agrees(db.users[uid], uid in VerifiedOwners(db.verifications));
      SameVerifiedOwners(db.verifications, db'.verifications);
    }
  }

  lemma LoginKeepsConsistent(db: Db, email: string, passwordOk: bool, hash: string, expiresAt: Time, x: Id)
    requires Consistent(db) && x !in db.sessions
    ensures Consistent(Login(db, email, passwordOk, hash, expiresAt, x).db)
  {
  }

  lemma RotateKeepsConsistent(db: Db, oldHash: string, newHash: string, expiresAt: Time, now: Time, x: Id)
    requires Consistent(db) && x !in db.sessions
    ensures Consistent(RotateRefreshToken(db, oldHash, newHash, expiresAt, now, x).db)
  {
  }

  // ----- unique indexes -----

  lemma SubTableKeepsMagicHashes(rows: map<Id, Verification>, rows': map<Id, Verification>)
    requires UniqueMagicHashes(rows)
    requires forall v | v in rows' ::
      v in rows && rows'[v].tokenType == rows[v].tokenType && rows'[v].tokenHash == rows[v].tokenHash
    ensures UniqueMagicHashes(rows')
  {
  }

  lemma NewRowsKeepMagicHashes(rows: map<Id, Verification>, uid: Id, tokens: Tokens, now: Time, ids: NewRows)
    requires UniqueMagicHashes(rows) && !MagicHashTaken(rows, tokens.magicHash)
    requires ids.otpId !in rows && ids.magicId !in rows && ids.otpId != ids.magicId
    ensures UniqueMagicHashes(WithVerification(rows, uid, tokens, now, ids))
  {
  }

  lemma NewUserKeepsEmails(users: map<Id, User>, email: string, uid: Id)
    requires UniqueEmails(users) && UserByEmail(users, email).None?
    ensures UniqueEmails(users[uid := User(email, 0, None)])
  {
  }

  lemma SubTableKeepsEmails(users: map<Id, User>, users': map<Id, User>)
    requires UniqueEmails(users)
    requires forall u | u in users' :: u in users && users'[u].email == users[u].email
    ensures UniqueEmails(users')
  {
  }

  lemma SubTableKeepsSessionHashes(sessions: map<Id, Session>, sessions': map<Id, Session>)
    requires UniqueSessionHashes(sessions)
    requires forall x | x in sessions' :: x in sessions && sessions'[x].tokenHash == sessions[x].tokenHash
    ensures UniqueSessionHashes(sessions')
  {
  }

  lemma NewSessionKeepsHashes(sessions: map<Id, Session>, x: Id, session: Session)
    requires UniqueSessionHashes(sessions) && x !in sessions
    requires SessionByHash(sessions, session.tokenHash).None?
    ensures UniqueSessionHashes(sessions[x := session])
  {
  }

  lemma CreateKeepsUnique(db: Db, uid: Id, tokens: Tokens, now: Time, ids: NewRows)
    requires UniqueIndexes(db)
    requires ids.otpId !in db.verifications && ids.magicId !in db.verifications && ids.otpId != ids.magicId
    ensures UniqueIndexes(CreateVerification(db, uid, tokens, now, ids).db)
  {
    if !MagicHashTaken(db.verifications, tokens.magicHash) {
      NewRowsKeepMagicHashes(db.verifications, uid, tokens, now, ids);
    }
  }

  lemma SessionStepKeepsUnique(db: Db, now: Time, e: Event)
    requires UniqueIndexes(db) && (e.LogIn? || e.Rotate? || e.Logout? || e.LogoutAll?)
    requires e.LogIn? || e.Rotate? ==> e.sessionId !in db.sessions
    ensures UniqueIndexes(Apply(db, now, e).db)
  {
    var db' := Apply(db, now, e).db;
    match e
    case LogIn(_, _, hash, expiresAt, x) =>
      var u := UserByEmail(db.users, e.email);
      if db' != db {
        NewSessionKeepsHashes(db.sessions, x, Session(u.value, hash, expiresAt, None, None));
      }
    case Rotate(oldHash, newHash, expiresAt, x) =>
      if db' != db {
        var o := SessionByHash(db.sessions, oldHash).value;
        var added := db.sessions[x := Session(db.sessions[o].userId, newHash, expiresAt, None, None)];
        NewSessionKeepsHashes(db.sessions, x, added[x]);
        SubTableKeepsSessionHashes(added, db'.sessions);
      }
    case Logout(_) => SubTableKeepsSessionHashes(db.sessions, db'.sessions);
    case LogoutAll(_) => SubTableKeepsSessionHashes(db.sessions, db'.sessions);
  }

  // ----- every step -----

  /** The ids an event draws are none of those in the tables. */
  lemma DrawnIdsAreNew(s: State, t: Timed)
    requires OnlyDrawnIds(s) && Admissible(s, t)
    ensures forall i | 0 <= i < |DrawnIds(t.event)| ::
      var d := DrawnIds(t.event)[i];
      d !in s.db.users && d !in s.db.verifications && d !in s.db.records && d !in s.db.sessions
    ensures t.event.Register? || t.event.Create? || t.event.Resend? ==>
      var ids := t.event.ids;
      && ids.otpId !in s.used && ids.magicId !in s.used && ids.recordId !in s.used
      && ids.otpId != ids.magicId && ids.otpId != ids.recordId && ids.magicId != ids.recordId
    ensures t.event.Register? || t.event.BootstrapOwner? ==> t.event.uid !in s.used
    ensures t.event.LogIn? || t.event.Rotate? ==> t.event.sessionId !in s.used
  {
    var drawn := DrawnIds(t.event);
    if t.event.Register? {
      assert drawn[0] == t.event.uid && drawn[1] == t.event.ids.otpId;
      assert drawn[2] == t.event.ids.magicId && drawn[3] == t.event.ids.recordId;
    } else if t.event.Create? || t.event.Resend? {
      assert drawn[0] == t.event.ids.otpId && drawn[1] == t.event.ids.magicId && drawn[2] == t.event.ids.recordId;
    } else if t.event.BootstrapOwner? {
      assert drawn[0] == t.event.uid;
    } else if t.event.LogIn? || t.event.Rotate? {
      assert drawn[0] == t.event.sessionId;
    }
  }

  lemma RegisterKeepsConsistent(db: Db, email: string, uid: Id, tokens: Tokens, now: Time, ids: NewRows)
    requires Consistent(db) && uid !in db.users
    requires ids.otpId !in db.verifications && ids.magicId !in db.verifications && ids.otpId != ids.magicId
    ensures Consistent(RegisterWithVerification(db, email, uid, tokens, now, ids).db)
  {
    NewUserKeepsConsistent(db, email, uid);
    CreateKeepsConsistent(db.(users := db.users[uid := User(email, 0, None)]), uid, tokens, now, ids);
  }

  lemma ResendKeepsConsistent(db: Db, email: string, tokens: Tokens, now: Time, ids: NewRows)
    requires Consistent(db)
    requires ids.otpId !in db.verifications && ids.magicId !in db.verifications && ids.otpId != ids.magicId
    ensures Consistent(ResendVerification(db, email, tokens, now, ids).db)
  {
    var u := UserByEmail(db.users, email);
    if u.Some? {
      RevokeKeepsConsistent(db, u.value, now);
      CreateKeepsConsistent(db.(verifications := Revoke(db.verifications, u.value, now)), u.value, tokens, now, ids);
    }
  }

  lemma VerifyOtpKeepsConsistent(db: Db, email: string, hash: string, now: Time)
    requires Consistent(db)
    ensures Consistent(VerifyEmailOtp(db, email, hash, now).db)
  {
    var compared := ComparedOtp(db, email, now);
    if compared.Some? {
      ActivateKeepsConsistent(db, compared.value, now);
      WrongGuessKeepsConsistent(db, compared.value);
    }
  }

  lemma VerifyMagicKeepsConsistent(db: Db, hash: string, now: Time)
    requires Consistent(db)
    ensures Consistent(VerifyMagicLink(db, hash, now).db)
  {
    forall v | IsOpenMagicLink(db.verifications, hash, v) ensures Consistent(Activate(db, v, now).db) {
      ActivateKeepsConsistent(db, v, now);
    }
  }

  lemma BootstrapKeepsConsistent(db: Db, email: string, passwordOk: bool, tenantTaken: bool, uid: Id)
    requires Consistent(db) && uid !in db.users
    ensures Consistent(Bootstrap(db, email, passwordOk, tenantTaken, uid).db)
  {
    NewUserKeepsConsistent(db, email, uid);
  }

  lemma RevokingKeepsConsistent(db: Db, sessions: map<Id, Session>)
    requires Consistent(db) && sessions.Keys == db.sessions.Keys
    requires forall x | x in sessions ::
      sessions[x].userId == db.sessions[x].userId && sessions[x].replacedBy == db.sessions[x].replacedBy
    ensures Consistent(db.(sessions := sessions))
  {
  }

  lemma StepKeepsConsistent(s: State, t: Timed)
    requires Consistent(s.db) && OnlyDrawnIds(s) && Admissible(s, t)
    ensures Consistent(Step(s, t).db)
  {
    DrawnIdsAreNew(s, t);
    match t.event
    case Register(email, uid, tokens, ids) => RegisterKeepsConsistent(s.db, email, uid, tokens, t.now, ids);
    case Create(uid, tokens, ids) => CreateKeepsConsistent(s.db, uid, tokens, t.now, ids);
    case Resend(email, tokens, ids) => ResendKeepsConsistent(s.db, email, tokens, t.now, ids);
    case Rollback(ticket) => RollbackKeepsConsistent(s.db, ticket, t.now);
    case VerifyOtp(email, hash) => VerifyOtpKeepsConsistent(s.db, email, hash, t.now);
    case VerifyMagic(hash) => VerifyMagicKeepsConsistent(s.db, hash, t.now);
    case Cleanup(uid) => CleanupKeepsConsistent(s.db, uid);
    case BootstrapOwner(email, ok, taken, uid) => BootstrapKeepsConsistent(s.db, email, ok, taken, uid);
    case LogIn(email, ok, hash, expiresAt, x) => LoginKeepsConsistent(s.db, email, ok, hash, expiresAt, x);
    case Rotate(oldHash, newHash, expiresAt, x) => RotateKeepsConsistent(s.db, oldHash, newHash, expiresAt, t.now, x);
    case Logout(hash) => RevokingKeepsConsistent(s.db, RevokeToken(s.db.sessions, hash, t.now));
    case LogoutAll(uid) => RevokingKeepsConsistent(s.db, RevokeUser(s.db.sessions, uid, t.now));
  }

  lemma RegisterKeepsUnique(db: Db, email: string, uid: Id, tokens: Tokens, now: Time, ids: NewRows)
    requires UniqueIndexes(db)
    requires ids.otpId !in db.verifications && ids.magicId !in db.verifications && ids.otpId != ids.magicId
    ensures UniqueIndexes(RegisterWithVerification(db, email, uid, tokens, now, ids).db)
  {
    if UserByEmail(db.users, email).None? {
      NewUserKeepsEmails(db.users, email, uid);
      CreateKeepsUnique(db.(users := db.users[uid := User(email, 0, None)]), uid, tokens, now, ids);
    }
  }

  lemma ResendKeepsUnique(db: Db, email: string, tokens: Tokens, now: Time, ids: NewRows)
    requires UniqueIndexes(db)
    requires ids.otpId !in db.verifications && ids.magicId !in db.verifications && ids.otpId != ids.magicId
    ensures UniqueIndexes(ResendVerification(db, email, tokens, now, ids).db)
  {
    var u := UserByEmail(db.users, email);
    if u.Some? {
      SubTableKeepsMagicHashes(db.verifications, Revoke(db.verifications, u.value, now));
      CreateKeepsUnique(db.(verifications := Revoke(db.verifications, u.value, now)), u.value, tokens, now, ids);
    }
  }

  /** No row is added and no indexed column changes. */
  ghost predicate IndexedColumnsKept(db: Db, db': Db) {
    && (forall u | u in db'.users :: u in db.users && db'.users[u].email == db.users[u].email)
    && (forall v | v in db'.verifications ::
          && v in db.verifications
          && db'.verifications[v].tokenType == db.verifications[v].tokenType
          && db'.verifications[v].tokenHash == db.verifications[v].tokenHash)
    && (forall x | x in db'.sessions :: x in db.sessions && db'.sessions[x].tokenHash == db.sessions[x].tokenHash)
  }

  lemma IndexedColumnsKeepUnique(db: Db, db': Db)
    requires UniqueIndexes(db) && IndexedColumnsKept(db, db')
    ensures UniqueIndexes(db')
  {
    SubTableKeepsEmails(db.users, db'.users);
    SubTableKeepsMagicHashes(db.verifications, db'.verifications);
    SubTableKeepsSessionHashes(db.sessions, db'.sessions);
  }

  lemma RollbackKeepsIndexedColumns(db: Db, ticket: Ticket, now: Time)
    ensures IndexedColumnsKept(db, RollbackResend(db, ticket, now))
  {
  }

  lemma ActivateKeepsIndexedColumns(db: Db, v: Id, now: Time)
    requires v in db.verifications
    ensures IndexedColumnsKept(db, Activate(db, v, now).db)
  {
  }

  lemma WrongGuessKeepsIndexedColumns(db: Db, v: Id, attempts: int)
    requires v in db.verifications
    ensures IndexedColumnsKept(db, db.(verifications := db.verifications[v := db.verifications[v].(attempts := attempts)]))
  {
  }

  lemma VerifyOtpKeepsIndexedColumns(db: Db, email: string, hash: string, now: Time)
    ensures IndexedColumnsKept(db, VerifyEmailOtp(db, email, hash, now).db)
  {
    match NewestOtp(db, email)
    case None => assert VerifyEmailOtp(db, email, hash, now).db == db;
    case Some(v) =>
      ActivateKeepsIndexedColumns(db, v, now);
      WrongGuessKeepsIndexedColumns(db, v, db.verifications[v].attempts + 1);
  }

  lemma VerifyMagicKeepsIndexedColumns(db: Db, hash: string, now: Time)
    ensures IndexedColumnsKept(db, VerifyMagicLink(db, hash, now).db)
  {
    forall v | IsOpenMagicLink(db.verifications, hash, v) ensures IndexedColumnsKept(db, Activate(db, v, now).db) {
      ActivateKeepsIndexedColumns(db, v, now);
    }
  }

  lemma CleanupKeepsIndexedColumns(db: Db, uid: Id)
    ensures IndexedColumnsKept(db, CleanupPendingRegistration(db, uid).db)
  {
  }

  lemma OtherStepKeepsUnique(db: Db, now: Time, e: Event)
    requires UniqueIndexes(db) && (e.Rollback? || e.VerifyOtp? || e.VerifyMagic? || e.Cleanup?)
    ensures UniqueIndexes(Apply(db, now, e).db)
  {
    match e {
      case Rollback(ticket) => RollbackKeepsIndexedColumns(db, ticket, now);
      case VerifyOtp(email, hash) => VerifyOtpKeepsIndexedColumns(db, email, hash, now);
      case VerifyMagic(hash) => VerifyMagicKeepsIndexedColumns(db, hash, now);
      case Cleanup(uid) => CleanupKeepsIndexedColumns(db, uid);
    }
    IndexedColumnsKeepUnique(db, Apply(db, now, e).db);
  }

  lemma BootstrapKeepsUnique(db: Db, email: string, passwordOk: bool, tenantTaken: bool, uid: Id)
    requires UniqueIndexes(db)
    ensures UniqueIndexes(Bootstrap(db, email, passwordOk, tenantTaken, uid).db)
  {
    if UserByEmail(db.users, email).None? {
      NewUserKeepsEmails(db.users, email, uid);
    } else {
      SubTableKeepsEmails(db.users, Bootstrap(db, email, passwordOk, tenantTaken, uid).db.users);
    }
  }

  lemma StepKeepsUnique(s: State, t: Timed)
    requires UniqueIndexes(s.db) && OnlyDrawnIds(s) && Admissible(s, t)
    ensures UniqueIndexes(Step(s, t).db)
  {
    DrawnIdsAreNew(s, t);
    match t.event
    case Register(email, uid, tokens, ids) => RegisterKeepsUnique(s.db, email, uid, tokens, t.now, ids);
    case Create(uid, tokens, ids) => CreateKeepsUnique(s.db, uid, tokens, t.now, ids);
    case Resend(email, tokens, ids) => ResendKeepsUnique(s.db, email, tokens, t.now, ids);
    case BootstrapOwner(email, ok, taken, uid) => BootstrapKeepsUnique(s.db, email, ok, taken, uid);
    case _ =>
      if t.event.LogIn? || t.event.Rotate? || t.event.Logout? || t.event.LogoutAll? {
        SessionStepKeepsUnique(s.db, t.now, t.event);
      } else {
        OtherStepKeepsUnique(s.db, t.now, t.event);
      }
  }

  /** No table holds an id that was neither there before nor drawn. */
  ghost predicate GrowsBy(db: Db, db': Db, drawn: seq<Id>) {
    && (forall u | u in db'.users :: u in db.users || u in drawn)
    && (forall v | v in db'.verifications :: v in db.verifications || v in drawn)
    && (forall r | r in db'.records :: r in db.records || r in drawn)
    && (forall x | x in db'.sessions :: x in db.sessions || x in drawn)
  }

  lemma VerifyingAddsNoRows(db: Db, now: Time, e: Event)
    requires e.VerifyOtp? || e.VerifyMagic?
    ensures GrowsBy(db, Apply(db, now, e).db, [])
  {
    if e.VerifyOtp? {
      VerifyOtpKeepsIndexedColumns(db, e.email, e.hash, now);
      OtherTablesOfOtp(db, e.email, e.hash, now);
    } else {
      VerifyMagicKeepsIndexedColumns(db, e.hash, now);
    }
  }

  lemma OtherTablesOfOtp(db: Db, email: string, hash: string, now: Time)
    ensures VerifyEmailOtp(db, email, hash, now).db.records == db.records
  {
  }

  lemma CreateGrowsByItsRows(db: Db, uid: Id, tokens: Tokens, now: Time, ids: NewRows)
    ensures GrowsBy(db, CreateVerification(db, uid, tokens, now, ids).db, RowIds(ids))
  {
  }

  lemma RegisterGrowsByItsRows(db: Db, email: string, uid: Id, tokens: Tokens, now: Time, ids: NewRows)
    ensures GrowsBy(db, RegisterWithVerification(db, email, uid, tokens, now, ids).db, [uid] + RowIds(ids))
  {
    CreateGrowsByItsRows(db.(users := db.users[uid := User(email, 0, None)]), uid, tokens, now, ids);
  }

  lemma ResendGrowsByItsRows(db: Db, email: string, tokens: Tokens, now: Time, ids: NewRows)
    ensures GrowsBy(db, ResendVerification(db, email, tokens, now, ids).db, RowIds(ids))
  {
    var u := UserByEmail(db.users, email);
    if u.Some? {
      CreateGrowsByItsRows(db.(verifications := Revoke(db.verifications, u.value, now)), u.value, tokens, now, ids);
    }
  }

  lemma RollbackAddsNoRows(db: Db, ticket: Ticket, now: Time)
    ensures GrowsBy(db, RollbackResend(db, ticket, now), [])
  {
  }

  /** A step adds no ids to the tables beyond those it draws. */
  lemma TablesGrowByDrawnIds(db: Db, now: Time, e: Event)
    ensures GrowsBy(db, Apply(db, now, e).db, DrawnIds(e))
  {
    match e
    case Register(email, uid, tokens, ids) => RegisterGrowsByItsRows(db, email, uid, tokens, now, ids);
    case Create(uid, tokens, ids) => CreateGrowsByItsRows(db, uid, tokens, now, ids);
    case Resend(email, tokens, ids) => ResendGrowsByItsRows(db, email, tokens, now, ids);
    case Rollback(ticket) => RollbackAddsNoRows(db, ticket, now);
    case VerifyOtp(_, _) => VerifyingAddsNoRows(db, now, e);
    case VerifyMagic(_) => VerifyingAddsNoRows(db, now, e);
    case Cleanup(_) =>
    case _ => SessionEventsGrow(db, now, e);
  }

  lemma SessionEventsGrow(db: Db, now: Time, e: Event)
    requires e.BootstrapOwner? || e.LogIn? || e.Rotate? || e.Logout? || e.LogoutAll?
    ensures GrowsBy(db, Apply(db, now, e).db, DrawnIds(e))
  {
  }

  lemma StepKeepsDrawnIds(s: State, t: Timed)
    requires OnlyDrawnIds(s) && Admissible(s, t)
    ensures OnlyDrawnIds(Step(s, t))
  {
    var s', drawn := Step(s, t), DrawnIds(t.event);
    assert forall i | 0 <= i < |drawn| :: drawn[i] in s'.used;
    TablesGrowByDrawnIds(s.db, t.now, t.event);
    if t.event.Resend? {
      assert drawn[0] in s'.used && drawn[1] in s'.used && drawn[2] in s'.used;
      NewTicketsHoldRows(s.db, t.event.email, t.event.tokens, t.now, t.event.ids);
    }
  }

  lemma NewTicketsHoldRows(db: Db, email: string, tokens: Tokens, now: Time, ids: NewRows)
    ensures var result := ResendVerification(db, email, tokens, now, ids).result;
      result.Ok? && result.value.Resent? ==>
        result.value.ticket.rows == ids && result.value.ticket.revoked.Keys <= db.verifications.Keys
  {
  }

  /** Every transaction keeps the invariant. */
  lemma StepKeepsInv(s: State, t: Timed)
    requires Inv(s) && Admissible(s, t)
    ensures Inv(Step(s, t))
  {
    StepKeepsConsistent(s, t);
    StepKeepsUnique(s, t);
    StepKeepsDrawnIds(s, t);
  }

  /** So every state of every run has it. */
  lemma {:induction false} RunKeepsInv(s: State, run: seq<Timed>)
    requires Inv(s) && IsRun(s, run)
    ensures Inv(Final(s, run))
    decreases |run|
  {
    if run != [] {
      StepKeepsInv(s, run[0]);
      RunKeepsInv(Step(s, run[0]), run[1..]);
    }
  }
}
