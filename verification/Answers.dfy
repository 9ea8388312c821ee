/**
 When each transaction of the auth store succeeds, and with which error it is refused otherwise, in terms of the rows
 that are there. A refused transaction leaves the tables alone, except for the attempt counter of a wrong OTP.
 */
module Answers {
  import opened Base
  import opened Addresses
  import opened Tables
  import opened Transactions
  import opened AuthRuns
  import opened AuthInvariants
  import opened FailedRegistration
  import opened TokenRoundTrips

  // ----- who is there -----

  ghost predicate HasUser(db: Db, email: string) {
    exists u :: u in db.users && db.users[u].email == email
  }

  /** The user with this address. */
  ghost predicate IsUser(db: Db, email: string, u: Id) {
    u in db.users && db.users[u].email == email
  }

  lemma FoundUser(db: Db, email: string, u: Id)
    requires UniqueEmails(db.users) && IsUser(db, email, u)
    ensures UserByEmail(db.users, email) == Some(u)
  {
  }

  lemma NoUserFound(db: Db, email: string)
    ensures UserByEmail(db.users, email).None? <==> !HasUser(db, email)
  {
  }

  ghost predicate Unverified(db: Db, u: Id) {
    u in db.users && db.users[u].emailVerifiedAt.None?
  }

  // ----- an OTP -----

  /** An unverified OTP row of the user with this address. */
  ghost predicate OpenOtp(db: Db, email: string, v: Id) {
    && v in db.verifications && db.verifications[v].tokenType == Otp && db.verifications[v].verifiedAt.None?
    && IsUser(db, email, db.verifications[v].userId)
  }

  /** The row that an OTP request looks at, if any: the newest unverified one of the address. */
  ghost predicate AsksFor(db: Db, email: string, v: Id) {
    && OpenOtp(db, email, v)
    && forall w: Id | OpenOtp(db, email, w) ::
         || db.verifications[w].createdAt < db.verifications[v].createdAt
         || (db.verifications[w].createdAt == db.verifications[v].createdAt && w <= v)
  }

  lemma AskedForIsNewest(db: Db, email: string, v: Id)
    ensures AsksFor(db, email, v) <==> IsNewestOtp(db, email, v)
  {
    assert forall w: Id :: OpenOtp(db, email, w) <==> OtpCandidate(db, email, w);
  }

  /** Whenever there is an unverified OTP row of the address, one is asked for. */
  lemma SomeRowIsAskedFor(db: Db, email: string)
    ensures (exists v :: AsksFor(db, email, v)) <==> (exists w :: OpenOtp(db, email, w))
  {
    var rows := db.verifications;
    var candidates: set<Id> := set w | w in rows && OtpCandidate(db, email, w);
    assert forall w: Id :: OpenOtp(db, email, w) <==> OtpCandidate(db, email, w);
    if w :| OpenOtp(db, email, w) {
      assert w in candidates;
      var v := LastOfSome(candidates, (a: Id, b: Id) => a in rows && b in rows && AtMostAsNew(rows, a, b));
      assert forall x | OpenOtp(db, email, x) :: x in candidates;
      assert AsksFor(db, email, v);
    }
  }

  /**
   The row that is asked for decides: closed after six wrong guesses, expired from its expiry on, right or wrong by its
   digest. The sixth wrong guess is answered as one too many.
   */
  lemma OtpAnswerByRow(db: Db, email: string, hash: string, now: Time, v: Id)
    requires AsksFor(db, email, v)
    ensures var row, out := db.verifications[v], VerifyEmailOtp(db, email, hash, now);
      && (row.attempts >= 6 ==> out == Outcome(db, Err(TooManyAttempts)))
      && (row.attempts <= 5 && now >= row.expiresAt ==> out == Outcome(db, Err(VerificationExpired)))
      && (row.attempts <= 5 && now < row.expiresAt && hash != row.tokenHash ==>
            && out.result == Err(if row.attempts == 5 then TooManyAttempts else InvalidOtp)
            && out.db == db.(verifications := db.verifications[v := row.(attempts := row.attempts + 1)]))
      && (row.attempts <= 5 && now < row.expiresAt && hash == row.tokenHash ==>
            && out.result == Ok(Verified(Unverified(db, row.userId)))
            && out.db.verifications == db.verifications[v := row.(verifiedAt := Some(now))])
  {
    AskedForIsNewest(db, email, v);
    NewestDecides(db, email, v);
  }

  lemma OtpAnswerWithoutRow(db: Db, email: string, hash: string, now: Time)
    requires forall w: Id :: !OpenOtp(db, email, w)
    ensures VerifyEmailOtp(db, email, hash, now) == Outcome(db, Err(InvalidOtp))
  {
    assert forall w: Id :: OtpCandidate(db, email, w) ==> OpenOtp(db, email, w);
  }

  /** The row has this digest, guesses left and time left. */
  ghost predicate Opens(row: Verification, hash: string, now: Time) {
    row.tokenHash == hash && row.attempts <= 5 && now < row.expiresAt
  }

  /** An OTP is accepted exactly when the row that is asked for has its digest, at most five wrong guesses and time left. */
  lemma OtpAcceptedExactlyWhen(db: Db, email: string, hash: string, now: Time)
    ensures VerifyEmailOtp(db, email, hash, now).result.Ok?
      <==> exists v :: AsksFor(db, email, v) && Opens(db.verifications[v], hash, now)
  {
    SomeRowIsAskedFor(db, email);
    if v :| AsksFor(db, email, v) {
      OtpAnswerByRow(db, email, hash, now, v);
      assert forall w | AsksFor(db, email, w) :: w == v;
    } else {
      OtpAnswerWithoutRow(db, email, hash, now);
    }
  }

  // ----- wrong guesses in a row -----

  datatype Guess = Guess(hash: string, now: Time)

  /** The tables after these requests for one address. */
  ghost function AfterGuesses(db: Db, email: string, guesses: seq<Guess>): Db {
    if guesses == [] then db
    else
      var last := guesses[|guesses| - 1];
      VerifyEmailOtp(AfterGuesses(db, email, guesses[..|guesses| - 1]), email, last.hash, last.now).db
  }

  /** Row `v` is asked for and has had this many wrong guesses. */
  ghost predicate Guessed(db: Db, email: string, v: Id, hash: string, expiresAt: Time, wrong: nat) {
    && AsksFor(db, email, v) && db.verifications[v].tokenHash == hash && db.verifications[v].expiresAt == expiresAt
    && db.verifications[v].attempts == if wrong <= 6 then wrong else 6
  }

  /** A new count keeps the row the one that is asked for. */
  lemma CountKeepsAskedFor(db: Db, email: string, v: Id, attempts: int)
    requires AsksFor(db, email, v)
    ensures AsksFor(
      db.(verifications := db.verifications[v := db.verifications[v].(attempts := attempts)]), email, v)
  {
    var db' := db.(verifications := db.verifications[v := db.verifications[v].(attempts := attempts)]);
    assert forall w: Id :: OpenOtp(db', email, w) <==> OpenOtp(db, email, w);
  }

  lemma OneWrongGuess(db: Db, email: string, v: Id, hash: string, expiresAt: Time, wrong: nat, guess: Guess)
    requires Guessed(db, email, v, hash, expiresAt, wrong) && guess.hash != hash && guess.now < expiresAt
    ensures var out := VerifyEmailOtp(db, email, guess.hash, guess.now);
      && Guessed(out.db, email, v, hash, expiresAt, wrong + 1)
      && out.result == Err(if wrong < 5 then InvalidOtp else TooManyAttempts)
  {
    OtpAnswerByRow(db, email, guess.hash, guess.now, v);
    CountKeepsAskedFor(db, email, v, db.verifications[v].attempts + 1);
  }

  lemma {:induction false} WrongGuessesCount(
    db: Db, email: string, v: Id, hash: string, expiresAt: Time, guesses: seq<Guess>)
    requires Guessed(db, email, v, hash, expiresAt, 0)
    requires forall i | 0 <= i < |guesses| :: guesses[i].hash != hash && guesses[i].now < expiresAt
    ensures Guessed(AfterGuesses(db, email, guesses), email, v, hash, expiresAt, |guesses|)
    decreases |guesses|
  {
    if guesses != [] {
      var front, last := guesses[..|guesses| - 1], guesses[|guesses| - 1];
      WrongGuessesCount(db, email, v, hash, expiresAt, front);
      OneWrongGuess(AfterGuesses(db, email, front), email, v, hash, expiresAt, |front|, last);
    }
  }

  /**
   After a registration and any run about others: the first five wrong guesses are answered with InvalidOtp, every
   further one with TooManyAttempts, and after six even the right OTP is refused.
   */
  lemma GuessesAfterRegistration(s: State, t: Timed, run: seq<Timed>, wrong: seq<Guess>, guess: Guess)
    requires Inv(s) && Admissible(s, t) && t.event.Register? && Apply(s.db, t.now, t.event).result.Ok?
    requires IsRun(Step(s, t), run) && AllElsewhere(run, t.event.uid, t.event.email, {t.event.tokens.magicHash})
    requires forall i | 0 <= i < |wrong| ::
      wrong[i].hash != t.event.tokens.otpHash && wrong[i].now < t.event.tokens.expiresAt
    requires guess.now < t.event.tokens.expiresAt
    ensures var e, db' := t.event, AfterGuesses(Final(Step(s, t), run).db, t.event.email, wrong);
      VerifyEmailOtp(db', e.email, guess.hash, guess.now).result
      == if |wrong| >= 6 then Err(TooManyAttempts)
         else if guess.hash == e.tokens.otpHash then Ok(Verified(true))
         else if |wrong| == 5 then Err(TooManyAttempts)
         else Err(InvalidOtp)
  {
    var s1, e, v := Step(s, t), t.event, t.event.ids.otpId;
    var db := Final(s1, run).db;
    StepKeepsInv(s, t);
    RegistrationIssues(s, t);
    RegisteredIsWaiting(s, t);
    RunElsewhere(s1, run, e.uid, e.email, {e.tokens.magicHash});
    NewestByOwnRows(s1.db, db, e.uid, e.email, v);
    AskedForIsNewest(db, e.email, v);
    WrongGuessesCount(db, e.email, v, e.tokens.otpHash, e.tokens.expiresAt, wrong);
    var db' := AfterGuesses(db, e.email, wrong);
    OtpAnswerByRow(db', e.email, guess.hash, guess.now, v);
    GuessesLeaveUsers(db, e.email, v, e.tokens.otpHash, e.tokens.expiresAt, wrong);
  }

  lemma {:induction false} GuessesLeaveUsers(
    db: Db, email: string, v: Id, hash: string, expiresAt: Time, guesses: seq<Guess>)
    requires Guessed(db, email, v, hash, expiresAt, 0)
    requires forall i | 0 <= i < |guesses| :: guesses[i].hash != hash && guesses[i].now < expiresAt
    ensures AfterGuesses(db, email, guesses).users == db.users
    ensures v in AfterGuesses(db, email, guesses).verifications
    ensures AfterGuesses(db, email, guesses).verifications[v].userId == db.verifications[v].userId
    decreases |guesses|
  {
    if guesses != [] {
      var front, last := guesses[..|guesses| - 1], guesses[|guesses| - 1];
      GuessesLeaveUsers(db, email, v, hash, expiresAt, front);
      WrongGuessesCount(db, email, v, hash, expiresAt, front);
      OtpAnswerByRow(AfterGuesses(db, email, front), email, last.hash, last.now, v);
    }
  }

  // ----- a link -----

  /** A link is answered by the one unverified link row with its digest: expired from the expiry on, else verified. */
  lemma LinkAnswer(db: Db, hash: string, now: Time)
    requires UniqueMagicHashes(db.verifications)
    ensures var out := VerifyMagicLink(db, hash, now);
      && (out == Outcome(db, Err(InvalidMagicLink)) <==> forall v :: !IsOpenMagicLink(db.verifications, hash, v))
      && (forall v | IsOpenMagicLink(db.verifications, hash, v) ::
            && (out == Outcome(db, Err(VerificationExpired)) <==> db.verifications[v].expiresAt <= now)
            && (out.result.Ok? <==> now < db.verifications[v].expiresAt)
            && (out.result.Ok? ==> out.result == Ok(Verified(Unverified(db, db.verifications[v].userId))))
            && (out.result.Ok? ==> out.db.verifications == db.verifications[v := db.verifications[v].(verifiedAt := Some(now))]))
  {
    if v :| IsOpenMagicLink(db.verifications, hash, v) {
      OpenLinkDecides(db, v, hash, now);
      assert forall w | IsOpenMagicLink(db.verifications, hash, w) :: w == v;
    }
  }

  // ----- registration, resend, bootstrap -----

  ghost predicate LinkTaken(db: Db, hash: string) {
    exists v :: v in db.verifications && db.verifications[v].tokenType == MagicLink && db.verifications[v].tokenHash == hash
  }

  /** Verification rows are created exactly for a user who exists, with an unused digest, and with a record of the mail. */
  lemma CreateAnswer(db: Db, uid: Id, tokens: Tokens, now: Time, ids: NewRows)
    ensures var out := CreateVerification(db, uid, tokens, now, ids);
      && (out.result == Ok(Registered(ids.recordId)) <==> uid in db.users && !LinkTaken(db, tokens.magicHash))
      && (out == Outcome(db, Err(NoSuchUser)) <==> uid !in db.users)
      && (out == Outcome(db, Err(HashTaken)) <==> uid in db.users && LinkTaken(db, tokens.magicHash))
      && (out.result.Ok? ==>
            && out.db.users == db.users && out.db.sessions == db.sessions && out.db.history == db.history
            && out.db.records == db.records[ids.recordId := EmailRecord(Some(uid), db.users[uid].email, None, Queued, now, now)])
  {
  }

  /** A registration succeeds exactly when the address is new and the digest of its link is unused. */
  lemma RegisterAnswer(db: Db, email: string, uid: Id, tokens: Tokens, now: Time, ids: NewRows)
    ensures var out := RegisterWithVerification(db, email, uid, tokens, now, ids);
      && (out.result.Ok? <==> !HasUser(db, email) && !LinkTaken(db, tokens.magicHash))
      && (out == Outcome(db, Err(EmailTaken)) <==> HasUser(db, email))
      && (out == Outcome(db, Err(HashTaken)) <==> !HasUser(db, email) && LinkTaken(db, tokens.magicHash))
  {
    NoUserFound(db, email);
  }

  /** Nobody registers twice by writing the address in another case or with spaces around it. */
  lemma SameMailboxIsTaken(db: Db, a: string, b: string, uid: Id, tokens: Tokens, now: Time, ids: NewRows)
    requires HasUser(db, Normal(a)) && SameMailbox(a, b)
    ensures RegisterWithVerification(db, Normal(b), uid, tokens, now, ids) == Outcome(db, Err(EmailTaken))
  {
    NormalAgreesExactlyWhen(a, b);
    RegisterAnswer(db, Normal(b), uid, tokens, now, ids);
  }

  /** A resend succeeds exactly for a user who has not verified, with an unused digest. */
  lemma ResendAnswer(db: Db, email: string, tokens: Tokens, now: Time, ids: NewRows)
    requires UniqueEmails(db.users)
    ensures var out := ResendVerification(db, email, tokens, now, ids);
      && (out == Outcome(db, Err(NoSuchUser)) <==> !HasUser(db, email))
      && (forall u | IsUser(db, email, u) ::
            && (out == Outcome(db, Err(AlreadyVerified)) <==> db.users[u].emailVerifiedAt.Some?)
            && (out == Outcome(db, Err(HashTaken)) <==>
                db.users[u].emailVerifiedAt.None? && LinkTaken(db, tokens.magicHash))
            && (out.result.Ok? <==> db.users[u].emailVerifiedAt.None? && !LinkTaken(db, tokens.magicHash)))
  {
    NoUserFound(db, email);
    if u :| IsUser(db, email, u) {
      FoundUser(db, email, u);
      SameLinksTaken(db, Revoke(db.verifications, u, now), tokens.magicHash);
    }
  }

  lemma SameLinksTaken(db: Db, rows: map<Id, Verification>, hash: string)
    requires rows.Keys == db.verifications.Keys
    requires forall v | v in rows ::
      rows[v].tokenType == db.verifications[v].tokenType && rows[v].tokenHash == db.verifications[v].tokenHash
    ensures MagicHashTaken(rows, hash) <==> LinkTaken(db, hash)
  {
    if LinkTaken(db, hash) {
      var v :| v in db.verifications && db.verifications[v].tokenType == MagicLink && db.verifications[v].tokenHash == hash;
      assert v in rows && rows[v].tokenType == MagicLink && rows[v].tokenHash == hash;
    }
  }

  /**
   A bootstrap with a new address creates a pending user; with a known one it needs the right password and a verified
   address; either way the tenant name must be free. Nothing is committed otherwise.
   */
  lemma BootstrapAnswer(db: Db, email: string, passwordOk: bool, tenantTaken: bool, uid: Id)
    requires UniqueEmails(db.users)
    ensures var out := Bootstrap(db, email, passwordOk, tenantTaken, uid);
      && (!HasUser(db, email) ==>
            out == if tenantTaken then Outcome(db, Err(TenantNameConflict))
                   else Outcome(db.(users := db.users[uid := User(email, 0, None)]), Ok(Done)))
      && (forall u | IsUser(db, email, u) ::
            && (out == Outcome(db, Err(PasswordMismatch)) <==> !passwordOk)
            && (out == Outcome(db, Err(EmailUnverified)) <==> passwordOk && db.users[u].emailVerifiedAt.None?)
            && (out == Outcome(db, Err(TenantNameConflict)) <==>
                passwordOk && db.users[u].emailVerifiedAt.Some? && tenantTaken)
            && (out.result.Ok? <==> passwordOk && db.users[u].emailVerifiedAt.Some? && !tenantTaken)
            && (out.result.Ok? ==> out.db == db.(users := db.users[u := db.users[u].(status := 1)])))
  {
    NoUserFound(db, email);
    if u :| IsUser(db, email, u) {
      FoundUser(db, email, u);
    }
  }

  // ----- sessions -----

  ghost predicate TokenTaken(db: Db, hash: string) {
    exists x :: x in db.sessions && db.sessions[x].tokenHash == hash
  }

  /** A verified user of status 1 with this address. */
  ghost predicate MayLogIn(db: Db, email: string, u: Id) {
    IsUser(db, email, u) && db.users[u].emailVerifiedAt.Some? && db.users[u].status == 1
  }

  /**
   A login succeeds exactly when the password is right, the address is that of a verified, active user, and the token
   is unused; a refused login changes nothing.
   */
  lemma LoginAnswer(db: Db, email: string, passwordOk: bool, hash: string, expiresAt: Time, x: Id)
    requires UniqueEmails(db.users)
    ensures var out := Login(db, email, passwordOk, hash, expiresAt, x);
      && (out.result.Err? ==> out.db == db)
      && (forall u :: out.result == Ok(LoggedIn(u)) <==> passwordOk && MayLogIn(db, email, u) && !TokenTaken(db, hash))
      && (out.result.Ok? ==> out.result.value.LoggedIn?)
      && (out.result.Ok? ==>
            out.db == db.(sessions := db.sessions[x := Session(out.result.value.uid, hash, expiresAt, None, None)]))
      && (!HasUser(db, email) ==> out.result == Err(InvalidCredentials))
      && (forall u | IsUser(db, email, u) ::
            && (out.result == Err(EmailUnverified) <==> db.users[u].emailVerifiedAt.None?)
            && (out.result == Err(InvalidCredentials) <==>
                db.users[u].emailVerifiedAt.Some? && (db.users[u].status != 1 || !passwordOk))
            && (out.result == Err(HashTaken) <==> MayLogIn(db, email, u) && passwordOk && TokenTaken(db, hash)))
  {
    NoUserFound(db, email);
    if u :| IsUser(db, email, u) {
      FoundUser(db, email, u);
      assert forall w | IsUser(db, email, w) :: w == u;
    }
  }

  /** A token is answered by the session with its digest: unknown, revoked, past its expiry, or rotated. */
  lemma RotationAnswer(db: Db, oldHash: string, newHash: string, expiresAt: Time, now: Time, x: Id)
    requires UniqueSessionHashes(db.sessions)
    ensures var out := RotateRefreshToken(db, oldHash, newHash, expiresAt, now, x);
      && (out.result.Err? ==> out.db == db)
      && (out.result == Err(SessionNotFound) <==> !TokenTaken(db, oldHash))
      && (forall o | o in db.sessions && db.sessions[o].tokenHash == oldHash ::
            && (out.result == Err(SessionRevoked) <==> db.sessions[o].revokedAt.Some?)
            && (out.result == Err(RefreshExpired) <==> db.sessions[o].revokedAt.None? && db.sessions[o].expiresAt < now)
            && (out.result == Err(HashTaken) <==>
                db.sessions[o].revokedAt.None? && now <= db.sessions[o].expiresAt && TokenTaken(db, newHash))
            && (out.result == Ok(Rotated(db.sessions[o].userId)) <==>
                db.sessions[o].revokedAt.None? && now <= db.sessions[o].expiresAt && !TokenTaken(db, newHash)))
  {
    if o :| o in db.sessions && db.sessions[o].tokenHash == oldHash {
      SessionDecides(db, o);
      assert forall w | w in db.sessions && db.sessions[w].tokenHash == oldHash :: w == o;
    }
  }
}
