/**
 A token that was issued is accepted, and until when: the OTP and the link of a registration or a resend verify
 exactly before their expiry, a refresh token rotates up to and including its expiry.
 */
module TokenRoundTrips {
  import opened Base
  import opened Tables
  import opened Transactions
  import opened AuthRuns
  import opened AuthInvariants
  import opened RowSteps
  import opened Supersession
  import opened FailedRegistration
  import opened SessionChains

  /** No row claims to have been created after the state's clock. */
  ghost predicate FromThePast(s: State) {
    forall v | v in s.db.verifications :: s.db.verifications[v].createdAt <= s.clock
  }

  ghost predicate CreatedNowOrBefore(rows: map<Id, Verification>, rows': map<Id, Verification>, now: Time) {
    forall v | v in rows' :: rows'[v].createdAt == now || (v in rows && rows'[v].createdAt == rows[v].createdAt)
  }

  lemma NewRowsAreCreatedNow(rows: map<Id, Verification>, uid: Id, tokens: Tokens, now: Time, ids: NewRows)
    ensures CreatedNowOrBefore(rows, WithVerification(rows, uid, tokens, now, ids), now)
  {
  }

  lemma ResendCreatesNow(db: Db, email: string, tokens: Tokens, now: Time, ids: NewRows)
    ensures CreatedNowOrBefore(db.verifications, ResendVerification(db, email, tokens, now, ids).db.verifications, now)
  {
    var u := UserByEmail(db.users, email);
    if u.Some? {
      NewRowsAreCreatedNow(Revoke(db.verifications, u.value, now), u.value, tokens, now, ids);
    }
  }

  lemma OldRowsKeepTheirCreation(s: State, t: Timed)
    requires OnlyDrawnIds(s) && Admissible(s, t) && DrawnIds(t.event) == []
    ensures CreatedNowOrBefore(s.db.verifications, Step(s, t).db.verifications, t.now)
  {
    TablesGrowByDrawnIds(s.db, t.now, t.event);
    forall v | v in Step(s, t).db.verifications
      ensures v in s.db.verifications && Step(s, t).db.verifications[v].createdAt == s.db.verifications[v].createdAt
    {
      if t.event.VerifyOtp? {
        OtpStepTouchesComparedRow(s.db, t.event.email, t.event.hash, t.now, v);
      } else if t.event.VerifyMagic? {
        MagicStepTouchesLiveRow(s.db, t.event.hash, t.now, v);
      } else {
        OtherStepsMoveOnlyExpiry(s, t, v);
      }
    }
  }

  lemma StepCreatesNow(s: State, t: Timed)
    requires OnlyDrawnIds(s) && Admissible(s, t)
    ensures CreatedNowOrBefore(s.db.verifications, Step(s, t).db.verifications, t.now)
  {
    match t.event
    case Register(_, uid, tokens, ids) => NewRowsAreCreatedNow(s.db.verifications, uid, tokens, t.now, ids);
    case Create(uid, tokens, ids) => NewRowsAreCreatedNow(s.db.verifications, uid, tokens, t.now, ids);
    case Resend(email, tokens, ids) => ResendCreatesNow(s.db, email, tokens, t.now, ids);
    case _ =>
      if DrawnIds(t.event) == [] {
        OldRowsKeepTheirCreation(s, t);
      } else {
        SessionEventsKeepRows(s.db, t.now, t.event);
      }
  }

  /** In every run no row is ever from the future. */
  lemma {:induction false} RunKeepsPast(s: State, run: seq<Timed>)
    requires OnlyDrawnIds(s) && FromThePast(s) && IsRun(s, run)
    ensures FromThePast(Final(s, run))
    decreases |run|
  {
    if run != [] {
      StepKeepsDrawnIds(s, run[0]);
      StepCreatesNow(s, run[0]);
      RunKeepsPast(Step(s, run[0]), run[1..]);
    }
  }

  // ----- a magic link -----

  /** The only open link with a digest decides what happens to it. */
  lemma OpenLinkDecides(db: Db, v: Id, hash: string, now: Time)
    requires UniqueMagicHashes(db.verifications) && IsOpenMagicLink(db.verifications, hash, v)
    ensures VerifyMagicLink(db, hash, now)
      == if now < db.verifications[v].expiresAt then Activate(db, v, now) else Outcome(db, Err(VerificationExpired))
  {
    assert forall w | IsOpenMagicLink(db.verifications, hash, w) :: w == v;
  }

  /** The row is an unverified row of an unverified user, as every issued token is at first. */
  ghost predicate Issued(db: Db, v: Id, hash: string, kind: TokenType, expiresAt: Time) {
    && v in db.verifications
    && db.verifications[v].tokenType == kind && db.verifications[v].tokenHash == hash
    && db.verifications[v].expiresAt == expiresAt && db.verifications[v].verifiedAt.None?
    && db.verifications[v].attempts == 0
    && db.verifications[v].userId in db.users && db.users[db.verifications[v].userId].emailVerifiedAt.None?
  }

  /** An issued link verifies, and activates its user, exactly before its expiry. */
  lemma IssuedLinkVerifiesExactlyWhen(db: Db, v: Id, hash: string, expiresAt: Time, now: Time)
    requires UniqueMagicHashes(db.verifications) && Issued(db, v, hash, MagicLink, expiresAt)
    ensures VerifyMagicLink(db, hash, now).result
      == if now < expiresAt then Ok(Verified(true)) else Err(VerificationExpired)
  {
    OpenLinkDecides(db, v, hash, now);
  }

  // ----- an OTP -----

  lemma NewestDecides(db: Db, email: string, v: Id)
    requires IsNewestOtp(db, email, v)
    ensures NewestOtp(db, email) == Some(v)
  {
    assert forall w | IsNewestOtp(db, email, w) :: w == v;
  }

  /** An issued OTP that is the newest of its address verifies exactly before its expiry. */
  lemma NewestOtpVerifiesExactlyWhen(db: Db, email: string, v: Id, hash: string, expiresAt: Time, now: Time)
    requires IsNewestOtp(db, email, v) && Issued(db, v, hash, Otp, expiresAt)
    ensures VerifyEmailOtp(db, email, hash, now).result
      == if now < expiresAt then Ok(Verified(true)) else Err(VerificationExpired)
  {
    NewestDecides(db, email, v);
  }

  lemma ExpiredNewestRefuses(db: Db, email: string, v: Id, hash: string, now: Time)
    requires IsNewestOtp(db, email, v) && db.verifications[v].expiresAt <= now
    ensures VerifyEmailOtp(db, email, hash, now).result.Err?
  {
    NewestDecides(db, email, v);
  }

  // ----- registration -----

  lemma RegistrationIssues(s: State, t: Timed)
    requires Inv(s) && Admissible(s, t) && t.event.Register? && Apply(s.db, t.now, t.event).result.Ok?
    ensures var db', e := Step(s, t).db, t.event;
      && Issued(db', e.ids.otpId, e.tokens.otpHash, Otp, e.tokens.expiresAt)
      && Issued(db', e.ids.magicId, e.tokens.magicHash, MagicLink, e.tokens.expiresAt)
      && IsNewestOtp(db', e.email, e.ids.otpId)
  {
    var db', e := Step(s, t).db, t.event;
    DrawnIdsAreNew(s, t);
    assert forall u | u in s.db.users :: s.db.users[u].email != e.email;
    assert forall w | OtpCandidate(db', e.email, w) :: w == e.ids.otpId;
  }

  // ----- as long as nobody touches the user -----

  /** What the user owns decides which OTP row is asked for. */
  lemma NewestByOwnRows(db: Db, db': Db, uid: Id, email: string, v: Id)
    requires UniqueEmails(db.users) && UniqueEmails(db'.users) && SameOwn(db, db', uid) && db.users[uid].email == email
    ensures IsNewestOtp(db, email, v) <==> IsNewestOtp(db', email, v)
  {
    forall w ensures OtpCandidate(db, email, w) <==> OtpCandidate(db', email, w) {
      assert OtpCandidate(db, email, w) ==> db.verifications[w].userId == uid;
      assert OtpCandidate(db', email, w) ==> db'.verifications[w].userId == uid;
    }
    assert forall w | OtpCandidate(db, email, w) :: db'.verifications[w] == db.verifications[w];
  }

  lemma IssuedByOwnRows(db: Db, db': Db, uid: Id, v: Id, hash: string, kind: TokenType, expiresAt: Time)
    requires SameOwn(db, db', uid) && Issued(db, v, hash, kind, expiresAt) && db.verifications[v].userId == uid
    ensures Issued(db', v, hash, kind, expiresAt)
  {
  }

  /** The answer to a token that is good until `expiresAt`. */
  function GoodUntil(expiresAt: Time, now: Time): Result<Answer, Error> {
    if now < expiresAt then Ok(Verified(true)) else Err(VerificationExpired)
  }

  /** Both tokens of an untouched user are good until their expiry, whatever others did since. */
  lemma UntouchedTokensVerify(
    db: Db, db': Db, uid: Id, email: string, ids: NewRows, tokens: Tokens, later: Time)
    requires UniqueIndexes(db) && UniqueIndexes(db') && SameOwn(db, db', uid) && db.users[uid].email == email
    requires Issued(db, ids.otpId, tokens.otpHash, Otp, tokens.expiresAt) && IsNewestOtp(db, email, ids.otpId)
    requires Issued(db, ids.magicId, tokens.magicHash, MagicLink, tokens.expiresAt)
    requires db.verifications[ids.otpId].userId == uid && db.verifications[ids.magicId].userId == uid
    ensures VerifyEmailOtp(db', email, tokens.otpHash, later).result == GoodUntil(tokens.expiresAt, later)
    ensures VerifyMagicLink(db', tokens.magicHash, later).result == GoodUntil(tokens.expiresAt, later)
  {
    NewestByOwnRows(db, db', uid, email, ids.otpId);
    IssuedByOwnRows(db, db', uid, ids.otpId, tokens.otpHash, Otp, tokens.expiresAt);
    IssuedByOwnRows(db, db', uid, ids.magicId, tokens.magicHash, MagicLink, tokens.expiresAt);
    NewestOtpVerifiesExactlyWhen(db', email, ids.otpId, tokens.otpHash, tokens.expiresAt, later);
    IssuedLinkVerifiesExactlyWhen(db', ids.magicId, tokens.magicHash, tokens.expiresAt, later);
  }

  lemma RegisteredIsWaiting(s: State, t: Timed)
    requires Inv(s) && Admissible(s, t) && t.event.Register? && Apply(s.db, t.now, t.event).result.Ok?
    ensures var db', e := Step(s, t).db, t.event;
      && Waiting(db', e.uid, e.email, {e.tokens.magicHash})
      && db'.verifications[e.ids.otpId].userId == e.uid && db'.verifications[e.ids.magicId].userId == e.uid
  {
    DrawnIdsAreNew(s, t);
    RegistrationIssues(s, t);
    RegisterThenErase(s.db, t.event.email, t.event.uid, t.event.tokens, t.now, t.event.ids);
  }

  /**
   Either token of a registration verifies and activates exactly before their common expiry, after any run of
   transactions about others.
   */
  lemma RegisteredTokensVerifyExactlyWhen(s: State, t: Timed, run: seq<Timed>, later: Time)
    requires Inv(s) && Admissible(s, t) && t.event.Register? && Apply(s.db, t.now, t.event).result.Ok?
    requires IsRun(Step(s, t), run) && AllElsewhere(run, t.event.uid, t.event.email, {t.event.tokens.magicHash})
    ensures var db', e := Final(Step(s, t), run).db, t.event;
      && VerifyEmailOtp(db', e.email, e.tokens.otpHash, later).result == GoodUntil(e.tokens.expiresAt, later)
      && VerifyMagicLink(db', e.tokens.magicHash, later).result == GoodUntil(e.tokens.expiresAt, later)
  {
    var s1, e := Step(s, t), t.event;
    StepKeepsInv(s, t);
    RegistrationIssues(s, t);
    RegisteredIsWaiting(s, t);
    RunElsewhere(s1, run, e.uid, e.email, {e.tokens.magicHash});
    UntouchedTokensVerify(s1.db, Final(s1, run).db, e.uid, e.email, e.ids, e.tokens, later);
  }

  // ----- resend -----

  /** Row `w` of the user would be chosen before the new OTP: created at the same instant, with a larger id. */
  ghost predicate Outranks(s: State, t: Timed, uid: Id, w: Id)
    requires t.event.Resend?
  {
    && w in s.db.verifications && s.db.verifications[w].userId == uid
    && s.db.verifications[w].tokenType == Otp && s.db.verifications[w].verifiedAt.None?
    && s.db.verifications[w].createdAt == t.now && w > t.event.ids.otpId
  }

  lemma ResendIssues(s: State, t: Timed, ticket: Ticket)
    requires Inv(s) && Admissible(s, t) && Accepts(s, t, ticket)
    ensures var db', e := Step(s, t).db, t.event;
      && Issued(db', e.ids.otpId, e.tokens.otpHash, Otp, e.tokens.expiresAt)
      && Issued(db', e.ids.magicId, e.tokens.magicHash, MagicLink, e.tokens.expiresAt)
      && db'.verifications[e.ids.otpId].userId == ticket.userId
      && db'.verifications[e.ids.otpId].createdAt == t.now
      && db'.users == s.db.users && ticket.userId in db'.users && db'.users[ticket.userId].email == e.email
  {
    DrawnIdsAreNew(s, t);
  }

  /** Apart from the new one, the candidates after a resend are the old rows of the user, now expired. */
  lemma OldCandidates(s: State, t: Timed, ticket: Ticket, w: Id)
    requires Inv(s) && Admissible(s, t) && Accepts(s, t, ticket)
    requires OtpCandidate(Step(s, t).db, t.event.email, w) && w != t.event.ids.otpId
    ensures w in s.db.verifications && s.db.verifications[w].userId == ticket.userId
    ensures s.db.verifications[w].tokenType == Otp && s.db.verifications[w].verifiedAt.None?
    ensures Step(s, t).db.verifications[w].createdAt == s.db.verifications[w].createdAt
    ensures Step(s, t).db.verifications[w].expiresAt <= t.now
  {
    DrawnIdsAreNew(s, t);
    ResendIssues(s, t, ticket);
  }

  lemma OutrankingIsCandidate(s: State, t: Timed, ticket: Ticket, w: Id)
    requires Inv(s) && Admissible(s, t) && Accepts(s, t, ticket) && Outranks(s, t, ticket.userId, w)
    ensures OtpCandidate(Step(s, t).db, t.event.email, w)
    ensures Step(s, t).db.verifications[w].createdAt == t.now
  {
    DrawnIdsAreNew(s, t);
    ResendIssues(s, t, ticket);
  }

  /** The OTP of a resend is the one that will be asked for, unless a row of the same instant outranks it. */
  lemma ResentOtpIsNewestExactlyWhen(s: State, t: Timed, ticket: Ticket)
    requires Inv(s) && FromThePast(s) && Admissible(s, t) && Accepts(s, t, ticket)
    ensures IsNewestOtp(Step(s, t).db, t.event.email, t.event.ids.otpId)
      <==> !exists w :: Outranks(s, t, ticket.userId, w)
  {
    var db', v := Step(s, t).db, t.event.ids.otpId;
    ResendIssues(s, t, ticket);
    if w :| Outranks(s, t, ticket.userId, w) {
      OutrankingIsCandidate(s, t, ticket, w);
      assert !AtMostAsNew(db'.verifications, w, v);
    } else {
      forall w | OtpCandidate(db', t.event.email, w) ensures AtMostAsNew(db'.verifications, w, v) {
        if w != v {
          OldCandidates(s, t, ticket, w);
          assert !Outranks(s, t, ticket.userId, w);
        }
      }
    }
  }

  /** The digests of all links of a user. */
  function LinksOf(db: Db, uid: Id): set<string> {
    set v | v in db.verifications && db.verifications[v].userId == uid && db.verifications[v].tokenType == MagicLink ::
      db.verifications[v].tokenHash
  }

  lemma ResentIsWaiting(s: State, t: Timed, ticket: Ticket)
    requires Inv(s) && Admissible(s, t) && Accepts(s, t, ticket)
    ensures var db', e := Step(s, t).db, t.event;
      && Waiting(db', ticket.userId, e.email, LinksOf(db', ticket.userId))
      && db'.verifications[e.ids.magicId].userId == ticket.userId
  {
    StepKeepsConsistent(s, t);
    ResendIssues(s, t, ticket);
    var db' := Step(s, t).db;
    assert Agrees(db'.users[ticket.userId], ticket.userId in VerifiedOwners(db'.verifications));
  }

  /** An outranked OTP is not good at any time: the row that is asked for instead is expired. */
  lemma OutrankedOtpFails(s: State, t: Timed, ticket: Ticket, db': Db, later: Time)
    requires Inv(s) && FromThePast(s) && Admissible(s, t) && Accepts(s, t, ticket) && t.now <= later
    requires exists w :: Outranks(s, t, ticket.userId, w)
    requires UniqueEmails(Step(s, t).db.users) && UniqueEmails(db'.users) && SameOwn(Step(s, t).db, db', ticket.userId)
    ensures VerifyEmailOtp(db', t.event.email, t.event.tokens.otpHash, later).result.Err?
  {
    var db1, e := Step(s, t).db, t.event;
    ResendIssues(s, t, ticket);
    ResentOtpIsNewestExactlyWhen(s, t, ticket);
    match NewestOtp(db', e.email)
    case None =>
    case Some(v) =>
      NewestByOwnRows(db1, db', ticket.userId, e.email, v);
      OldCandidates(s, t, ticket, v);
      assert db'.verifications[v] == db1.verifications[v];
      ExpiredNewestRefuses(db', e.email, v, e.tokens.otpHash, later);
  }

  /**
   After any run of transactions about others, the link of a resend verifies exactly before its expiry. Its OTP needs
   one thing more: that no earlier OTP row of the user was created at the same instant with a larger id, for then the
   query prefers that one, which is revoked.
   */
  lemma ResentTokensVerifyExactlyWhen(s: State, t: Timed, ticket: Ticket, run: seq<Timed>, later: Time)
    requires Inv(s) && FromThePast(s) && Admissible(s, t) && Accepts(s, t, ticket) && t.now <= later
    requires IsRun(Step(s, t), run)
    requires AllElsewhere(run, ticket.userId, t.event.email, LinksOf(Step(s, t).db, ticket.userId))
    ensures var db', e := Final(Step(s, t), run).db, t.event;
      && (VerifyMagicLink(db', e.tokens.magicHash, later).result == Ok(Verified(true))
          <==> later < e.tokens.expiresAt)
      && (VerifyEmailOtp(db', e.email, e.tokens.otpHash, later).result == Ok(Verified(true))
          <==> later < e.tokens.expiresAt && !exists w :: Outranks(s, t, ticket.userId, w))
  {
    var s1, e, uid := Step(s, t), t.event, ticket.userId;
    var db' := Final(s1, run).db;
    StepKeepsInv(s, t);
    ResendIssues(s, t, ticket);
    ResentIsWaiting(s, t, ticket);
    RunElsewhere(s1, run, uid, e.email, LinksOf(s1.db, uid));
    ResentOtpIsNewestExactlyWhen(s, t, ticket);
    IssuedByOwnRows(s1.db, db', uid, e.ids.magicId, e.tokens.magicHash, MagicLink, e.tokens.expiresAt);
    IssuedLinkVerifiesExactlyWhen(db', e.ids.magicId, e.tokens.magicHash, e.tokens.expiresAt, later);
    if exists w :: Outranks(s, t, uid, w) {
      OutrankedOtpFails(s, t, ticket, db', later);
    } else {
      UntouchedTokensVerify(s1.db, db', uid, e.email, e.ids, e.tokens, later);
    }
  }

  /** For instance: a resend at the instant of the registration whose OTP row draws the smaller id. */
  lemma SameInstantResendFails(s: State, t: Timed, t2: Timed, ticket: Ticket, run: seq<Timed>, later: Time)
    requires Inv(s) && FromThePast(s) && Admissible(s, t) && t.event.Register? && Apply(s.db, t.now, t.event).result.Ok?
    requires Admissible(Step(s, t), t2) && Accepts(Step(s, t), t2, ticket) && t2.event.email == t.event.email
    requires t2.now == t.now <= later && t2.event.ids.otpId < t.event.ids.otpId
    requires IsRun(Step(Step(s, t), t2), run)
    requires AllElsewhere(run, ticket.userId, t2.event.email, LinksOf(Step(Step(s, t), t2).db, ticket.userId))
    ensures VerifyEmailOtp(Final(Step(Step(s, t), t2), run).db, t2.event.email, t2.event.tokens.otpHash, later).result
      != Ok(Verified(true))
  {
    StepKeepsInv(s, t);
    StepCreatesNow(s, t);
    RegisteredRow(s, t);
    RegistrationIssues(s, t);
    ResentUserIsTheOne(Step(s, t), t2, ticket, t.event.uid);
    assert Outranks(Step(s, t), t2, ticket.userId, t.event.ids.otpId);
    ResentTokensVerifyExactlyWhen(Step(s, t), t2, ticket, run, later);
  }

  lemma ResentUserIsTheOne(s: State, t: Timed, ticket: Ticket, uid: Id)
    requires Inv(s) && Admissible(s, t) && Accepts(s, t, ticket)
    requires uid in s.db.users && s.db.users[uid].email == t.event.email
    ensures ticket.userId == uid
  {
    ResendIssues(s, t, ticket);
  }

  lemma RegisteredRow(s: State, t: Timed)
    requires OnlyDrawnIds(s) && Admissible(s, t) && t.event.Register? && Apply(s.db, t.now, t.event).result.Ok?
    ensures var db', e := Step(s, t).db, t.event;
      && e.ids.otpId in db'.verifications && db'.verifications[e.ids.otpId].createdAt == t.now
      && db'.verifications[e.ids.otpId].userId == e.uid && e.uid in db'.users && db'.users[e.uid].email == e.email
  {
    DrawnIdsAreNew(s, t);
  }

  // ----- refresh tokens -----

  lemma SessionDecides(db: Db, x: Id)
    requires UniqueSessionHashes(db.sessions) && x in db.sessions
    ensures SessionByHash(db.sessions, db.sessions[x].tokenHash) == Some(x)
  {
  }

  /** The transaction neither rotates nor revokes this token of this user. */
  predicate LeavesToken(e: Event, uid: Id, hash: string) {
    match e
    case Rotate(oldHash, _, _, _) => oldHash != hash
    case Logout(other) => other != hash
    case LogoutAll(other) => other != uid
    case _ => true
  }

  lemma SessionEventKeepsSession(db: Db, now: Time, e: Event, x: Id)
    requires e.LogIn? || e.Rotate? || e.Logout? || e.LogoutAll?
    requires e.LogIn? || e.Rotate? ==> e.sessionId != x
    requires x in db.sessions && LeavesToken(e, db.sessions[x].userId, db.sessions[x].tokenHash)
    ensures x in Apply(db, now, e).db.sessions && Apply(db, now, e).db.sessions[x] == db.sessions[x]
  {
  }

  lemma StepKeepsSession(s: State, t: Timed, x: Id)
    requires Inv(s) && Admissible(s, t) && x in s.db.sessions
    requires LeavesToken(t.event, s.db.sessions[x].userId, s.db.sessions[x].tokenHash)
    ensures x in Step(s, t).db.sessions && Step(s, t).db.sessions[x] == s.db.sessions[x]
  {
    if t.event.LogIn? || t.event.Rotate? || t.event.Logout? || t.event.LogoutAll? {
      DrawnIdsAreNew(s, t);
      SessionEventKeepsSession(s.db, t.now, t.event, x);
    } else {
      OtherStepsKeepSessions(s, t);
    }
  }

  lemma {:induction false} RunKeepsSession(s: State, run: seq<Timed>, x: Id, session: Session)
    requires Inv(s) && IsRun(s, run) && x in s.db.sessions && s.db.sessions[x] == session
    requires forall i | 0 <= i < |run| :: LeavesToken(run[i].event, session.userId, session.tokenHash)
    ensures Inv(Final(s, run)) && x in Final(s, run).db.sessions && Final(s, run).db.sessions[x] == session
    decreases |run|
  {
    if run != [] {
      StepKeepsInv(s, run[0]);
      StepKeepsSession(s, run[0], x);
      RunKeepsSession(Step(s, run[0]), run[1..], x, session);
    }
  }

  lemma LiveSessionRotatesExactlyWhen(db: Db, x: Id, newHash: string, expiresAt: Time, later: Time, y: Id)
    requires UniqueSessionHashes(db.sessions) && x in db.sessions && db.sessions[x].revokedAt.None?
    ensures RotateRefreshToken(db, db.sessions[x].tokenHash, newHash, expiresAt, later, y).result
      == Ok(Rotated(db.sessions[x].userId))
      <==> later <= db.sessions[x].expiresAt && forall z | z in db.sessions :: db.sessions[z].tokenHash != newHash
  {
    SessionDecides(db, x);
  }

  /**
   After any run that neither rotates nor revokes it, the token of a login rotates, for the same user, up to and
   including its expiry, to any unused token.
   */
  lemma IssuedTokenRotatesExactlyWhen(
    s: State, t: Timed, uid: Id, run: seq<Timed>, newHash: string, expiresAt: Time, later: Time, y: Id)
    requires Inv(s) && Admissible(s, t) && t.event.LogIn? && Apply(s.db, t.now, t.event).result == Ok(LoggedIn(uid))
    requires IsRun(Step(s, t), run) && forall i | 0 <= i < |run| :: LeavesToken(run[i].event, uid, t.event.hash)
    ensures var db', e := Final(Step(s, t), run).db, t.event;
      RotateRefreshToken(db', e.hash, newHash, expiresAt, later, y).result == Ok(Rotated(uid))
      <==> later <= e.expiresAt && forall z | z in db'.sessions :: db'.sessions[z].tokenHash != newHash
  {
    var e := t.event;
    StepKeepsInv(s, t);
    RunKeepsSession(Step(s, t), run, e.sessionId, Session(uid, e.hash, e.expiresAt, None, None));
    LiveSessionRotatesExactlyWhen(Final(Step(s, t), run).db, e.sessionId, newHash, expiresAt, later, y);
  }
}
