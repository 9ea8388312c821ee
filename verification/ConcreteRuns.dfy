/**
 Runs from the empty database in which the code does not do what one would expect of it, one family for each finding.
 Nothing is assumed about a state: the requirements only choose the inputs of the requests, so each lemma gives a
 run for every such choice, for instance ids 1, 2, 3 ... and digests "a", "b", "c".
 */
module ConcreteRuns {
  import opened Base
  import opened Tables
  import opened Transactions
  import opened AuthRuns
  import opened AuthInvariants
  import opened HeldRows
  import opened Supersession
  import opened TokenRoundTrips

  // ----- when requests are accepted -----

  lemma RegisterAccepted(db: Db, email: string, uid: Id, tokens: Tokens, now: Time, ids: NewRows)
    requires (forall u | u in db.users :: db.users[u].email != email) && !MagicHashTaken(db.verifications, tokens.magicHash)
    ensures RegisterWithVerification(db, email, uid, tokens, now, ids).result == Ok(Registered(ids.recordId))
    ensures var db' := RegisterWithVerification(db, email, uid, tokens, now, ids).db;
      && db'.users == db.users[uid := User(email, 0, None)]
      && db'.verifications == WithVerification(db.verifications, uid, tokens, now, ids)
      && db'.records == db.records[ids.recordId := EmailRecord(Some(uid), email, None, Queued, now, now)]
  {
  }

  function TicketFor(db: Db, uid: Id, now: Time, ids: NewRows): Ticket {
    Ticket(uid, ids, Some(now), LiveExpiries(db.verifications, uid, now))
  }

  lemma ResendAccepted(db: Db, email: string, uid: Id, tokens: Tokens, now: Time, ids: NewRows)
    requires UniqueEmails(db.users) && uid in db.users && db.users[uid].email == email
    requires db.users[uid].emailVerifiedAt.None? && !MagicHashTaken(db.verifications, tokens.magicHash)
    ensures var out := ResendVerification(db, email, tokens, now, ids);
      && out.result == Ok(Resent(TicketFor(db, uid, now, ids)))
      && out.db.users == db.users
      && out.db.verifications == WithVerification(Revoke(db.verifications, uid, now), uid, tokens, now, ids)
      && out.db.records == db.records[ids.recordId := EmailRecord(Some(uid), email, None, Queued, now, now)]
  {
    assert UserByEmail(db.users, email) == Some(uid);
    assert !MagicHashTaken(Revoke(db.verifications, uid, now), tokens.magicHash);
  }

  // ----- what the next request needs to know of a state -----

  ghost predicate Sound(s: State) {
    Inv(s) && OnHold(s) && FromThePast(s)
  }

  /** One user who has not verified, the ids drawn so far and the digests of the links so far. */
  ghost predicate OneUser(s: State, uid: Id, email: string, drawn: set<Id>, links: set<string>) {
    && Sound(s) && s.used == drawn
    && s.db.users == map[uid := User(email, 0, None)]
    && forall v | v in s.db.verifications && s.db.verifications[v].tokenType == MagicLink ::
         s.db.verifications[v].tokenHash in links
  }

  function RowSet(ids: NewRows): set<Id> {
    {ids.otpId, ids.magicId, ids.recordId}
  }

  ghost predicate NewRowSet(ids: NewRows, drawn: set<Id>) {
    && ids.otpId != ids.magicId && ids.otpId != ids.recordId && ids.magicId != ids.recordId
    && RowSet(ids) !! drawn
  }

  lemma StepStaysSound(s: State, t: Timed)
    requires Sound(s) && Admissible(s, t)
    ensures Sound(Step(s, t))
  {
    StepKeepsInv(s, t);
    StepKeepsHolds(s, t);
    StepCreatesNow(s, t);
  }

  lemma DrawnByRegister(e: Event)
    requires e.Register?
    ensures (set i | 0 <= i < |DrawnIds(e)| :: DrawnIds(e)[i]) == {e.uid} + RowSet(e.ids)
  {
    var d := DrawnIds(e);
    assert d[0] == e.uid && d[1] == e.ids.otpId && d[2] == e.ids.magicId && d[3] == e.ids.recordId;
  }

  lemma DrawnByResend(e: Event)
    requires e.Resend?
    ensures (set i | 0 <= i < |DrawnIds(e)| :: DrawnIds(e)[i]) == RowSet(e.ids)
  {
    var d := DrawnIds(e);
    assert d[0] == e.ids.otpId && d[1] == e.ids.magicId && d[2] == e.ids.recordId;
  }

  /** A registration in an empty database. */
  lemma FirstUser(clock: Time, t: Timed)
    requires t.event.Register? && clock <= t.now && NewRowSet(t.event.ids, {t.event.uid})
    ensures Admissible(Start(clock), t) && Apply(EMPTY, t.now, t.event).result == Ok(Registered(t.event.ids.recordId))
    ensures var s, e := Step(Start(clock), t), t.event;
      && OneUser(s, e.uid, e.email, {e.uid} + RowSet(e.ids), {e.tokens.magicHash})
      && s.tickets == {} && s.clock == t.now
      && s.db.verifications == WithVerification(map[], e.uid, e.tokens, t.now, e.ids)
      && s.db.records == map[e.ids.recordId := EmailRecord(Some(e.uid), e.email, None, Queued, t.now, t.now)]
  {
    var e := t.event;
    RegisterAccepted(EMPTY, e.email, e.uid, e.tokens, t.now, e.ids);
    DrawnByRegister(e);
    StepStaysSound(Start(clock), t);
  }

  lemma ResendOf(s: State, t: Timed, uid: Id, drawn: set<Id>, links: set<string>)
    requires t.event.Resend? && OneUser(s, uid, t.event.email, drawn, links) && s.clock <= t.now
    requires NewRowSet(t.event.ids, drawn) && t.event.tokens.magicHash !in links
    ensures Admissible(s, t) && Accepts(s, t, TicketFor(s.db, uid, t.now, t.event.ids))
    ensures Step(s, t).db.users == s.db.users
    ensures Step(s, t).db.verifications
      == WithVerification(Revoke(s.db.verifications, uid, t.now), uid, t.event.tokens, t.now, t.event.ids)
    ensures Step(s, t).db.records
      == s.db.records[t.event.ids.recordId := EmailRecord(Some(uid), t.event.email, None, Queued, t.now, t.now)]
  {
    ResendAccepted(s.db, t.event.email, uid, t.event.tokens, t.now, t.event.ids);
  }

  lemma LinksAfterResend(
    rows: map<Id, Verification>, uid: Id, tokens: Tokens, now: Time, ids: NewRows, links: set<string>)
    requires forall v | v in rows && rows[v].tokenType == MagicLink :: rows[v].tokenHash in links
    ensures var rows' := WithVerification(Revoke(rows, uid, now), uid, tokens, now, ids);
      forall v | v in rows' && rows'[v].tokenType == MagicLink :: rows'[v].tokenHash in links + {tokens.magicHash}
  {
  }

  /** Another resend of that user. */
  lemma NextResend(s: State, t: Timed, uid: Id, drawn: set<Id>, links: set<string>)
    requires t.event.Resend? && OneUser(s, uid, t.event.email, drawn, links) && s.clock <= t.now
    requires NewRowSet(t.event.ids, drawn) && t.event.tokens.magicHash !in links
    ensures Admissible(s, t) && Accepts(s, t, TicketFor(s.db, uid, t.now, t.event.ids))
    ensures OneUser(Step(s, t), uid, t.event.email, drawn + RowSet(t.event.ids), links + {t.event.tokens.magicHash})
    ensures Step(s, t).tickets == s.tickets + {TicketFor(s.db, uid, t.now, t.event.ids)} && Step(s, t).clock == t.now
  {
    ResendOf(s, t, uid, drawn, links);
    DrawnByResend(t.event);
    StepStaysSound(s, t);
    LinksAfterResend(s.db.verifications, uid, t.event.tokens, t.now, t.event.ids, links);
  }

  // ----- a rollback that comes after the next resend -----

  /** A registration and two resends of it, with fresh ids and digests throughout. */
  ghost predicate ThreeMails(clock: Time, register: Timed, first: Timed, second: Timed) {
    && register.event.Register? && first.event.Resend? && second.event.Resend?
    && clock <= register.now <= first.now <= second.now
    && first.event.email == register.event.email && second.event.email == register.event.email
    && NewRowSet(register.event.ids, {register.event.uid})
    && NewRowSet(first.event.ids, {register.event.uid} + RowSet(register.event.ids))
    && NewRowSet(second.event.ids, {register.event.uid} + RowSet(register.event.ids) + RowSet(first.event.ids))
    && first.event.tokens.magicHash != register.event.tokens.magicHash
    && second.event.tokens.magicHash !in {register.event.tokens.magicHash, first.event.tokens.magicHash}
  }

  /** The row is still there, unverified, with this expiry. */
  ghost predicate HasLink(s: State, v: Id, uid: Id, hash: string, expiresAt: Time) {
    && v in s.db.verifications && s.db.verifications[v].userId == uid
    && s.db.verifications[v].tokenType == MagicLink && s.db.verifications[v].tokenHash == hash
    && s.db.verifications[v].expiresAt == expiresAt && s.db.verifications[v].verifiedAt.None?
    && s.db.verifications[v].attempts == 0
  }

  lemma ResendKeepsLink(s: State, t: Timed, ticket: Ticket, v: Id, hash: string, expiresAt: Time)
    requires OnlyDrawnIds(s) && Admissible(s, t) && Accepts(s, t, ticket) && HasLink(s, v, ticket.userId, hash, expiresAt)
    ensures HasLink(Step(s, t), v, ticket.userId, hash, if expiresAt > t.now then t.now else expiresAt)
    ensures expiresAt > t.now ==> v in ticket.revoked && ticket.revoked[v] == expiresAt
  {
    DrawnIdsAreNew(s, t);
  }

  lemma RollbackRestoresLink(s: State, now: Time, k: Ticket, v: Id, hash: string, expiresAt: Time)
    requires Sound(s) && s.clock <= now && k in s.tickets && v in k.revoked && HasLink(s, v, k.userId, hash, expiresAt)
    ensures Admissible(s, At(now, Rollback(k)))
    ensures HasLink(Step(s, At(now, Rollback(k))), v, k.userId, hash, k.revoked[v])
    ensures Step(s, At(now, Rollback(k))).db.users == s.db.users
    ensures UniqueIndexes(Step(s, At(now, Rollback(k))).db)
  {
    RollbackWakes(s, now, k, v);
    StepKeepsUnique(s, At(now, Rollback(k)));
  }

  lemma LinkVerifies(s: State, now: Time, v: Id, uid: Id, email: string, hash: string, expiresAt: Time)
    requires UniqueIndexes(s.db) && HasLink(s, v, uid, hash, expiresAt) && now < expiresAt
    requires s.db.users == map[uid := User(email, 0, None)]
    ensures Apply(s.db, now, VerifyMagic(hash)).result == Ok(Verified(true))
  {
    IssuedLinkVerifiesExactlyWhen(s.db, v, hash, expiresAt, now);
  }

  ghost function AfterThree(clock: Time, register: Timed, first: Timed, second: Timed): State {
    Step(Step(Step(Start(clock), register), first), second)
  }

  ghost function FirstTicket(clock: Time, register: Timed, first: Timed): Ticket
    requires register.event.Register? && first.event.Resend?
  {
    TicketFor(Step(Start(clock), register).db, register.event.uid, first.now, first.event.ids)
  }

  lemma ThreeMailsAreSent(clock: Time, register: Timed, first: Timed, second: Timed)
    requires ThreeMails(clock, register, first, second) && first.now < register.event.tokens.expiresAt
    ensures IsRun(Start(clock), [register, first, second])
    ensures Final(Start(clock), [register, first, second]) == AfterThree(clock, register, first, second)
    ensures var s, e, k := AfterThree(clock, register, first, second), register.event, FirstTicket(clock, register, first);
      && Sound(s) && s.clock == second.now && s.db.users == map[e.uid := User(e.email, 0, None)]
      && k in s.tickets && k.userId == e.uid
      && e.ids.magicId in k.revoked && k.revoked[e.ids.magicId] == e.tokens.expiresAt
      && HasLink(s, e.ids.magicId, e.uid, e.tokens.magicHash, first.now)
  {
    var e, f := register.event, first.event;
    var s1, drawn, links := Step(Start(clock), register), {e.uid} + RowSet(e.ids), {e.tokens.magicHash};
    FirstUser(clock, register);
    NextResend(s1, first, e.uid, drawn, links);
    var s2, k := Step(s1, first), FirstTicket(clock, register, first);
    ResendKeepsLink(s1, first, k, e.ids.magicId, e.tokens.magicHash, e.tokens.expiresAt);
    NextResend(s2, second, e.uid, drawn + RowSet(f.ids), links + {f.tokens.magicHash});
    var k2 := TicketFor(s2.db, e.uid, second.now, second.event.ids);
    ResendKeepsLink(s2, second, k2, e.ids.magicId, e.tokens.magicHash, first.now);
    ThreeStepRun(Start(clock), register, first, second);
  }

  lemma ThreeStepRun(s: State, t1: Timed, t2: Timed, t3: Timed)
    requires Admissible(s, t1) && Admissible(Step(s, t1), t2) && Admissible(Step(Step(s, t1), t2), t3)
    ensures IsRun(s, [t1, t2, t3]) && Final(s, [t1, t2, t3]) == Step(Step(Step(s, t1), t2), t3)
  {
    TwoStepRun(s, t1, t2);
    assert [t1] + [t2] == [t1, t2];
    RunAppend(s, [t1, t2], t3);
    assert [t1, t2] + [t3] == [t1, t2, t3];
  }

  lemma RolledBackAndVerified(
    start: State, run: seq<Timed>, s: State, k: Ticket, v: Id, email: string, hash: string, expiresAt: Time,
    rollbackAt: Time, verifyAt: Time)
    requires IsRun(start, run) && Final(start, run) == s && Sound(s)
    requires k in s.tickets && v in k.revoked && HasLink(s, v, k.userId, hash, expiresAt)
    requires s.db.users == map[k.userId := User(email, 0, None)]
    requires s.clock <= rollbackAt <= verifyAt < k.revoked[v]
    ensures var rollback, verify := At(rollbackAt, Rollback(k)), At(verifyAt, VerifyMagic(hash));
      && IsRun(start, run + [rollback] + [verify])
      && Apply(Final(start, run + [rollback]).db, verifyAt, verify.event).result == Ok(Verified(true))
  {
    var rollback, verify := At(rollbackAt, Rollback(k)), At(verifyAt, VerifyMagic(hash));
    RollbackRestoresLink(s, rollbackAt, k, v, hash, expiresAt);
    LinkVerifies(Step(s, rollback), verifyAt, v, k.userId, email, hash, k.revoked[v]);
    RunAppend(start, run, rollback);
    RunAppend(start, run + [rollback], verify);
  }

  /**
   The link of a registration, superseded by two resends, verifies after all: the first resend's enqueue failed late,
   and its rollback committed after the second resend.
   */
  lemma LateRollbackLetsOldLinkVerify(
    clock: Time, register: Timed, first: Timed, second: Timed, rollbackAt: Time, verifyAt: Time)
    requires ThreeMails(clock, register, first, second)
    requires second.now <= rollbackAt <= verifyAt < register.event.tokens.expiresAt
    ensures var rollback := At(rollbackAt, Rollback(FirstTicket(clock, register, first)));
      var verify := At(verifyAt, VerifyMagic(register.event.tokens.magicHash));
      && IsRun(Start(clock), [register, first, second] + [rollback] + [verify])
      && Apply(Final(Start(clock), [register, first, second] + [rollback]).db, verifyAt, verify.event).result
         == Ok(Verified(true))
  {
    var e := register.event;
    ThreeMailsAreSent(clock, register, first, second);
    RolledBackAndVerified(
      Start(clock), [register, first, second], AfterThree(clock, register, first, second),
      FirstTicket(clock, register, first), e.ids.magicId, e.email, e.tokens.magicHash, first.now, rollbackAt, verifyAt);
  }

  // ----- a resend at the instant of the registration -----

  lemma OutrankedIsRefused(s: State, t: Timed, ticket: Ticket, w: Id, later: Time)
    requires Sound(s) && Admissible(s, t) && Accepts(s, t, ticket) && t.now <= later && Outranks(s, t, ticket.userId, w)
    ensures VerifyEmailOtp(Step(s, t).db, t.event.email, t.event.tokens.otpHash, later).result.Err?
  {
    StepKeepsUnique(s, t);
    ResendIssues(s, t, ticket);
    OutrankedOtpFails(s, t, ticket, Step(s, t).db, later);
  }

  lemma RegisteredOtpOutranks(clock: Time, register: Timed, resend: Timed)
    requires register.event.Register? && resend.event.Resend? && clock <= register.now == resend.now
    requires NewRowSet(register.event.ids, {register.event.uid})
    requires resend.event.ids.otpId < register.event.ids.otpId
    ensures Outranks(Step(Start(clock), register), resend, register.event.uid, register.event.ids.otpId)
  {
    FirstUser(clock, register);
  }

  /** The OTP that was sent last is refused: its row drew the smaller id, so the query prefers the older, revoked one. */
  lemma SameInstantResendIsRefused(clock: Time, register: Timed, resend: Timed, later: Time)
    requires register.event.Register? && resend.event.Resend? && resend.event.email == register.event.email
    requires clock <= register.now == resend.now <= later
    requires NewRowSet(register.event.ids, {register.event.uid})
    requires NewRowSet(resend.event.ids, {register.event.uid} + RowSet(register.event.ids))
    requires resend.event.tokens.magicHash != register.event.tokens.magicHash
    requires resend.event.ids.otpId < register.event.ids.otpId
    ensures IsRun(Start(clock), [register] + [resend])
    ensures Apply(
      Final(Start(clock), [register] + [resend]).db, later, VerifyOtp(resend.event.email, resend.event.tokens.otpHash))
      .result.Err?
  {
    TwoMailsAreSent(clock, register, resend);
    RegisteredOtpOutranks(clock, register, resend);
    OutrankedIsRefused(
      Step(Start(clock), register), resend, FirstTicket(clock, register, resend), register.event.ids.otpId, later);
  }

  lemma TwoMailsAreSent(clock: Time, register: Timed, resend: Timed)
    requires register.event.Register? && resend.event.Resend? && resend.event.email == register.event.email
    requires clock <= register.now <= resend.now
    requires NewRowSet(register.event.ids, {register.event.uid})
    requires NewRowSet(resend.event.ids, {register.event.uid} + RowSet(register.event.ids))
    requires resend.event.tokens.magicHash != register.event.tokens.magicHash
    ensures Sound(Step(Start(clock), register)) && Admissible(Step(Start(clock), register), resend)
    ensures Accepts(Step(Start(clock), register), resend, FirstTicket(clock, register, resend))
    ensures FirstTicket(clock, register, resend).userId == register.event.uid
    ensures IsRun(Start(clock), [register] + [resend])
    ensures Final(Start(clock), [register] + [resend]) == Step(Step(Start(clock), register), resend)
  {
    var e := register.event;
    FirstUser(clock, register);
    NextResend(Step(Start(clock), register), resend, e.uid, {e.uid} + RowSet(e.ids), {e.tokens.magicHash});
    TwoStepRun(Start(clock), register, resend);
  }

  lemma TwoStepRun(s: State, t1: Timed, t2: Timed)
    requires Admissible(s, t1) && Admissible(Step(s, t1), t2)
    ensures IsRun(s, [t1] + [t2]) && Final(s, [t1] + [t2]) == Step(Step(s, t1), t2)
  {
    RunAppend(s, [], t1);
    assert [] + [t1] == [t1];
    RunAppend(s, [t1], t2);
  }

  /** Inputs of this kind: a registration at 0, resends at 10 and 20, tokens good until 100. */
  lemma SuchMailsExist()
    ensures ThreeMails(
      0,
      At(0, Register("a", 1, Tokens("o0", "m0", 100), NewRows(9, 3, 4))),
      At(10, Resend("a", Tokens("o1", "m1", 200), NewRows(5, 6, 7))),
      At(20, Resend("a", Tokens("o2", "m2", 200), NewRows(10, 11, 12))))
  {
    assert "m0"[1] == '0' && "m1"[1] == '1' && "m2"[1] == '2';
  }
}
