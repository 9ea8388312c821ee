/** A run from the empty database in which an OTP that two resends have superseded verifies. */
module OldOtpRun {
  import opened Base
  import opened Tables
  import opened Transactions
  import opened AuthRuns
  import opened AuthInvariants
  import opened HeldRows
  import opened Supersession
  import opened TokenRoundTrips
  import opened OtpSupersession
  import opened ConcreteRuns

  /** An unverified OTP row without wrong guesses. */
  ghost predicate HasOtp(s: State, v: Id, uid: Id, hash: string, expiresAt: Time, createdAt: Time) {
    v in s.db.verifications && s.db.verifications[v] == Verification(uid, hash, Otp, expiresAt, None, 0, createdAt)
  }

  ghost predicate OtpsAmong(s: State, some: set<Id>) {
    forall v | v in s.db.verifications && s.db.verifications[v].tokenType == Otp :: v in some
  }

  lemma RegisterGivesOtp(clock: Time, t: Timed)
    requires t.event.Register? && clock <= t.now && NewRowSet(t.event.ids, {t.event.uid})
    ensures var s, e := Step(Start(clock), t), t.event;
      && HasOtp(s, e.ids.otpId, e.uid, e.tokens.otpHash, e.tokens.expiresAt, t.now)
      && OtpsAmong(s, {e.ids.otpId})
  {
    FirstUser(clock, t);
  }

  lemma ResendGivesOtp(s: State, t: Timed, k: Ticket, some: set<Id>)
    requires OnlyDrawnIds(s) && Admissible(s, t) && Accepts(s, t, k) && OtpsAmong(s, some)
    ensures HasOtp(Step(s, t), t.event.ids.otpId, k.userId, t.event.tokens.otpHash, t.event.tokens.expiresAt, t.now)
    ensures OtpsAmong(Step(s, t), some + {t.event.ids.otpId})
  {
    DrawnIdsAreNew(s, t);
  }

  lemma ResendExpiresOtp(s: State, t: Timed, k: Ticket, v: Id, hash: string, expiresAt: Time, createdAt: Time)
    requires OnlyDrawnIds(s) && Admissible(s, t) && Accepts(s, t, k) && HasOtp(s, v, k.userId, hash, expiresAt, createdAt)
    ensures HasOtp(Step(s, t), v, k.userId, hash, if expiresAt > t.now then t.now else expiresAt, createdAt)
    ensures expiresAt > t.now ==> v in k.revoked && k.revoked[v] == expiresAt
  {
    DrawnIdsAreNew(s, t);
  }

  /** The rollback brings the held OTP back and deletes the OTP of the resend. */
  lemma RollbackOfOtps(s: State, now: Time, k: Ticket, v: Id, w: Id, hash: string, expiresAt: Time, createdAt: Time)
    requires Sound(s) && s.clock <= now && k in s.tickets && v in k.revoked && w !in k.revoked
    requires HasOtp(s, v, k.userId, hash, expiresAt, createdAt)
    requires w in s.db.verifications && !Creates(k, w)
    requires k.rows.otpId in s.db.verifications && s.db.verifications[k.rows.otpId].userId == k.userId
    requires s.db.verifications[k.rows.otpId].verifiedAt.None?
    ensures Admissible(s, At(now, Rollback(k)))
    ensures var s' := Step(s, At(now, Rollback(k)));
      && HasOtp(s', v, k.userId, hash, k.revoked[v], createdAt) && s'.db.users == s.db.users
      && w in s'.db.verifications && s'.db.verifications[w] == s.db.verifications[w]
      && s'.db.verifications.Keys <= s.db.verifications.Keys - {k.rows.otpId}
      && (forall x | x in s'.db.verifications :: s'.db.verifications[x].tokenType == s.db.verifications[x].tokenType)
  {
    RollbackWakes(s, now, k, v);
  }

  /** Two OTP rows of the user are left, both good, `w` the newer. */
  ghost predicate TwoOtps(s: State, uid: Id, email: string, v: Id, w: Id) {
    && s.db.users == map[uid := User(email, 0, None)] && OtpsAmong(s, {v, w}) && v != w
    && OtpCandidate(s.db, email, v) && OtpCandidate(s.db, email, w)
    && s.db.verifications[v].createdAt < s.db.verifications[w].createdAt
    && s.db.verifications[v].userId == uid && s.db.verifications[w].userId == uid
    && Good(s, v) && Good(s, w)
  }

  /** The newer one verifies and activates the user; then the older one verifies too. */
  lemma BothVerify(s: State, uid: Id, email: string, v: Id, w: Id)
    requires TwoOtps(s, uid, email, v, w)
    ensures var t1 := At(s.clock, VerifyOtp(email, s.db.verifications[w].tokenHash));
      var t2 := At(s.clock, VerifyOtp(email, s.db.verifications[v].tokenHash));
      && Admissible(s, t1) && Admissible(Step(s, t1), t2)
      && Apply(Step(s, t1).db, s.clock, t2.event).result == Ok(Verified(false))
  {
    var t1 := At(s.clock, VerifyOtp(email, s.db.verifications[w].tokenHash));
    assert IsNewestOtp(s.db, email, w);
    NewestVerifies(s, email, w);
    ActivateTakesOut(s.db, email, w, s.clock);
    OldOneVerifies(Step(s, t1), email, v, w);
  }

  lemma OldOneVerifies(s: State, email: string, v: Id, w: Id)
    requires OtpCandidate(s.db, email, v) && Good(s, v) && s.db.users[s.db.verifications[v].userId].emailVerifiedAt.Some?
    requires forall x | OtpCandidate(s.db, email, x) :: x == v
    ensures var t2 := At(s.clock, VerifyOtp(email, s.db.verifications[v].tokenHash));
      Admissible(s, t2) && Apply(s.db, s.clock, t2.event).result == Ok(Verified(false))
  {
    assert IsNewestOtp(s.db, email, v);
    NewestVerifies(s, email, v);
    NewestDecides(s.db, email, v);
  }

  ghost predicate TwoMails(clock: Time, register: Timed, first: Timed) {
    && register.event.Register? && first.event.Resend? && clock <= register.now <= first.now
    && first.event.email == register.event.email && NewRowSet(register.event.ids, {register.event.uid})
    && NewRowSet(first.event.ids, {register.event.uid} + RowSet(register.event.ids))
    && first.event.tokens.magicHash != register.event.tokens.magicHash
    && first.now < register.event.tokens.expiresAt
  }

  ghost function DrawnByTwo(register: Timed, first: Timed): set<Id>
    requires register.event.Register? && first.event.Resend?
  {
    {register.event.uid} + RowSet(register.event.ids) + RowSet(first.event.ids)
  }

  ghost function LinksOfTwo(register: Timed, first: Timed): set<string>
    requires register.event.Register? && first.event.Resend?
  {
    {register.event.tokens.magicHash} + {first.event.tokens.magicHash}
  }

  lemma OtpsOfTwoMails(clock: Time, register: Timed, first: Timed)
    requires TwoMails(clock, register, first)
    ensures var s, e, f, k := Step(Step(Start(clock), register), first), register.event, first.event,
        FirstTicket(clock, register, first);
      && OneUser(s, e.uid, e.email, DrawnByTwo(register, first), LinksOfTwo(register, first))
      && k in s.tickets && k.rows == f.ids && s.clock == first.now
      && HasOtp(s, e.ids.otpId, e.uid, e.tokens.otpHash, first.now, register.now)
      && e.ids.otpId in k.revoked && k.revoked[e.ids.otpId] == e.tokens.expiresAt
      && HasOtp(s, f.ids.otpId, e.uid, f.tokens.otpHash, f.tokens.expiresAt, first.now)
      && OtpsAmong(s, {e.ids.otpId} + {f.ids.otpId})
  {
    var e, s1, k := register.event, Step(Start(clock), register), FirstTicket(clock, register, first);
    FirstUser(clock, register);
    RegisterGivesOtp(clock, register);
    NextResend(s1, first, e.uid, {e.uid} + RowSet(e.ids), {e.tokens.magicHash});
    ResendGivesOtp(s1, first, k, {e.ids.otpId});
    ResendExpiresOtp(s1, first, k, e.ids.otpId, e.tokens.otpHash, e.tokens.expiresAt, register.now);
  }

  /** After the three mails: what is known of the OTP rows. */
  lemma OtpsOfThreeMails(clock: Time, register: Timed, first: Timed, second: Timed)
    requires ThreeMails(clock, register, first, second) && first.now < register.event.tokens.expiresAt
    ensures var s, e, f, g, k := AfterThree(clock, register, first, second), register.event, first.event, second.event,
        FirstTicket(clock, register, first);
      && HasOtp(s, e.ids.otpId, e.uid, e.tokens.otpHash, first.now, register.now)
      && e.ids.otpId in k.revoked && k.revoked[e.ids.otpId] == e.tokens.expiresAt
      && f.ids.otpId in s.db.verifications && s.db.verifications[f.ids.otpId].userId == e.uid
      && s.db.verifications[f.ids.otpId].verifiedAt.None? && k.rows == f.ids
      && HasOtp(s, g.ids.otpId, e.uid, g.tokens.otpHash, g.tokens.expiresAt, second.now)
      && OtpsAmong(s, {e.ids.otpId, f.ids.otpId, g.ids.otpId})
      && g.ids.otpId !in k.revoked && !Creates(k, g.ids.otpId)
  {
    var e, f := register.event, first.event;
    var s2, k := Step(Step(Start(clock), register), first), FirstTicket(clock, register, first);
    OtpsOfTwoMails(clock, register, first);
    NextResend(s2, second, e.uid, DrawnByTwo(register, first), LinksOfTwo(register, first));
    var k2 := TicketFor(s2.db, e.uid, second.now, second.event.ids);
    OtpsOfSecond(s2, second, k2, k, e.ids.otpId, e.tokens.otpHash, first.now, register.now, f.ids.otpId,
                 f.tokens.otpHash, f.tokens.expiresAt, first.now);
  }

  lemma OtpsOfSecond(
    s: State, t: Timed, k2: Ticket, k: Ticket, v: Id, hash: string, expiresAt: Time, createdAt: Time,
    u: Id, hash': string, expiresAt': Time, createdAt': Time)
    requires OnlyDrawnIds(s) && Admissible(s, t) && Accepts(s, t, k2) && k in s.tickets && expiresAt <= t.now
    requires HasOtp(s, v, k2.userId, hash, expiresAt, createdAt) && HasOtp(s, u, k2.userId, hash', expiresAt', createdAt')
    requires OtpsAmong(s, {v} + {u})
    ensures HasOtp(Step(s, t), v, k2.userId, hash, expiresAt, createdAt)
    ensures u in Step(s, t).db.verifications && Step(s, t).db.verifications[u].userId == k2.userId
    ensures Step(s, t).db.verifications[u].verifiedAt.None?
    ensures HasOtp(Step(s, t), t.event.ids.otpId, k2.userId, t.event.tokens.otpHash, t.event.tokens.expiresAt, t.now)
    ensures OtpsAmong(Step(s, t), {v, u, t.event.ids.otpId})
    ensures t.event.ids.otpId !in k.revoked && !Creates(k, t.event.ids.otpId)
  {
    DrawnIdsAreNew(s, t);
    ResendExpiresOtp(s, t, k2, v, hash, expiresAt, createdAt);
    ResendExpiresOtp(s, t, k2, u, hash', expiresAt', createdAt');
    ResendGivesOtp(s, t, k2, {v} + {u});
  }

  lemma TwoOtpsAreLeft(clock: Time, register: Timed, first: Timed, second: Timed, now: Time)
    requires ThreeMails(clock, register, first, second) && register.now < second.now <= now
    requires now < register.event.tokens.expiresAt && now < second.event.tokens.expiresAt
    ensures var t := At(now, Rollback(FirstTicket(clock, register, first)));
      var s := AfterThree(clock, register, first, second);
      && Admissible(s, t) && Step(s, t).clock == now
      && TwoOtps(Step(s, t), register.event.uid, register.event.email, register.event.ids.otpId, second.event.ids.otpId)
      && Step(s, t).db.verifications[register.event.ids.otpId].tokenHash == register.event.tokens.otpHash
      && Step(s, t).db.verifications[second.event.ids.otpId].tokenHash == second.event.tokens.otpHash
  {
    var s, k := AfterThree(clock, register, first, second), FirstTicket(clock, register, first);
    ThreeMailsAreSent(clock, register, first, second);
    OtpsOfThreeMails(clock, register, first, second);
    RollbackOfOtps(
      s, now, k, register.event.ids.otpId, second.event.ids.otpId, register.event.tokens.otpHash, first.now, register.now);
  }

  /**
   The rollback of the first resend brings the OTP of the registration back; the OTP of the second resend verifies, as
   it should, and then so does that of the registration, although two resends had superseded it.
   */
  lemma LateRollbackLetsOldOtpVerify(clock: Time, register: Timed, first: Timed, second: Timed, now: Time)
    requires ThreeMails(clock, register, first, second) && register.now < second.now <= now
    requires now < register.event.tokens.expiresAt && now < second.event.tokens.expiresAt
    ensures var rollback := At(now, Rollback(FirstTicket(clock, register, first)));
      var newest := At(now, VerifyOtp(register.event.email, second.event.tokens.otpHash));
      var oldest := At(now, VerifyOtp(register.event.email, register.event.tokens.otpHash));
      && IsRun(Start(clock), [register, first, second] + [rollback] + [newest] + [oldest])
      && Apply(Final(Start(clock), [register, first, second] + [rollback] + [newest]).db, now, oldest.event).result
         == Ok(Verified(false))
  {
    var run, s3 := [register, first, second], AfterThree(clock, register, first, second);
    var rollback := At(now, Rollback(FirstTicket(clock, register, first)));
    ThreeMailsAreSent(clock, register, first, second);
    TwoOtpsAreLeft(clock, register, first, second, now);
    OldOtpAfter(
      Start(clock), run, s3, rollback, register.event.uid, register.event.email, register.event.ids.otpId,
      second.event.ids.otpId);
  }

  lemma OldOtpAfter(start: State, run: seq<Timed>, s: State, t: Timed, uid: Id, email: string, v: Id, w: Id)
    requires IsRun(start, run) && Final(start, run) == s && Admissible(s, t) && TwoOtps(Step(s, t), uid, email, v, w)
    ensures var rows, now := Step(s, t).db.verifications, Step(s, t).clock;
      var t1, t2 := At(now, VerifyOtp(email, rows[w].tokenHash)), At(now, VerifyOtp(email, rows[v].tokenHash));
      && IsRun(start, run + [t] + [t1] + [t2])
      && Apply(Final(start, run + [t] + [t1]).db, now, t2.event).result == Ok(Verified(false))
  {
    var rows, now := Step(s, t).db.verifications, Step(s, t).clock;
    var t1, t2 := At(now, VerifyOtp(email, rows[w].tokenHash)), At(now, VerifyOtp(email, rows[v].tokenHash));
    BothVerify(Step(s, t), uid, email, v, w);
    RunAppend(start, run, t);
    RunAppend(start, run + [t], t1);
    RunAppend(start, run + [t] + [t1], t2);
  }
}
