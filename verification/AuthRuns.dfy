/**
 Runs of the auth store: any sequence of its transactions, executed one after the other, with a clock that
 never goes back and ids that are never drawn twice.
 */
module AuthRuns {
  import opened Base
  import opened Tables
  import opened Transactions

  datatype Event =
    | Register(email: string, uid: Id, tokens: Tokens, ids: NewRows)
    | Create(uid: Id, tokens: Tokens, ids: NewRows)
    | Resend(email: string, tokens: Tokens, ids: NewRows)
    | Rollback(ticket: Ticket)
    | VerifyOtp(email: string, hash: string)
    | VerifyMagic(hash: string)
    | Cleanup(uid: Id)
    | BootstrapOwner(email: string, passwordOk: bool, tenantTaken: bool, uid: Id)
    | LogIn(email: string, passwordOk: bool, hash: string, expiresAt: Time, sessionId: Id)
    | Rotate(oldHash: string, newHash: string, expiresAt: Time, sessionId: Id)
    | Logout(hash: string)
    | LogoutAll(uid: Id)

  datatype Timed = At(now: Time, event: Event)

  /** `tickets` are the resends that may still be rolled back; `used` are all ids ever drawn. */
  datatype State = State(db: Db, clock: Time, used: set<Id>, tickets: set<Ticket>)

  ghost function Apply(db: Db, now: Time, e: Event): Outcome {
    match e
    case Register(email, uid, tokens, ids) => RegisterWithVerification(db, email, uid, tokens, now, ids)
    case Create(uid, tokens, ids) => CreateVerification(db, uid, tokens, now, ids)
    case Resend(email, tokens, ids) => ResendVerification(db, email, tokens, now, ids)
    case Rollback(ticket) => Outcome(RollbackResend(db, ticket, now), Ok(Done))
    case VerifyOtp(email, hash) => VerifyEmailOtp(db, email, hash, now)
    case VerifyMagic(hash) => VerifyMagicLink(db, hash, now)
    case Cleanup(uid) => CleanupPendingRegistration(db, uid)
    case BootstrapOwner(email, passwordOk, tenantTaken, uid) => Bootstrap(db, email, passwordOk, tenantTaken, uid)
    case LogIn(email, passwordOk, hash, expiresAt, x) => Login(db, email, passwordOk, hash, expiresAt, x)
    case Rotate(oldHash, newHash, expiresAt, x) => RotateRefreshToken(db, oldHash, newHash, expiresAt, now, x)
    case Logout(hash) => Outcome(db.(sessions := RevokeToken(db.sessions, hash, now)), Ok(Done))
    case LogoutAll(uid) =>
      Outcome(
        db.(sessions := RevokeUser(db.sessions, uid, now)),
        Ok(RevokedAll(|Unrevoked(db.sessions, uid)|)))
  }

  function RowIds(ids: NewRows): seq<Id> {
    [ids.otpId, ids.magicId, ids.recordId]
  }

  function DrawnIds(e: Event): seq<Id> {
    match e
    case Register(_, uid, _, ids) => [uid] + RowIds(ids)
    case Create(_, _, ids) => RowIds(ids)
    case Resend(_, _, ids) => RowIds(ids)
    case BootstrapOwner(_, _, _, uid) => [uid]
    case LogIn(_, _, _, _, x) => [x]
    case Rotate(_, _, _, x) => [x]
    case _ => []
  }

  ghost predicate Admissible(s: State, t: Timed) {
    && s.clock <= t.now
    && Distinct(DrawnIds(t.event))
    && (forall i | 0 <= i < |DrawnIds(t.event)| :: DrawnIds(t.event)[i] !in s.used)
    && (t.event.Rollback? ==> t.event.ticket in s.tickets)
  }

  ghost function NextTickets(s: State, t: Timed): set<Ticket> {
    if t.event.Rollback? then s.tickets - {t.event.ticket}
    else
      var result := Apply(s.db, t.now, t.event).result;
      if result.Ok? && result.value.Resent? then s.tickets + {result.value.ticket} else s.tickets
  }

  ghost function Step(s: State, t: Timed): State {
    State(
      Apply(s.db, t.now, t.event).db,
      t.now,
      s.used + (set i | 0 <= i < |DrawnIds(t.event)| :: DrawnIds(t.event)[i]),
      NextTickets(s, t))
  }

  ghost predicate IsRun(s: State, run: seq<Timed>)
    decreases |run|
  {
    run == [] || (Admissible(s, run[0]) && IsRun(Step(s, run[0]), run[1..]))
  }

  ghost function Final(s: State, run: seq<Timed>): State
    decreases |run|
  {
    if run == [] then s else Final(Step(s, run[0]), run[1..])
  }

  lemma {:induction false} RunAppend(s: State, run: seq<Timed>, t: Timed)
    requires IsRun(s, run) && Admissible(Final(s, run), t)
    ensures IsRun(s, run + [t]) && Final(s, run + [t]) == Step(Final(s, run), t)
    decreases |run|
  {
    if run == [] {
      assert (run + [t])[1..] == [];
    } else {
      assert (run + [t])[1..] == run[1..] + [t];
      RunAppend(Step(s, run[0]), run[1..], t);
    }
  }

  /** Every id in a table or in an outstanding ticket has been drawn before. */
  ghost predicate OnlyDrawnIds(s: State) {
    && s.db.users.Keys <= s.used
    && s.db.verifications.Keys <= s.used
    && s.db.records.Keys <= s.used
    && s.db.sessions.Keys <= s.used
    && forall t | t in s.tickets ::
         t.rows.otpId in s.used && t.rows.magicId in s.used && t.rows.recordId in s.used && t.revoked.Keys <= s.used
  }

  /** An empty database, observed from some instant on. */
  function Start(clock: Time): State {
    State(EMPTY, clock, {}, {})
  }
}
