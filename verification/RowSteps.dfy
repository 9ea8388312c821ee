/** What one step can do to one verification row. */
module RowSteps {
  import opened Base
  import opened Tables
  import opened Transactions
  import opened AuthRuns
  import opened AuthInvariants

  /** The row is gone, or nothing but its expiry changed. */
  ghost predicate OnlyExpiryMoves(rows: map<Id, Verification>, rows': map<Id, Verification>, v: Id)
    requires v in rows
  {
    v in rows' ==> rows'[v] == rows[v].(expiresAt := rows'[v].expiresAt)
  }

  lemma NewRowsLeaveTheOthers(rows: map<Id, Verification>, uid: Id, tokens: Tokens, now: Time, ids: NewRows, v: Id)
    requires v in rows && v != ids.otpId && v != ids.magicId
    ensures v in WithVerification(rows, uid, tokens, now, ids)
    ensures WithVerification(rows, uid, tokens, now, ids)[v] == rows[v]
  {
  }

  lemma ResendMovesOnlyExpiry(db: Db, email: string, tokens: Tokens, now: Time, ids: NewRows, v: Id)
    requires v in db.verifications && v != ids.otpId && v != ids.magicId
    ensures v in ResendVerification(db, email, tokens, now, ids).db.verifications
    ensures OnlyExpiryMoves(db.verifications, ResendVerification(db, email, tokens, now, ids).db.verifications, v)
  {
  }

  lemma RollbackMovesOnlyExpiry(db: Db, ticket: Ticket, now: Time, v: Id)
    requires v in db.verifications
    ensures OnlyExpiryMoves(db.verifications, RollbackResend(db, ticket, now).verifications, v)
  {
  }

  lemma SessionEventsKeepRows(db: Db, now: Time, e: Event)
    requires e.BootstrapOwner? || e.LogIn? || e.Rotate? || e.Logout? || e.LogoutAll?
    ensures Apply(db, now, e).db.verifications == db.verifications
  {
  }

  /** Apart from the two verify calls, a step at most deletes a row or moves its expiry. */
  lemma OtherStepsMoveOnlyExpiry(s: State, t: Timed, v: Id)
    requires OnlyDrawnIds(s) && Admissible(s, t) && !t.event.VerifyOtp? && !t.event.VerifyMagic?
    requires v in s.db.verifications
    ensures OnlyExpiryMoves(s.db.verifications, Step(s, t).db.verifications, v)
  {
    DrawnIdsAreNew(s, t);
    match t.event
    case Register(_, uid, tokens, ids) => NewRowsLeaveTheOthers(s.db.verifications, uid, tokens, t.now, ids, v);
    case Create(uid, tokens, ids) => NewRowsLeaveTheOthers(s.db.verifications, uid, tokens, t.now, ids, v);
    case Resend(email, tokens, ids) => ResendMovesOnlyExpiry(s.db, email, tokens, t.now, ids, v);
    case Rollback(ticket) => RollbackMovesOnlyExpiry(s.db, ticket, t.now, v);
    case Cleanup(_) =>
    case _ => SessionEventsKeepRows(s.db, t.now, t.event);
  }

  /** An OTP request touches only the row it compares with, and there at most the counter or the verified mark. */
  lemma OtpStepTouchesComparedRow(db: Db, email: string, hash: string, now: Time, v: Id)
    requires v in db.verifications
    ensures var rows, rows' := db.verifications, VerifyEmailOtp(db, email, hash, now).db.verifications;
      && v in rows'
      && (rows'[v] == rows[v]
          || (&& ComparedOtp(db, email, now) == Some(v)
              && rows[v].tokenType == Otp && rows[v].verifiedAt.None? && rows[v].expiresAt > now
              && rows[v].attempts <= MAX_OTP_ATTEMPTS
              && rows'[v] == if rows[v].tokenHash == hash then rows[v].(verifiedAt := Some(now))
                             else rows[v].(attempts := rows[v].attempts + 1)))
  {
  }

  /** A magic-link request touches only a live magic-link row, and there only the verified mark. */
  lemma MagicStepTouchesLiveRow(db: Db, hash: string, now: Time, v: Id)
    requires v in db.verifications
    ensures var rows, rows' := db.verifications, VerifyMagicLink(db, hash, now).db.verifications;
      && v in rows'
      && (rows'[v] == rows[v]
          || (&& rows[v].tokenType == MagicLink && rows[v].verifiedAt.None? && rows[v].expiresAt > now
              && rows'[v] == rows[v].(verifiedAt := Some(now))))
  {
  }

  /** The tables never get back a row that was deleted. */
  lemma GoneStaysGone(s: State, t: Timed, v: Id)
    requires OnlyDrawnIds(s) && Admissible(s, t) && v in s.used && v !in s.db.verifications
    ensures v in Step(s, t).used && v !in Step(s, t).db.verifications
  {
    assert forall i | 0 <= i < |DrawnIds(t.event)| :: DrawnIds(t.event)[i] !in s.used;
    TablesGrowByDrawnIds(s.db, t.now, t.event);
  }

  lemma RollbackOfOthersKeepsRow(db: Db, ticket: Ticket, now: Time, v: Id)
    requires v in db.verifications && v !in ticket.revoked
    ensures var rows' := RollbackResend(db, ticket, now).verifications;
      v in rows' ==> rows'[v] == db.verifications[v]
  {
  }

  lemma ResendKeepsExpiredRow(db: Db, email: string, tokens: Tokens, now: Time, ids: NewRows, v: Id)
    requires v in db.verifications && v != ids.otpId && v != ids.magicId && db.verifications[v].expiresAt <= now
    ensures var out := ResendVerification(db, email, tokens, now, ids);
      && v in out.db.verifications && out.db.verifications[v] == db.verifications[v]
      && (out.result.Ok? && out.result.value.Resent? ==> v !in out.result.value.ticket.revoked)
  {
  }

  /** The remaining steps keep the expiry of every row they keep. */
  lemma OtherStepKeepsExpiry(s: State, t: Timed, v: Id)
    requires OnlyDrawnIds(s) && Admissible(s, t) && v in s.db.verifications
    requires !t.event.Resend? && !t.event.Rollback?
    ensures var rows, rows' := s.db.verifications, Step(s, t).db.verifications;
      v in rows' ==> rows'[v].expiresAt == rows[v].expiresAt
  {
    DrawnIdsAreNew(s, t);
    match t.event
    case VerifyOtp(email, hash) => OtpStepTouchesComparedRow(s.db, email, hash, t.now, v);
    case VerifyMagic(hash) => MagicStepTouchesLiveRow(s.db, hash, t.now, v);
    case _ =>
  }

  /** A new ticket holds only rows that were live at its resend. */
  lemma NewTicketsHoldLiveRows(s: State, t: Timed, k: Ticket, v: Id)
    requires k in NextTickets(s, t) && k !in s.tickets && v in k.revoked
    ensures v in s.db.verifications && s.db.verifications[v].expiresAt > t.now
  {
  }

  /** An expired row stays as it is, or goes, whatever happens except the rollback of a resend that revoked it. */
  lemma ExpiredRowStays(s: State, t: Timed, v: Id)
    requires OnlyDrawnIds(s) && Admissible(s, t) && v in s.db.verifications
    requires s.db.verifications[v].expiresAt <= t.now
    requires t.event.Rollback? ==> v !in t.event.ticket.revoked
    ensures var rows, rows' := s.db.verifications, Step(s, t).db.verifications;
      v in rows' ==> rows'[v] == rows[v]
  {
    DrawnIdsAreNew(s, t);
    match t.event
    case Resend(email, tokens, ids) => ResendKeepsExpiredRow(s.db, email, tokens, t.now, ids, v);
    case Rollback(ticket) => RollbackOfOthersKeepsRow(s.db, ticket, t.now, v);
    case VerifyOtp(email, hash) => OtpStepTouchesComparedRow(s.db, email, hash, t.now, v);
    case VerifyMagic(hash) => MagicStepTouchesLiveRow(s.db, hash, t.now, v);
    case _ =>
      OtherStepsMoveOnlyExpiry(s, t, v);
      OtherStepKeepsExpiry(s, t, v);
  }
}
