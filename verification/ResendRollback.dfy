/**
 Compensation: any interleaving of resends and rollbacks, for any number of users, in which every resend is
 rolled back once, in any order, leaves the tables as they were.
 The key is `Before`: the tables with the work of all outstanding resends taken away. No step changes it.
 */
module ResendRollback {
  import opened Base
  import opened Tables
  import opened Transactions
  import opened AuthRuns
  import opened AuthInvariants
  import opened HeldRows

  /** The steps of a compensated run. Sessions live in another table and may do what they like. */
  ghost predicate Compensated(e: Event) {
    e.Resend? || e.Rollback? || e.LogIn? || e.Rotate? || e.Logout? || e.LogoutAll?
  }

  ghost predicate CompensatedRun(run: seq<Timed>) {
    forall i | 0 <= i < |run| :: Compensated(run[i].event)
  }

  // ----- the overlay -----

  ghost predicate CreatedByOne(tickets: set<Ticket>, v: Id) {
    exists t | t in tickets :: Creates(t, v)
  }

  ghost predicate RecordOfOne(tickets: set<Ticket>, r: Id) {
    exists t | t in tickets :: r == t.rows.recordId
  }

  /** The expiry that row `v` would have without the outstanding resends. */
  ghost function OldExpiry(tickets: set<Ticket>, v: Id, current: Time): Time {
    if t :| t in tickets && v in t.revoked then t.revoked[v] else current
  }

  ghost predicate HeldOnce(tickets: set<Ticket>, v: Id) {
    forall t1, t2 | t1 in tickets && t2 in tickets && v in t1.revoked && v in t2.revoked :: t1 == t2
  }

  /** With one holder, the old expiry is the one that holder wrote down. */
  lemma OldExpiryOfHeld(tickets: set<Ticket>, v: Id, current: Time)
    requires HeldOnce(tickets, v)
    ensures forall t | t in tickets && v in t.revoked :: OldExpiry(tickets, v, current) == t.revoked[v]
    ensures (forall t | t in tickets :: v !in t.revoked) ==> OldExpiry(tickets, v, current) == current
  {
  }

  ghost function RowBefore(rows: map<Id, Verification>, tickets: set<Ticket>, v: Id): Verification
    requires v in rows
  {
    rows[v].(expiresAt := OldExpiry(tickets, v, rows[v].expiresAt))
  }

  ghost function RowsBefore(rows: map<Id, Verification>, tickets: set<Ticket>): map<Id, Verification> {
    map v | v in rows && !CreatedByOne(tickets, v) :: RowBefore(rows, tickets, v)
  }

  ghost function RecordsBefore(records: map<Id, EmailRecord>, tickets: set<Ticket>): map<Id, EmailRecord> {
    map r | r in records && !RecordOfOne(tickets, r) :: records[r]
  }

  // ----- what the outstanding tickets know -----

  /** The rows and the record that the resend made are still there and still belong to its user. */
  ghost predicate OwnsItsRows(db: Db, t: Ticket) {
    && t.rows.otpId in db.verifications && t.rows.magicId in db.verifications && t.rows.otpId != t.rows.magicId
    && db.verifications[t.rows.otpId].userId == t.userId && db.verifications[t.rows.otpId].verifiedAt.None?
    && db.verifications[t.rows.magicId].userId == t.userId && db.verifications[t.rows.magicId].verifiedAt.None?
    && t.rows.recordId in db.records && db.records[t.rows.recordId].userId == Some(t.userId)
    && t.rows.recordId !in db.history
  }

  ghost predicate MadeApart(t1: Ticket, t2: Ticket) {
    !Creates(t2, t1.rows.otpId) && !Creates(t2, t1.rows.magicId) && t1.rows.recordId != t2.rows.recordId
  }

  /** Each revoked row is held by exactly one outstanding ticket, and each ticket's own rows are all still there. */
  ghost predicate Ledger(s: State) {
    && OnHold(s)
    && (forall t | t in s.tickets :: OwnsItsRows(s.db, t))
    && (forall t1, t2 | t1 in s.tickets && t2 in s.tickets && t1 != t2 :: MadeApart(t1, t2))
  }

  // ----- a resend -----

  lemma ResendGivesTicket(db: Db, email: string, tokens: Tokens, now: Time, ids: NewRows)
    ensures var out := ResendVerification(db, email, tokens, now, ids);
      if out.result.Ok? then
        var u := UserByEmail(db.users, email);
        && u.Some?
        && out.result == Ok(Resent(Ticket(u.value, ids, Some(now), LiveExpiries(db.verifications, u.value, now))))
        && out.db.verifications == WithVerification(Revoke(db.verifications, u.value, now), u.value, tokens, now, ids)
        && out.db.records
           == db.records[ids.recordId := EmailRecord(Some(u.value), db.users[u.value].email, None, Queued, now, now)]
        && out.db.history == db.history && out.db.users == db.users && out.db.sessions == db.sessions
      else out.db == db
  {
  }

  /** What a resend does to the rows, row by row. */
  ghost predicate ResentRows(rows: map<Id, Verification>, rows': map<Id, Verification>, t: Ticket) {
    && rows'.Keys == rows.Keys + {t.rows.otpId, t.rows.magicId}
    && t.revoked.Keys <= rows.Keys
    && (forall v | v in t.revoked :: t.revoked[v] == rows[v].expiresAt)
    && forall v | v in rows ::
         rows'[v] == if v in t.revoked && t.revokedAt.Some? then rows[v].(expiresAt := t.revokedAt.value) else rows[v]
  }

  lemma ResendRowByRow(rows: map<Id, Verification>, uid: Id, tokens: Tokens, now: Time, ids: NewRows)
    requires ids.otpId !in rows && ids.magicId !in rows
    ensures ResentRows(
      rows,
      WithVerification(Revoke(rows, uid, now), uid, tokens, now, ids),
      Ticket(uid, ids, Some(now), LiveExpiries(rows, uid, now)))
  {
  }

  /** Which rows were there before does not change: the new rows are the new ticket's. */
  lemma KeysBeforeAfterResend(
    rows: map<Id, Verification>, rows': map<Id, Verification>, tickets: set<Ticket>, t: Ticket, v: Id)
    requires ResentRows(rows, rows', t) && t.rows.otpId !in rows && t.rows.magicId !in rows
    ensures v in rows' && !CreatedByOne(tickets + {t}, v) <==> v in rows && !CreatedByOne(tickets, v)
  {
    CreatedAfterAdding(tickets, t, v);
  }

  /** Nor what they were: a revoked row's old expiry is in the new ticket. */
  lemma RowBeforeAfterResend(
    rows: map<Id, Verification>, rows': map<Id, Verification>, tickets: set<Ticket>, t: Ticket, v: Id)
    requires ResentRows(rows, rows', t) && t.revokedAt.Some? && v in rows && HeldOnce(tickets, v)
    requires forall t0 | t0 in tickets && v in t.revoked :: v !in t0.revoked
    ensures RowBefore(rows', tickets + {t}, v) == RowBefore(rows, tickets, v)
  {
    OldExpiryAfterAdding(tickets, t, v, rows'[v].expiresAt);
  }

  /** The revoked and extended table, seen without the new ticket, is the old table. */
  lemma RowsBeforeAfterResend(
    rows: map<Id, Verification>, rows': map<Id, Verification>, tickets: set<Ticket>, t: Ticket)
    requires ResentRows(rows, rows', t) && t.revokedAt.Some?
    requires t.rows.otpId !in rows && t.rows.magicId !in rows
    requires forall v | v in rows :: HeldOnce(tickets, v)
    requires forall t0 | t0 in tickets :: NoneInCommon(t, t0)
    ensures RowsBefore(rows', tickets + {t}) == RowsBefore(rows, tickets)
  {
    forall v ensures v in RowsBefore(rows', tickets + {t}) <==> v in RowsBefore(rows, tickets) {
      KeysBeforeAfterResend(rows, rows', tickets, t, v);
    }
    forall v | v in RowsBefore(rows, tickets)
      ensures RowsBefore(rows', tickets + {t})[v] == RowsBefore(rows, tickets)[v]
    {
      RowBeforeAfterResend(rows, rows', tickets, t, v);
    }
  }

  lemma CreatedAfterAdding(tickets: set<Ticket>, t: Ticket, v: Id)
    ensures CreatedByOne(tickets + {t}, v) <==> CreatedByOne(tickets, v) || Creates(t, v)
    ensures RecordOfOne(tickets + {t}, v) <==> RecordOfOne(tickets, v) || v == t.rows.recordId
  {
    assert t in tickets + {t};
    assert forall t0 | t0 in tickets :: t0 in tickets + {t};
  }

  lemma OldExpiryAfterAdding(tickets: set<Ticket>, t: Ticket, v: Id, current: Time)
    requires HeldOnce(tickets, v)
    requires forall t0 | t0 in tickets && v in t.revoked :: v !in t0.revoked
    ensures HeldOnce(tickets + {t}, v)
    ensures OldExpiry(tickets + {t}, v, current)
      == if v in t.revoked then t.revoked[v] else OldExpiry(tickets, v, current)
  {
    assert t in tickets + {t};
    OldExpiryOfHeld(tickets + {t}, v, current);
    OldExpiryOfHeld(tickets, v, current);
    assert forall t0 | t0 in tickets :: t0 in tickets + {t};
  }

  // ----- a rollback -----

  /** What a rollback does to the rows, row by row. */
  ghost predicate RolledBackRows(rows: map<Id, Verification>, rows': map<Id, Verification>, t: Ticket) {
    && (forall v :: v in rows' <==> v in rows && !Creates(t, v))
    && (forall v | v in rows' ::
          rows'[v] == if v in t.revoked then rows[v].(expiresAt := t.revoked[v]) else rows[v])
  }

  lemma RollbackRowByRow(db: Db, t: Ticket, now: Time)
    requires Holds(db.verifications, t) && OwnsItsRows(db, t)
    ensures var db' := RollbackResend(db, t, now);
      && RolledBackRows(db.verifications, db'.verifications, t)
      && db'.records == db.records - {t.rows.recordId}
      && db'.history == db.history && db'.users == db.users && db'.sessions == db.sessions
  {
  }

  lemma KeysBeforeAfterRollback(
    rows: map<Id, Verification>, rows': map<Id, Verification>, tickets: set<Ticket>, t: Ticket, v: Id)
    requires t in tickets && RolledBackRows(rows, rows', t)
    ensures v in rows' && !CreatedByOne(tickets - {t}, v) <==> v in rows && !CreatedByOne(tickets, v)
  {
    assert tickets == (tickets - {t}) + {t};
    CreatedAfterAdding(tickets - {t}, t, v);
  }

  lemma RowBeforeAfterRollback(
    rows: map<Id, Verification>, rows': map<Id, Verification>, tickets: set<Ticket>, t: Ticket, v: Id)
    requires t in tickets && RolledBackRows(rows, rows', t) && v in rows' && HeldOnce(tickets, v)
    ensures RowBefore(rows', tickets - {t}, v) == RowBefore(rows, tickets, v)
  {
    assert tickets == (tickets - {t}) + {t};
    OldExpiryAfterAdding(tickets - {t}, t, v, rows[v].expiresAt);
    OldExpiryOfHeld(tickets - {t}, v, rows'[v].expiresAt);
  }

  /** Rolling a ticket back gives the table that the others see without it. */
  lemma RowsBeforeAfterRollback(
    rows: map<Id, Verification>, rows': map<Id, Verification>, tickets: set<Ticket>, t: Ticket)
    requires t in tickets && RolledBackRows(rows, rows', t)
    requires forall v | v in rows :: HeldOnce(tickets, v)
    ensures RowsBefore(rows', tickets - {t}) == RowsBefore(rows, tickets)
  {
    forall v ensures v in RowsBefore(rows', tickets - {t}) <==> v in RowsBefore(rows, tickets) {
      KeysBeforeAfterRollback(rows, rows', tickets, t, v);
    }
    forall v | v in RowsBefore(rows', tickets - {t})
      ensures RowsBefore(rows', tickets - {t})[v] == RowsBefore(rows, tickets)[v]
    {
      assert HeldOnce(tickets, v);
      RowBeforeAfterRollback(rows, rows', tickets, t, v);
    }
  }

  // ----- the ledger is kept -----

  lemma LedgerHoldsOnce(s: State)
    requires OnHold(s)
    ensures forall v | v in s.db.verifications :: HeldOnce(s.tickets, v)
  {
    forall v, t1, t2 | v in s.db.verifications && t1 in s.tickets && t2 in s.tickets && v in t1.revoked && v in t2.revoked
      ensures t1 == t2
    {
      assert t1 != t2 ==> HoldApart(s.db.verifications, t1, t2);
    }
  }

  /** A ticket outstanding before a resend still owns its rows afterwards, and none of the new ones. */
  lemma TicketSurvivesResend(s: State, db': Db, nt: Ticket, t0: Ticket)
    requires OnlyDrawnIds(s) && t0 in s.tickets && OwnsItsRows(s.db, t0)
    requires nt.rows.otpId !in s.used && nt.rows.magicId !in s.used && nt.rows.recordId !in s.used
    requires ResentRows(s.db.verifications, db'.verifications, nt)
    requires forall r | r in s.db.records :: r in db'.records && db'.records[r] == s.db.records[r]
    requires db'.history == s.db.history
    ensures OwnsItsRows(db', t0) && MadeApart(t0, nt) && MadeApart(nt, t0)
  {
  }

  lemma LedgerWithNewTicket(s: State, s': State, nt: Ticket)
    requires OnlyDrawnIds(s) && Ledger(s) && OnHold(s') && s'.tickets == s.tickets + {nt} && OwnsItsRows(s'.db, nt)
    requires nt.rows.otpId !in s.used && nt.rows.magicId !in s.used && nt.rows.recordId !in s.used
    requires ResentRows(s.db.verifications, s'.db.verifications, nt)
    requires forall r | r in s.db.records :: r in s'.db.records && s'.db.records[r] == s.db.records[r]
    requires s'.db.history == s.db.history
    ensures Ledger(s')
  {
    forall t0 | t0 in s.tickets ensures OwnsItsRows(s'.db, t0) && MadeApart(t0, nt) && MadeApart(nt, t0) {
      TicketSurvivesResend(s, s'.db, nt, t0);
    }
  }

  lemma ResendKeepsLedger(s: State, t: Timed)
    requires OnlyDrawnIds(s) && ForeignKeys(s.db) && Ledger(s) && Admissible(s, t) && t.event.Resend?
    ensures Ledger(Step(s, t))
  {
    var s', e := Step(s, t), t.event;
    DrawnIdsAreNew(s, t);
    StepKeepsHolds(s, t);
    ResendGivesTicket(s.db, e.email, e.tokens, t.now, e.ids);
    if Apply(s.db, t.now, e).result.Ok? {
      var nt := Apply(s.db, t.now, e).result.value.ticket;
      ResendRowByRow(s.db.verifications, nt.userId, e.tokens, t.now, e.ids);
      NewTicketOwnsItsRows(s, t, nt);
      LedgerWithNewTicket(s, s', nt);
    } else {
      assert s'.db == s.db && s'.tickets == s.tickets;
    }
  }

  lemma NewTicketOwnsItsRows(s: State, t: Timed, nt: Ticket)
    requires OnlyDrawnIds(s) && ForeignKeys(s.db) && Admissible(s, t) && t.event.Resend?
    requires Apply(s.db, t.now, t.event).result == Ok(Resent(nt))
    ensures OwnsItsRows(Step(s, t).db, nt)
  {
    DrawnIdsAreNew(s, t);
    ResendGivesTicket(s.db, t.event.email, t.event.tokens, t.now, t.event.ids);
  }

  lemma TicketSurvivesRollback(db: Db, t: Ticket, now: Time, t0: Ticket)
    requires Holds(db.verifications, t) && OwnsItsRows(db, t) && OwnsItsRows(db, t0) && MadeApart(t, t0) && MadeApart(t0, t)
    ensures OwnsItsRows(RollbackResend(db, t, now), t0)
  {
    RollbackRowByRow(db, t, now);
  }

  lemma RollbackKeepsLedger(s: State, t: Timed)
    requires OnlyDrawnIds(s) && Ledger(s) && Admissible(s, t) && t.event.Rollback?
    ensures Ledger(Step(s, t))
  {
    var s', ticket := Step(s, t), t.event.ticket;
    StepKeepsHolds(s, t);
    assert HoldsFirmly(s, ticket);
    forall t0 | t0 in s'.tickets ensures OwnsItsRows(s'.db, t0) {
      assert MadeApart(ticket, t0) && MadeApart(t0, ticket);
      TicketSurvivesRollback(s.db, ticket, t.now, t0);
    }
  }

  lemma SessionStepKeepsOtherTables(s: State, t: Timed)
    requires t.event.LogIn? || t.event.Rotate? || t.event.Logout? || t.event.LogoutAll?
    ensures var s' := Step(s, t);
      && s'.db.verifications == s.db.verifications && s'.db.records == s.db.records
      && s'.db.history == s.db.history && s'.db.users == s.db.users && s'.tickets == s.tickets
  {
  }

  lemma StepKeepsLedger(s: State, t: Timed)
    requires Inv(s) && Ledger(s) && Admissible(s, t) && Compensated(t.event)
    ensures Ledger(Step(s, t))
  {
    if t.event.Resend? {
      ResendKeepsLedger(s, t);
    } else if t.event.Rollback? {
      RollbackKeepsLedger(s, t);
    } else {
      SessionStepKeepsOtherTables(s, t);
    }
  }

  // ----- no step changes what was there before -----

  ghost predicate SameBefore(s: State, s': State) {
    && RowsBefore(s'.db.verifications, s'.tickets) == RowsBefore(s.db.verifications, s.tickets)
    && RecordsBefore(s'.db.records, s'.tickets) == RecordsBefore(s.db.records, s.tickets)
    && s'.db.history == s.db.history
    && s'.db.users == s.db.users
  }

  lemma NewTicketIsNew(s: State, t: Timed, nt: Ticket)
    requires OnlyDrawnIds(s) && Admissible(s, t) && t.event.Resend?
    requires Apply(s.db, t.now, t.event).result == Ok(Resent(nt))
    ensures nt !in s.tickets && nt in NextTickets(s, t)
  {
    DrawnIdsAreNew(s, t);
    assert nt in s.tickets ==> nt.rows.recordId in s.used;
  }

  lemma ResendKeepsBefore(s: State, t: Timed)
    requires Inv(s) && Ledger(s) && Admissible(s, t) && t.event.Resend?
    ensures SameBefore(s, Step(s, t))
  {
    var s', e := Step(s, t), t.event;
    DrawnIdsAreNew(s, t);
    ResendGivesTicket(s.db, e.email, e.tokens, t.now, e.ids);
    var out := Apply(s.db, t.now, e);
    if out.result.Ok? {
      var nt := out.result.value.ticket;
      ResendRowByRow(s.db.verifications, nt.userId, e.tokens, t.now, e.ids);
      LedgerHoldsOnce(s);
      forall t0 | t0 in s.tickets ensures NoneInCommon(nt, t0) {
        NewTicketIsNew(s, t, nt);
        NewTicketTakesFreeRows(s, t, nt, t0);
      }
      RowsBeforeAfterResend(s.db.verifications, s'.db.verifications, s.tickets, nt);
      forall r ensures RecordOfOne(s'.tickets, r) <==> RecordOfOne(s.tickets, r) || r == nt.rows.recordId {
        CreatedAfterAdding(s.tickets, nt, r);
      }
    }
  }

  lemma RecordsBeforeAfterRollback(records: map<Id, EmailRecord>, tickets: set<Ticket>, t: Ticket)
    requires t in tickets
    ensures RecordsBefore(records - {t.rows.recordId}, tickets - {t}) == RecordsBefore(records, tickets)
  {
    assert tickets == (tickets - {t}) + {t};
    forall r ensures RecordOfOne(tickets, r) <==> RecordOfOne(tickets - {t}, r) || r == t.rows.recordId {
      CreatedAfterAdding(tickets - {t}, t, r);
    }
  }

  lemma RollbackKeepsBefore(s: State, t: Timed)
    requires Ledger(s) && Admissible(s, t) && t.event.Rollback?
    ensures SameBefore(s, Step(s, t))
  {
    var ticket := t.event.ticket;
    assert HoldsFirmly(s, ticket);
    LedgerHoldsOnce(s);
    RollbackRowByRow(s.db, ticket, t.now);
    RowsBeforeAfterRollback(s.db.verifications, Step(s, t).db.verifications, s.tickets, ticket);
    RecordsBeforeAfterRollback(s.db.records, s.tickets, ticket);
  }

  /** At every step of every compensated run, the tables are the old ones with the outstanding resends laid over. */
  lemma {:induction false} CompensatedRunKeepsBefore(s: State, run: seq<Timed>)
    requires Inv(s) && Ledger(s) && IsRun(s, run) && CompensatedRun(run)
    ensures Ledger(Final(s, run)) && SameBefore(s, Final(s, run))
    decreases |run|
  {
    if run != [] {
      var t := run[0];
      StepKeepsInv(s, t);
      StepKeepsLedger(s, t);
      if t.event.Resend? {
        ResendKeepsBefore(s, t);
      } else if t.event.Rollback? {
        RollbackKeepsBefore(s, t);
      } else {
        SessionStepKeepsOtherTables(s, t);
      }
      CompensatedRunKeepsBefore(Step(s, t), run[1..]);
    }
  }

  lemma NothingOutstandingMeansUnchanged(db: Db)
    ensures RowsBefore(db.verifications, {}) == db.verifications
    ensures RecordsBefore(db.records, {}) == db.records
  {
  }

  /** Once every resend of the run has been rolled back, all four tables are exactly what they were. */
  lemma RolledBackRunRestoresTables(s: State, run: seq<Timed>)
    requires Inv(s) && s.tickets == {} && IsRun(s, run) && CompensatedRun(run)
    requires Final(s, run).tickets == {}
    ensures var db, db' := s.db, Final(s, run).db;
      && db'.verifications == db.verifications && db'.records == db.records
      && db'.history == db.history && db'.users == db.users
  {
    CompensatedRunKeepsBefore(s, run);
    NothingOutstandingMeansUnchanged(s.db);
    NothingOutstandingMeansUnchanged(Final(s, run).db);
  }
}
