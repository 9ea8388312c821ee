/**
 A resend whose enqueue fails and whose rollback succeeds leaves no trace, whatever the rest of the system does in
 between: transactions of other users, their enqueues and compensations, the worker, its timers and the callbacks.
 The rollback is shown to commute with every such action, so it might as well have come right after the resend.
 */
module FailedResend {
  import opened Base
  import opened Tables
  import opened Transactions
  import opened AuthRuns
  import opened AuthInvariants
  import opened HeldRows
  import opened ResendRollback
  import opened FailedRegistration
  import opened DeliveryFacts
  import opened Pipeline
  import opened Conservation
  import opened Sagas
  import opened WithoutRequest
  import opened Supersession
  import opened TokenRoundTrips

  /** The resend can be undone completely: its rows, its record and its holds are as it left them. */
  ghost predicate Undoable(db: Db, ticket: Ticket) {
    Holds(db.verifications, ticket) && OwnsItsRows(db, ticket)
  }

  /** The tables with the resend undone; its own instant decides, so the time of the rollback does not matter. */
  ghost function Undo(db: Db, ticket: Ticket): Db {
    RollbackResend(db, ticket, 0)
  }

  lemma UndoAtAnyTime(db: Db, ticket: Ticket, now: Time)
    requires ticket.revokedAt.Some?
    ensures RollbackResend(db, ticket, now) == Undo(db, ticket)
  {
  }

  lemma UndoShape(db: Db, ticket: Ticket)
    requires Undoable(db, ticket)
    ensures RolledBackRows(db.verifications, Undo(db, ticket).verifications, ticket)
    ensures Undo(db, ticket)
      == db.(verifications := Undo(db, ticket).verifications, records := db.records - {ticket.rows.recordId})
  {
    RollbackRowByRow(db, ticket, 0);
  }

  // ----- transactions of others -----

  lemma UndoneRowsOfOthers(db: Db, ticket: Ticket)
    requires Undoable(db, ticket)
    ensures RowsOfOthers(Undo(db, ticket).verifications, ticket.userId) == RowsOfOthers(db.verifications, ticket.userId)
  {
    UndoShape(db, ticket);
  }

  /** Undoing touches nothing of anybody else. */
  lemma UndoErased(db: Db, ticket: Ticket)
    requires Undoable(db, ticket)
    ensures Erase(Undo(db, ticket), ticket.userId) == Erase(db, ticket.userId)
  {
    var uid, r := ticket.userId, ticket.rows.recordId;
    UndoShape(db, ticket);
    UndoneRowsOfOthers(db, ticket);
    assert RecordsOf(Undo(db, ticket), uid) == RecordsOf(db, uid) - {r};
    assert (db.records - {r}) - (RecordsOf(db, uid) - {r}) == db.records - RecordsOf(db, uid);
    assert db.history - (RecordsOf(db, uid) - {r}) == db.history - RecordsOf(db, uid);
  }

  lemma UndoneOwnRows(db: Db, db': Db, ticket: Ticket)
    requires Undoable(db, ticket) && Undoable(db', ticket)
    requires SameOwnRows(db.verifications, db'.verifications, ticket.userId)
    ensures SameOwnRows(Undo(db, ticket).verifications, Undo(db', ticket).verifications, ticket.userId)
  {
    UndoShape(db, ticket);
    UndoShape(db', ticket);
  }

  /** What undoing makes of the user's own rows depends on nothing else. */
  lemma UndoOfOwn(db: Db, db': Db, ticket: Ticket)
    requires Undoable(db, ticket) && Undoable(db', ticket) && SameOwn(db, db', ticket.userId)
    ensures SameOwn(Undo(db, ticket), Undo(db', ticket), ticket.userId)
  {
    var uid, r := ticket.userId, ticket.rows.recordId;
    UndoneOwnRows(db, db', ticket);
    UndoShape(db, ticket);
    UndoShape(db', ticket);
    assert RecordsOf(Undo(db, ticket), uid) == RecordsOf(db, uid) - {r};
    assert RecordsOf(Undo(db', ticket), uid) == RecordsOf(db', uid) - {r};
  }

  /** The tables are determined by what belongs to a user and what does not. */
  lemma OwnAndOthersDetermine(db: Db, db': Db, uid: Id)
    requires Erase(db, uid) == Erase(db', uid) && SameOwn(db, db', uid)
    ensures db == db'
  {
    assert forall u :: u in db.users <==> u in Erase(db, uid).users || u == uid;
    assert forall u :: u in db'.users <==> u in Erase(db', uid).users || u == uid;
    assert db.users == db'.users by {
      assert forall u | u in db.users && u != uid :: db.users[u] == Erase(db, uid).users[u];
      assert forall u | u in db'.users && u != uid :: db'.users[u] == Erase(db', uid).users[u];
    }
    RowsDetermined(db.verifications, db'.verifications, uid);
    MapsDetermined(db.records, db'.records, RecordsOf(db, uid));
    MapsDetermined(db.history, db'.history, RecordsOf(db, uid));
  }

  lemma RowsDetermined(rows: map<Id, Verification>, rows': map<Id, Verification>, uid: Id)
    requires RowsOfOthers(rows, uid) == RowsOfOthers(rows', uid) && SameOwnRows(rows, rows', uid)
    ensures rows == rows'
  {
    forall v ensures (v in rows <==> v in rows') && (v in rows ==> rows[v] == rows'[v]) {
      assert v in RowsOfOthers(rows, uid) <==> v in RowsOfOthers(rows', uid);
      assert v in RowsOfOthers(rows, uid) ==> RowsOfOthers(rows, uid)[v] == RowsOfOthers(rows', uid)[v];
    }
  }

  lemma MapsDetermined<T>(m: map<Id, T>, m': map<Id, T>, own: set<Id>)
    requires m - own == m' - own
    requires forall r | r in own :: (r in m <==> r in m') && (r in m ==> m'[r] == m[r])
    ensures m == m'
  {
    forall r ensures (r in m <==> r in m') && (r in m ==> m[r] == m'[r]) {
      assert r in m - own <==> r in m' - own;
      assert r in m - own ==> (m - own)[r] == (m' - own)[r];
    }
  }

  /** The state with the resend undone here and now. */
  ghost function Without(s: State, ticket: Ticket): State {
    Step(s, At(s.clock, Rollback(ticket)))
  }

  lemma WithoutShape(s: State, ticket: Ticket)
    requires ticket.revokedAt.Some?
    ensures Without(s, ticket) == s.(db := Undo(s.db, ticket), tickets := s.tickets - {ticket})
  {
    UndoAtAnyTime(s.db, ticket, s.clock);
    assert DrawnIds(Rollback(ticket)) == [];
    assert s.used + (set i | 0 <= i < |DrawnIds(Rollback(ticket))| :: DrawnIds(Rollback(ticket))[i]) == s.used;
  }

  /** The resend is outstanding and untouched, and its user waits. */
  ghost predicate Outstanding(s: State, ticket: Ticket, email: string, links: set<string>) {
    && Inv(s) && OnHold(s) && ticket in s.tickets && Undoable(s.db, ticket)
    && Waiting(s.db, ticket.userId, email, links)
  }

  lemma OutstandingHolds(s: State, ticket: Ticket)
    requires OnHold(s) && ticket in s.tickets
    ensures Holds(s.db.verifications, ticket)
  {
    assert HoldsFirmly(s, ticket);
  }

  lemma OwnedRowsStay(db: Db, db': Db, ticket: Ticket)
    requires OwnsItsRows(db, ticket) && SameOwn(db, db', ticket.userId)
    ensures OwnsItsRows(db', ticket)
  {
    assert ticket.rows.recordId in RecordsOf(db, ticket.userId);
  }

  lemma TransactionKeepsOutstanding(s: State, t: Timed, ticket: Ticket, email: string, links: set<string>)
    requires Outstanding(s, ticket, email, links) && Admissible(s, t) && Elsewhere(t.event, ticket.userId, email, links)
    ensures Outstanding(Step(s, t), ticket, email, links)
  {
    StepKeepsInv(s, t);
    StepKeepsHolds(s, t);
    TransactionKeepsOwn(s, t, ticket.userId, email, links);
    OwnKeepsWaiting(s.db, Step(s, t).db, ticket.userId, email, links);
    OwnedRowsStay(s.db, Step(s, t).db, ticket);
    assert ticket in Step(s, t).tickets;
    OutstandingHolds(Step(s, t), ticket);
  }

  lemma WithoutIsSound(s: State, ticket: Ticket, email: string, links: set<string>)
    requires Outstanding(s, ticket, email, links)
    ensures Inv(Without(s, ticket)) && Waiting(Without(s, ticket).db, ticket.userId, email, links)
  {
    StepKeepsInv(s, At(s.clock, Rollback(ticket)));
    UndoAtAnyTime(s.db, ticket, s.clock);
    UndoShape(s.db, ticket);
  }

  /** On the tables, the rollback commutes with every transaction about somebody else, and the answer is the same. */
  lemma UndoCommutes(s: State, s0: State, t: Timed, ticket: Ticket, email: string, links: set<string>)
    requires Outstanding(s, ticket, email, links) && Outstanding(Step(s, t), ticket, email, links)
    requires Admissible(s, t) && Elsewhere(t.event, ticket.userId, email, links)
    requires s0.db == Undo(s.db, ticket) && Inv(s0) && Waiting(s0.db, ticket.userId, email, links) && Admissible(s0, t)
    ensures Apply(s0.db, t.now, t.event)
      == Outcome(Undo(Apply(s.db, t.now, t.event).db, ticket), Apply(s.db, t.now, t.event).result)
  {
    var uid, db', db0' := ticket.userId, Apply(s.db, t.now, t.event).db, Apply(s0.db, t.now, t.event).db;
    TransactionElsewhere(s, t, uid, email, links);
    TransactionElsewhere(s0, t, uid, email, links);
    UndoErased(s.db, ticket);
    UndoErased(db', ticket);
    assert Erase(db0', uid) == Erase(Undo(db', ticket), uid);
    TransactionKeepsOwn(s, t, uid, email, links);
    TransactionKeepsOwn(s0, t, uid, email, links);
    UndoOfOwn(s.db, db', ticket);
    SameOwnBack(s0.db, db0', uid);
    SameOwnTwice(db0', s0.db, Undo(db', ticket), uid);
    OwnAndOthersDetermine(db0', Undo(db', ticket), uid);
  }

  lemma SameOwnBack(db: Db, db': Db, uid: Id)
    requires SameOwn(db, db', uid)
    ensures SameOwn(db', db, uid)
  {
  }

  lemma TicketsCommute(s: State, s0: State, t: Timed, ticket: Ticket, uid: Id)
    requires OnlyDrawnIds(s) && Admissible(s, t) && ticket in s.tickets && s0.tickets == s.tickets - {ticket}
    requires t.event.Rollback? ==> t.event.ticket != ticket
    requires Apply(s0.db, t.now, t.event).result == Apply(s.db, t.now, t.event).result
    ensures NextTickets(s0, t) == NextTickets(s, t) - {ticket}
  {
    var result := Apply(s.db, t.now, t.event).result;
    if !t.event.Rollback? && result.Ok? && result.value.Resent? {
      assert t.event.Resend?;
      NewTicketIsNew(s, t, result.value.ticket);
    }
  }

  /** On the whole state of the auth store. */
  lemma StepCommutes(s: State, t: Timed, ticket: Ticket, email: string, links: set<string>)
    requires Outstanding(s, ticket, email, links) && Admissible(s, t) && Elsewhere(t.event, ticket.userId, email, links)
    ensures Admissible(Without(s, ticket), t)
    ensures Step(Without(s, ticket), t) == Without(Step(s, t), ticket)
    ensures Apply(Without(s, ticket).db, t.now, t.event)
      == Outcome(Undo(Apply(s.db, t.now, t.event).db, ticket), Apply(s.db, t.now, t.event).result)
  {
    var s0 := Without(s, ticket);
    TransactionKeepsOutstanding(s, t, ticket, email, links);
    WithoutShape(s, ticket);
    WithoutShape(Step(s, t), ticket);
    WithoutIsSound(s, ticket, email, links);
    UndoCommutes(s, s0, t, ticket, email, links);
    TicketsCommute(s, s0, t, ticket, ticket.userId);
  }

  // ----- the whole system -----

  /** The resend has committed and waits for the answer to its enqueue. */
  ghost predicate Pending(s: Sys, ticket: Ticket, email: string, links: set<string>) {
    var r := ticket.rows.recordId;
    && SysInv(s) && Outstanding(s.auth, ticket, email, links)
    && r in s.requests && s.requests[r].Resending? && s.requests[r].ticket == ticket
    && s.auth.db.records[r].externalId.None?
  }

  /** The system with the resend undone here and now. */
  ghost function Undone(s: Sys, ticket: Ticket): Sys {
    Besides(s, Without(s.auth, ticket), ticket.rows.recordId)
  }

  /** The action is not about the user of the resend; the worker and the callbacks may do anything. */
  ghost predicate ActionElsewhere(s: Sys, t: TimedAction, ticket: Ticket, email: string, links: set<string>)
    requires Possible(s, t)
  {
    match t.action
    case Auth(e, _) => Elsewhere(e, ticket.userId, email, links)
    case Enqueued(q) => q != ticket.rows.recordId
    case EnqueueFailed(q, _) =>
      && q != ticket.rows.recordId
      && (s.requests[q].Registering? ==> s.requests[q].uid != ticket.userId)
      && (s.requests[q].Resending? ==> s.requests[q].ticket.userId != ticket.userId)
    case _ => true
  }

  lemma UndoneIsAlike(s: Sys, ticket: Ticket, email: string, links: set<string>)
    requires Pending(s, ticket, email, links)
    ensures Alike(Undone(s, ticket), s, ticket.rows.recordId)
  {
    WithoutShape(s.auth, ticket);
    UndoShape(s.auth.db, ticket);
  }

  lemma TickCommutes(s: State, db': Db, now: Time, ticket: Ticket)
    requires ticket.revokedAt.Some?
    ensures Without(Tick(s, db', now), ticket) == Tick(Without(s, ticket), Undo(db', ticket), now)
  {
    WithoutShape(s, ticket);
    WithoutShape(Tick(s, db', now), ticket);
  }

  lemma TickKeepsHolds(s: State, db': Db, now: Time)
    requires OnHold(s) && s.clock <= now && db'.verifications == s.db.verifications
    ensures OnHold(Tick(s, db', now))
  {
    var s' := Tick(s, db', now);
    forall k | k in s'.tickets ensures HoldsFirmly(s', k) {
      assert HoldsFirmly(s, k);
    }
    forall t1, t2 | t1 in s'.tickets && t2 in s'.tickets && t1 != t2 ensures HoldApart(s'.db.verifications, t1, t2) {
      assert HoldApart(s.db.verifications, t1, t2);
    }
  }

  // quiet actions

  /** A database that differs only in the mails of others. */
  ghost predicate OnlyOtherMails(db: Db, db': Db, r: Id) {
    && db' == db.(records := db'.records, history := db'.history)
    && r in db.records && r in db'.records && db'.records[r] == db.records[r] && r !in db'.history
  }

  lemma UndoWithMails(db: Db, db': Db, ticket: Ticket)
    requires Undoable(db, ticket) && OnlyOtherMails(db, db', ticket.rows.recordId)
    ensures Undoable(db', ticket) && Undo(db', ticket) == WithMailsOf(Undo(db, ticket), db', ticket.rows.recordId)
  {
    UndoShape(db, ticket);
    UndoShape(db', ticket);
    assert Undo(db', ticket).verifications == Undo(db, ticket).verifications;
  }

  lemma QuietKeepsPending(s: Sys, s': Sys, now: Time, ticket: Ticket, email: string, links: set<string>)
    requires Pending(s, ticket, email, links) && SysInv(s') && s.auth.clock <= now
    requires s'.auth == Tick(s.auth, s'.auth.db, now) && OnlyOtherMails(s.auth.db, s'.auth.db, ticket.rows.recordId)
    requires ticket.rows.recordId in s'.requests && s'.requests[ticket.rows.recordId] == s.requests[ticket.rows.recordId]
    ensures Pending(s', ticket, email, links)
  {
    UndoWithMails(s.auth.db, s'.auth.db, ticket);
    TickKeepsHolds(s.auth, s'.auth.db, now);
  }

  lemma QuietCommutes(s: Sys, t: TimedAction, ticket: Ticket, email: string, links: set<string>)
    requires Pending(s, ticket, email, links) && Possible(s, t) && Quiet(t, ticket.rows.recordId)
    ensures Pending(Next(s, t), ticket, email, links)
    ensures Possible(Undone(s, ticket), t) && Next(Undone(s, ticket), t) == Undone(Next(s, t), ticket)
  {
    var r, db' := ticket.rows.recordId, Next(s, t).auth.db;
    ActionKeepsSysInv(s, t);
    UndoneIsAlike(s, ticket, email, links);
    QuietAlike(Undone(s, ticket), s, r, t);
    QuietLeavesTheRest(Undone(s, ticket), s, r, t);
    QuietKeepsPending(s, Next(s, t), t.now, ticket, email, links);
    WithoutShape(s.auth, ticket);
    UndoWithMails(s.auth.db, db', ticket);
    TickCommutes(s.auth, db', t.now, ticket);
  }

  // transactions of others

  lemma RecordStays(s: State, t: Timed, ticket: Ticket, email: string, links: set<string>)
    requires Outstanding(s, ticket, email, links) && Admissible(s, t) && Elsewhere(t.event, ticket.userId, email, links)
    ensures ticket.rows.recordId in Step(s, t).db.records
    ensures Step(s, t).db.records[ticket.rows.recordId] == s.db.records[ticket.rows.recordId]
  {
    TransactionKeepsOwn(s, t, ticket.userId, email, links);
    assert ticket.rows.recordId in RecordsOf(s.db, ticket.userId);
  }

  lemma AuthKeepsPending(s: Sys, now: Time, e: Event, mail: Mail, ticket: Ticket, email: string, links: set<string>)
    requires Pending(s, ticket, email, links) && Possible(s, Do(now, Auth(e, mail)))
    requires Elsewhere(e, ticket.userId, email, links)
    requires NewRequest(s.auth, At(now, e), mail).Some? ==>
      NewRequest(s.auth, At(now, e), mail).value.0 != ticket.rows.recordId
    ensures Pending(Next(s, Do(now, Auth(e, mail))), ticket, email, links)
  {
    ActionKeepsSysInv(s, Do(now, Auth(e, mail)));
    TransactionKeepsOutstanding(s.auth, At(now, e), ticket, email, links);
    RecordStays(s.auth, At(now, e), ticket, email, links);
  }

  lemma AuthActionCommutes(s: Sys, now: Time, e: Event, mail: Mail, ticket: Ticket, email: string, links: set<string>)
    requires Pending(s, ticket, email, links) && Possible(s, Do(now, Auth(e, mail)))
    requires Elsewhere(e, ticket.userId, email, links)
    ensures var t := Do(now, Auth(e, mail));
      && Pending(Next(s, t), ticket, email, links)
      && Possible(Undone(s, ticket), t) && Next(Undone(s, ticket), t) == Undone(Next(s, t), ticket)
  {
    var t, r := At(now, e), ticket.rows.recordId;
    TransactionKeepsOutstanding(s.auth, t, ticket, email, links);
    StepCommutes(s.auth, t, ticket, email, links);
    UndoShape(Step(s.auth, t).db, ticket);
    DrawnIdsAreNew(s.auth, t);
    SameNewRequest(Without(s.auth, ticket), s.auth, t, mail, r);
    UndoneIsAlike(s, ticket, email, links);
    TransactionAlike(Undone(s, ticket), s, r, now, e, mail);
    AuthKeepsPending(s, now, e, mail, ticket, email, links);
  }

  /** Whatever compensation another failed request runs, it is a transaction about somebody else or none. */
  lemma CompensationCommutes(
    s: Sys, now: Time, q: Id, fails: bool, ticket: Ticket, email: string, links: set<string>)
    requires Pending(s, ticket, email, links) && Possible(s, Do(now, EnqueueFailed(q, fails)))
    requires ActionElsewhere(s, Do(now, EnqueueFailed(q, fails)), ticket, email, links)
    ensures var auth' := Compensate(s.auth, s.requests[q], fails, now);
      && Compensate(Without(s.auth, ticket), s.requests[q], fails, now) == Without(auth', ticket)
      && (Inv(auth') ==> Outstanding(auth', ticket, email, links))
      && ticket.rows.recordId in auth'.db.records
      && auth'.db.records[ticket.rows.recordId] == s.auth.db.records[ticket.rows.recordId]
  {
    var request := s.requests[q];
    assert RequestFits(s, q);
    if !fails && !request.Bootstrapping? {
      var t := At(now, if request.Registering? then Cleanup(request.uid) else Rollback(request.ticket));
      assert DrawnIds(t.event) == [];
      assert Admissible(s.auth, t);
      StepCommutes(s.auth, t, ticket, email, links);
      TransactionKeepsOutstanding(s.auth, t, ticket, email, links);
      RecordStays(s.auth, t, ticket, email, links);
    } else {
      WithoutShape(s.auth, ticket);
      TickCommutes(s.auth, s.auth.db, now, ticket);
      TickKeepsHolds(s.auth, s.auth.db, now);
    }
  }

  lemma FailureCommutes(
    s: Sys, now: Time, q: Id, fails: bool, ticket: Ticket, email: string, links: set<string>)
    requires Pending(s, ticket, email, links) && Possible(s, Do(now, EnqueueFailed(q, fails)))
    requires ActionElsewhere(s, Do(now, EnqueueFailed(q, fails)), ticket, email, links)
    ensures var t := Do(now, EnqueueFailed(q, fails));
      && Pending(Next(s, t), ticket, email, links)
      && Possible(Undone(s, ticket), t) && Next(Undone(s, ticket), t) == Undone(Next(s, t), ticket)
  {
    var auth' := Compensate(s.auth, s.requests[q], fails, now);
    ActionKeepsSysInv(s, Do(now, EnqueueFailed(q, fails)));
    CompensationCommutes(s, now, q, fails, ticket, email, links);
    WithoutShape(auth', ticket);
    UndoShape(auth'.db, ticket);
    UndoneIsAlike(s, ticket, email, links);
    FailureAlike(Undone(s, ticket), s, ticket.rows.recordId, now, q, fails);
  }

  /** Every action that is not about the user commutes with undoing the resend. */
  lemma ActionCommutes(s: Sys, t: TimedAction, ticket: Ticket, email: string, links: set<string>)
    requires Pending(s, ticket, email, links) && Possible(s, t) && ActionElsewhere(s, t, ticket, email, links)
    ensures Pending(Next(s, t), ticket, email, links)
    ensures Possible(Undone(s, ticket), t) && Next(Undone(s, ticket), t) == Undone(Next(s, t), ticket)
  {
    match t.action
    case Auth(e, mail) => AuthActionCommutes(s, t.now, e, mail, ticket, email, links);
    case EnqueueFailed(q, fails) => FailureCommutes(s, t.now, q, fails, ticket, email, links);
    case _ => QuietCommutes(s, t, ticket, email, links);
  }

  ghost predicate AllActionsElsewhere(s: Sys, run: seq<TimedAction>, ticket: Ticket, email: string, links: set<string>)
    requires IsRunOf(s, run)
    decreases |run|
  {
    run == []
    || (ActionElsewhere(s, run[0], ticket, email, links)
        && AllActionsElsewhere(Next(s, run[0]), run[1..], ticket, email, links))
  }

  lemma {:induction false} RunCommutes(s: Sys, run: seq<TimedAction>, ticket: Ticket, email: string, links: set<string>)
    requires Pending(s, ticket, email, links) && IsRunOf(s, run) && AllActionsElsewhere(s, run, ticket, email, links)
    ensures Pending(End(s, run), ticket, email, links)
    ensures IsRunOf(Undone(s, ticket), run) && End(Undone(s, ticket), run) == Undone(End(s, run), ticket)
    decreases |run|
  {
    if run != [] {
      ActionCommutes(s, run[0], ticket, email, links);
      RunCommutes(Next(s, run[0]), run[1..], ticket, email, links);
    }
  }

  // ----- the saga -----

  lemma ResendIsUndoable(s: State, t: Timed, ticket: Ticket)
    requires Inv(s) && OnHold(s) && Admissible(s, t) && Accepts(s, t, ticket)
    ensures var s' := Step(s, t);
      && Outstanding(s', ticket, t.event.email, LinksOf(s'.db, ticket.userId))
      && s'.db.records[ticket.rows.recordId].externalId.None?
  {
    StepKeepsInv(s, t);
    StepKeepsHolds(s, t);
    NewTicketOwnsItsRows(s, t, ticket);
    NewTicketIsNew(s, t, ticket);
    OutstandingHolds(Step(s, t), ticket);
    ResentIsWaiting(s, t, ticket);
    ResendGivesTicket(s.db, t.event.email, t.event.tokens, t.now, t.event.ids);
  }

  lemma ResendIsPending(s: Sys, now: Time, e: Event, mail: Mail, ticket: Ticket)
    requires SysInv(s) && OnHold(s.auth) && Possible(s, Do(now, Auth(e, mail))) && Accepts(s.auth, At(now, e), ticket)
    ensures var s1 := Next(s, Do(now, Auth(e, mail)));
      Pending(s1, ticket, e.email, LinksOf(s1.auth.db, ticket.userId))
  {
    ActionKeepsSysInv(s, Do(now, Auth(e, mail)));
    ResendIsUndoable(s.auth, At(now, e), ticket);
    ResendMakesRequest(s, now, e, mail, ticket);
    ResendGivesTicket(s.auth.db, e.email, e.tokens, now, e.ids);
  }

  /** The system in which the request was never made: only the clock and the drawn ids tell. */
  ghost function Never(s: Sys, s1: Sys): Sys {
    s.(auth := s1.auth.(db := s.auth.db, tickets := s.auth.tickets))
  }

  lemma WithoutAtOnce(s: State, t: Timed, ticket: Ticket)
    requires OnlyDrawnIds(s) && ForeignKeys(s.db) && Admissible(s, t) && Accepts(s, t, ticket)
    ensures Without(Step(s, t), ticket) == Step(s, t).(db := s.db, tickets := s.tickets)
  {
    var e := t.event;
    DrawnIdsAreNew(s, t);
    ResendGivesTicket(s.db, e.email, e.tokens, t.now, e.ids);
    ResendThenRollback(s.db, e.email, e.tokens, t.now, e.ids, 0);
    TicketsComeBack(s, t.now, e, ticket);
    WithoutShape(Step(s, t), ticket);
  }

  lemma RequestTakenBack(s: Sys, auth1: State, r: Id, request: Request, ticket: Ticket)
    requires r !in s.requests && ticket.rows.recordId == r
    requires Without(auth1, ticket) == auth1.(db := s.auth.db, tickets := s.auth.tickets)
    ensures var s1 := s.(auth := auth1, requests := s.requests[r := request]);
      Undone(s1, ticket) == Never(s, s1)
  {
    assert s.requests[r := request] - {r} == s.requests;
  }

  lemma UndoneAtOnceIsNever(s: Sys, now: Time, e: Event, mail: Mail, ticket: Ticket)
    requires SysInv(s) && Possible(s, Do(now, Auth(e, mail))) && Accepts(s.auth, At(now, e), ticket)
    ensures var s1 := Next(s, Do(now, Auth(e, mail)));
      Undone(s1, ticket) == Never(s, s1)
  {
    var auth1, r := Step(s.auth, At(now, e)), e.ids.recordId;
    DrawnIdsAreNew(s.auth, At(now, e));
    RequestIdIsNew(s, r);
    WithoutAtOnce(s.auth, At(now, e), ticket);
    ResendMakesRequest(s, now, e, mail, ticket);
    ResendGivesTicket(s.auth.db, e.email, e.tokens, now, e.ids);
    RequestTakenBack(s, auth1, r, Resending(ticket, JobFor(auth1.db, r, mail)), ticket);
  }

  lemma RollbackLater(s: State, ticket: Ticket, later: Time)
    requires Undoable(s.db, ticket)
    ensures Step(s, At(later, Rollback(ticket))) == Without(s, ticket).(clock := later)
    ensures ticket.rows.recordId !in Without(s, ticket).db.records
  {
    UndoAtAnyTime(s.db, ticket, later);
    UndoAtAnyTime(s.db, ticket, s.clock);
    UndoShape(s.db, ticket);
  }

  /** The failed enqueue undoes the resend, whenever it comes. */
  lemma FailureUndoes(s: Sys, ticket: Ticket, later: Time)
    requires Undoable(s.auth.db, ticket) && s.auth.clock <= later && ticket.rows.recordId in s.requests
    requires s.requests[ticket.rows.recordId].Resending? && s.requests[ticket.rows.recordId].ticket == ticket
    ensures var t := Do(later, EnqueueFailed(ticket.rows.recordId, false));
      Possible(s, t) && NothingHappened(Undone(s, ticket), Next(s, t))
  {
    RollbackLater(s.auth, ticket, later);
  }

  /**
   The saga of a resend: commit, anything the rest of the system does, a failed enqueue, rollback. Tables, queue,
   timers, blacklist, attempts and open requests are exactly those of the same run without the request.
   */
  lemma FailedResendLeavesNoTrace(
    s: Sys, now: Time, e: Event, mail: Mail, ticket: Ticket, run: seq<TimedAction>, later: Time)
    requires SysInv(s) && OnHold(s.auth) && Possible(s, Do(now, Auth(e, mail))) && Accepts(s.auth, At(now, e), ticket)
    requires var s1 := Next(s, Do(now, Auth(e, mail)));
      && IsRunOf(s1, run) && End(s1, run).auth.clock <= later
      && AllActionsElsewhere(s1, run, ticket, e.email, LinksOf(s1.auth.db, ticket.userId))
    ensures var s1 := Next(s, Do(now, Auth(e, mail)));
      var failure := Do(later, EnqueueFailed(ticket.rows.recordId, false));
      && IsRunOf(Never(s, s1), run)
      && Possible(End(s1, run), failure)
      && NothingHappened(End(Never(s, s1), run), Next(End(s1, run), failure))
  {
    var s1 := Next(s, Do(now, Auth(e, mail)));
    var links := LinksOf(s1.auth.db, ticket.userId);
    ResendIsPending(s, now, e, mail, ticket);
    UndoneAtOnceIsNever(s, now, e, mail, ticket);
    RunCommutes(s1, run, ticket, e.email, links);
    FailureUndoes(End(s1, run), ticket, later);
  }

  // ----- every reachable state is one to start from -----

  lemma WorkerKeepsRows(s: Sys, t: TimedAction)
    requires Possible(s, t) && (t.action.HandleNext? || t.action.Webhook?)
    ensures Next(s, t).auth.db.verifications == s.auth.db.verifications
    ensures Next(s, t).auth == Tick(s.auth, Next(s, t).auth.db, t.now)
  {
    if t.action.HandleNext? {
      HandleJobEffect(s.auth.db, s.blacklist, s.queue[0], t.action.send, t.action.faults, t.now);
    }
  }

  lemma ActionKeepsHolds(s: Sys, t: TimedAction)
    requires SysInv(s) && OnHold(s.auth) && Possible(s, t)
    ensures OnHold(Next(s, t).auth)
  {
    match t.action
    case Auth(e, _) => StepKeepsHolds(s.auth, At(t.now, e));
    case EnqueueFailed(q, fails) =>
      var request := s.requests[q];
      assert RequestFits(s, q);
      if !fails && !request.Bootstrapping? {
        var e := if request.Registering? then Cleanup(request.uid) else Rollback(request.ticket);
        assert DrawnIds(e) == [];
        StepKeepsHolds(s.auth, At(t.now, e));
      } else {
        TickKeepsHolds(s.auth, s.auth.db, t.now);
      }
    case HandleNext(_, _) =>
      WorkerKeepsRows(s, t);
      TickKeepsHolds(s.auth, Next(s, t).auth.db, t.now);
    case Webhook(_) =>
      WorkerKeepsRows(s, t);
      TickKeepsHolds(s.auth, Next(s, t).auth.db, t.now);
    case _ => TickKeepsHolds(s.auth, s.auth.db, t.now);
  }

  /** In every run of the pipeline the outstanding resends hold their rows. */
  lemma {:induction false} PipelineKeepsHolds(s: Sys, run: seq<TimedAction>)
    requires SysInv(s) && OnHold(s.auth) && IsRunOf(s, run)
    ensures SysInv(End(s, run)) && OnHold(End(s, run).auth)
    decreases |run|
  {
    if run != [] {
      ActionKeepsSysInv(s, run[0]);
      ActionKeepsHolds(s, run[0]);
      PipelineKeepsHolds(Next(s, run[0]), run[1..]);
    }
  }
}
