/** The handlers as sagas over the whole pipeline: what a failed request leaves behind, and what compensation can cost. */
module Sagas {
  import opened Base
  import opened Tables
  import opened Transactions
  import opened AuthRuns
  import opened AuthInvariants
  import opened Delivery
  import opened DeliveryFacts
  import opened Pipeline
  import opened Conservation
  import opened FailedRegistration
  import opened Retries
  import opened Finished
  import opened Callbacks

  // ----- a resend undone at once -----

  lemma RowsAfterResendAndRollback(db: Db, uid: Id, tokens: Tokens, now: Time, ids: NewRows, later: Time, db': Db)
    requires ids.otpId !in db.verifications && ids.magicId !in db.verifications && ids.otpId != ids.magicId
    requires db'.verifications == WithVerification(Revoke(db.verifications, uid, now), uid, tokens, now, ids)
    ensures RollbackResend(db', Ticket(uid, ids, Some(now), LiveExpiries(db.verifications, uid, now)), later).verifications
      == db.verifications
  {
  }

  lemma RecordsAfterResendAndRollback(db: Db, r: Id, record: EmailRecord)
    requires r !in db.records && r !in db.history
    ensures db.records[r := record] - {r} == db.records && db.history - {r} == db.history
  {
  }

  lemma ResendThenRollback(db: Db, email: string, tokens: Tokens, now: Time, ids: NewRows, later: Time)
    requires ids.otpId !in db.verifications && ids.magicId !in db.verifications && ids.otpId != ids.magicId
    requires ids.recordId !in db.records && ids.recordId !in db.history
    requires ResendVerification(db, email, tokens, now, ids).result.Ok?
    ensures var out := ResendVerification(db, email, tokens, now, ids);
      out.result.value.Resent? && RollbackResend(out.db, out.result.value.ticket, later) == db
  {
    var out := ResendVerification(db, email, tokens, now, ids);
    var uid := UserByEmail(db.users, email).value;
    RowsAfterResendAndRollback(db, uid, tokens, now, ids, later, out.db);
    RecordsAfterResendAndRollback(db, ids.recordId, out.db.records[ids.recordId]);
  }

  // ----- a request whose enqueue fails -----

  /** Nothing but the clock, the drawn ids and the settled ticket distinguishes the two states. */
  ghost predicate NothingHappened(s: Sys, s': Sys) {
    && s'.auth.db == s.auth.db && s'.auth.tickets == s.auth.tickets
    && s'.requests == s.requests && s'.queue == s.queue && s'.timers == s.timers
    && s'.blacklist == s.blacklist && s'.sends == s.sends && s'.lost == s.lost
  }

  lemma RegisterStepIsUndone(s: State, now: Time, e: Event)
    requires Inv(s) && Admissible(s, At(now, e)) && e.Register? && Apply(s.db, now, e).result.Ok?
    ensures CleanupPendingRegistration(Step(s, At(now, e)).db, e.uid).db == s.db
  {
    DrawnIdsAreNew(s, At(now, e));
    RegisterThenErase(s.db, e.email, e.uid, e.tokens, now, e.ids);
    StepKeepsConsistent(s, At(now, e));
    CleanupIsErasure(Step(s, At(now, e)).db, e.uid);
  }

  lemma FailedRegisterIsUndone(s: Sys, now: Time, e: Event, mail: Mail, later: Time)
    requires Inv(s.auth) && RequestsFit(s) && Possible(s, Do(now, Auth(e, mail))) && e.Register?
    requires Apply(s.auth.db, now, e).result.Ok? && now <= later
    ensures var s1 := Next(s, Do(now, Auth(e, mail)));
      && Possible(s1, Do(later, EnqueueFailed(e.ids.recordId, false)))
      && NothingHappened(s, Next(s1, Do(later, EnqueueFailed(e.ids.recordId, false))))
  {
    var auth1, r := Step(s.auth, At(now, e)), e.ids.recordId;
    DrawnIdsAreNew(s.auth, At(now, e));
    RequestIdIsNew(s, r);
    RegisterStepIsUndone(s.auth, now, e);
    RegisterMakesRequest(s, now, e, mail);
    FailureCompensates(s, auth1, r, Registering(e.uid, JobFor(auth1.db, r, mail)), later);
  }

  lemma RegisterMakesRequest(s: Sys, now: Time, e: Event, mail: Mail)
    requires Possible(s, Do(now, Auth(e, mail))) && e.Register? && Apply(s.auth.db, now, e).result.Ok?
    ensures var auth1 := Step(s.auth, At(now, e));
      && auth1.tickets == s.auth.tickets
      && Next(s, Do(now, Auth(e, mail))) == s.(auth := auth1,
         requests := s.requests[e.ids.recordId := Registering(e.uid, JobFor(auth1.db, e.ids.recordId, mail))])
  {
  }

  /** A compensation that brings the tables and tickets back, brings the whole system back. */
  lemma FailureCompensates(s: Sys, auth1: State, r: Id, request: Request, later: Time)
    requires r !in s.requests && auth1.clock <= later && r !in s.auth.db.records
    requires Compensate(auth1, request, false, later).db == s.auth.db
    requires Compensate(auth1, request, false, later).tickets == s.auth.tickets
    ensures var s1 := s.(auth := auth1, requests := s.requests[r := request]);
      && Possible(s1, Do(later, EnqueueFailed(r, false)))
      && NothingHappened(s, Next(s1, Do(later, EnqueueFailed(r, false))))
  {
    assert s.requests[r := request] - {r} == s.requests;
  }

  lemma RequestIdIsNew(s: Sys, r: Id)
    requires RequestsFit(s) && r !in s.auth.used
    ensures r !in s.requests
  {
    assert r in s.requests ==> RequestFits(s, r);
  }

  lemma TicketsComeBack(s: State, now: Time, e: Event, ticket: Ticket)
    requires OnlyDrawnIds(s) && e.Resend? && e.ids.recordId !in s.used
    requires Apply(s.db, now, e).result == Ok(Resent(ticket))
    ensures ticket !in s.tickets && NextTickets(s, At(now, e)) - {ticket} == s.tickets
  {
    assert ticket in s.tickets ==> ticket.rows.recordId in s.used;
  }

  lemma ResendStepIsUndone(s: State, now: Time, e: Event, later: Time)
    requires OnlyDrawnIds(s) && ForeignKeys(s.db) && Admissible(s, At(now, e)) && e.Resend?
    requires Apply(s.db, now, e).result.Ok?
    ensures var out := Apply(s.db, now, e);
      && out.result.value.Resent?
      && var s' := Step(Step(s, At(now, e)), At(later, Rollback(out.result.value.ticket)));
         s'.db == s.db && s'.tickets == s.tickets
  {
    DrawnIdsAreNew(s, At(now, e));
    ResendThenRollback(s.db, e.email, e.tokens, now, e.ids, later);
    TicketsComeBack(s, now, e, Apply(s.db, now, e).result.value.ticket);
  }

  lemma ResendMakesRequest(s: Sys, now: Time, e: Event, mail: Mail, ticket: Ticket)
    requires Possible(s, Do(now, Auth(e, mail))) && e.Resend? && Apply(s.auth.db, now, e).result == Ok(Resent(ticket))
    ensures var auth1 := Step(s.auth, At(now, e));
      Next(s, Do(now, Auth(e, mail))) == s.(auth := auth1,
      requests := s.requests[e.ids.recordId := Resending(ticket, JobFor(auth1.db, e.ids.recordId, mail))])
  {
  }

  lemma FailedResendIsUndone(s: Sys, now: Time, e: Event, mail: Mail, later: Time)
    requires Inv(s.auth) && RequestsFit(s) && Possible(s, Do(now, Auth(e, mail))) && e.Resend?
    requires Apply(s.auth.db, now, e).result.Ok? && now <= later
    ensures var s1 := Next(s, Do(now, Auth(e, mail)));
      && Possible(s1, Do(later, EnqueueFailed(e.ids.recordId, false)))
      && NothingHappened(s, Next(s1, Do(later, EnqueueFailed(e.ids.recordId, false))))
  {
    var auth1, r := Step(s.auth, At(now, e)), e.ids.recordId;
    DrawnIdsAreNew(s.auth, At(now, e));
    RequestIdIsNew(s, r);
    ResendStepIsUndone(s.auth, now, e, later);
    var ticket := Apply(s.auth.db, now, e).result.value.ticket;
    ResendMakesRequest(s, now, e, mail, ticket);
    FailureCompensates(s, auth1, r, Resending(ticket, JobFor(auth1.db, r, mail)), later);
  }

  // ----- when a record disappears -----

  /** The failed request `r` takes record `q` with it when its compensation runs. */
  ghost predicate Takes(s: Sys, r: Id, q: Id)
    requires r in s.requests && q in s.auth.db.records
  {
    var db := s.auth.db;
    match s.requests[r]
    case Registering(uid, _) =>
      db.records[q].userId == Some(uid) && uid in db.users && db.users[uid].emailVerifiedAt.None?
    case Resending(_, _) => q == r
    case Bootstrapping(_) => false
  }

  lemma CompensationTakes(s: Sys, r: Id, now: Time, q: Id)
    requires Inv(s.auth) && RequestsFit(s) && Possible(s, Do(now, EnqueueFailed(r, false))) && q in s.auth.db.records
    ensures q !in Compensate(s.auth, s.requests[r], false, now).db.records <==> Takes(s, r, q)
  {
    assert RequestFits(s, r);
    match s.requests[r]
    case Registering(uid, _) => CleanupIsErasure(s.auth.db, uid);
    case _ =>
  }

  /** A record disappears exactly when a compensation takes it; nothing else in the pipeline deletes records. */
  lemma RecordsDisappearExactlyWhen(s: Sys, t: TimedAction, q: Id)
    requires SysInv(s) && Possible(s, t) && q in s.auth.db.records
    ensures q !in Next(s, t).auth.db.records
      <==> t.action.EnqueueFailed? && !t.action.compensationFails && Takes(s, t.action.recordId, q)
  {
    match t.action
    case Auth(e, mail) => NewRequestFits(s, t.now, e, mail);
    case EnqueueFailed(r, fails) =>
      if !fails {
        CompensationTakes(s, r, t.now, q);
      }
    case HandleNext(send, f) => HandleJobEffect(s.auth.db, s.blacklist, s.queue[0], send, f, t.now);
    case Webhook(c) => HandleCallbackEffect(s.auth.db, c, t.now);
    case _ =>
  }

  lemma NothingRecordedWithoutRecord(
    db: Db, blacklist: set<string>, job: Job, send: SendResult, f: Faults, now: Time)
    requires job.recordId.Some? && job.recordId.value !in db.records
    ensures var h := HandleJob(db, blacklist, job, send, f, now);
      h.db == db && h.blacklist == blacklist && !h.settled && h.retry.None?
  {
  }

  /** A deleted record never comes back. */
  lemma {:induction false} DeletedForGood(s: Sys, run: seq<TimedAction>, q: Id)
    requires SysInv(s) && IsRunOf(s, run) && q in s.auth.used && q !in s.auth.db.records
    ensures q !in End(s, run).auth.db.records
    decreases |run|
  {
    if run != [] {
      ActionKeepsSysInv(s, run[0]);
      RecordsComeFromUsed(s, run[0]);
      ActionGrowsLogs(s, run[0]);
      DeletedForGood(Next(s, run[0]), run[1..], q);
    }
  }

  /** Whatever handling a job of record `q` does from now on, it records nothing and schedules nothing. */
  ghost predicate CanRecordNothing(s: Sys, q: Id) {
    forall k, send, f, now | 0 <= k < |s.queue| && s.queue[k].recordId == Some(q) ::
      var h := HandleJob(s.auth.db, s.blacklist, s.queue[k], send, f, now);
      h.db == s.auth.db && h.blacklist == s.blacklist && !h.settled && h.retry.None?
  }

  lemma NothingToRecord(s: Sys, q: Id)
    requires q !in s.auth.db.records
    ensures CanRecordNothing(s, q)
  {
    forall k, send, f, now | 0 <= k < |s.queue| && s.queue[k].recordId == Some(q)
      ensures var h := HandleJob(s.auth.db, s.blacklist, s.queue[k], send, f, now);
        h.db == s.auth.db && h.blacklist == s.blacklist && !h.settled && h.retry.None?
    {
      NothingRecordedWithoutRecord(s.auth.db, s.blacklist, s.queue[k], send, f, now);
    }
  }

  /**
   The clean-up of a registration deletes every record of its user. When the user already has another, accepted
   e-mail, that record goes too while its job stays in the queue. The record never returns, and in no continuation
   can the handling of that job be recorded.
   */
  lemma CleanupOrphansAcceptedJob(s: Sys, r: Id, now: Time, i: nat, run: seq<TimedAction>)
    requires SysInv(s) && Possible(s, Do(now, EnqueueFailed(r, false))) && s.requests[r].Registering?
    requires i < |s.queue| && s.queue[i].recordId.Some? && s.queue[i].recordId.value in s.auth.db.records
    requires Takes(s, r, s.queue[i].recordId.value)
    requires IsRunOf(Next(s, Do(now, EnqueueFailed(r, false))), run)
    ensures var s', q := Next(s, Do(now, EnqueueFailed(r, false))), s.queue[i].recordId.value;
      && s'.queue == s.queue
      && q !in End(s', run).auth.db.records && CanRecordNothing(End(s', run), q)
  {
    var s', q := Next(s, Do(now, EnqueueFailed(r, false))), s.queue[i].recordId.value;
    CompensationTakes(s, r, now, q);
    ActionKeepsSysInv(s, Do(now, EnqueueFailed(r, false)));
    CompensationRemovesRecords(s.auth, s.requests[r], false, now);
    DeletedForGood(s', run, q);
    NothingToRecord(End(s', run), q);
  }

  lemma {:induction false} LostForGood(s: Sys, run: seq<TimedAction>)
    requires IsRunOf(s, run)
    ensures s.lost <= End(s, run).lost
    decreases |run|
  {
    if run != [] {
      LostForGood(Next(s, run[0]), run[1..]);
    }
  }

  /** From `s1` to `s2` nothing is under way for record `r`, it is not attempted, and while it exists it has no outcome. */
  ghost predicate StaysIdle(s1: Sys, s2: Sys, r: Id) {
    && UnderWay(s2, r) == 0 && AttemptTimes(s2.sends, r) == AttemptTimes(s1.sends, r)
    && (r in s2.auth.db.records ==> Terminals(Log(s2.auth.db, r)) == 0)
  }

  /** The record is there, and in every continuation it stays idle. */
  ghost predicate Stranded(s: Sys, r: Id) {
    r in s.auth.db.records && forall run | IsRunOf(s, run) :: StaysIdle(s, End(s, run), r)
  }

  lemma LostIsIdle(s: Sys, r: Id, run: seq<TimedAction>)
    requires SysInv(s) && r in s.auth.db.records && r in s.lost && IsRunOf(s, run)
    ensures StaysIdle(s, End(s, run), r)
  {
    assert Places(s, r) == 1;
    assert UnderWay(s, r) == 0;
    RecordIsDrawn(s, r);
    FinishedForGood(s, run, r);
    SameAttemptTimes(s.sends, End(s, run).sends, r);
    LostForGood(s, run);
    RunKeepsSysInv(s, run);
    assert r in End(s, run).auth.db.records ==> Places(End(s, run), r) == 1;
  }

  lemma RecordIsDrawn(s: Sys, r: Id)
    requires Inv(s.auth) && r in s.auth.db.records
    ensures r in s.auth.used
  {
  }

  lemma RecordStaysExactlyWhen(s: Sys, r: Id, fails: bool, now: Time)
    requires SysInv(s) && Possible(s, Do(now, EnqueueFailed(r, fails))) && r in s.auth.db.records
    ensures r in Next(s, Do(now, EnqueueFailed(r, fails))).auth.db.records <==> NotCompensated(s, r, fails)
  {
    assert RequestFits(s, r);
    RecordsDisappearExactlyWhen(s, Do(now, EnqueueFailed(r, fails)), r);
  }

  /**
   When the enqueue of a request fails, its record is stranded if and only if the request is not compensated: the
   compensating call fails, or there is none (a bootstrap), or the clean-up of a registration finds its user verified
   meanwhile. Otherwise the record is gone.
   */
  lemma FailedRequestStrandsExactlyWhen(s: Sys, r: Id, fails: bool, now: Time)
    requires SysInv(s) && Possible(s, Do(now, EnqueueFailed(r, fails))) && r in s.auth.db.records
    ensures Stranded(Next(s, Do(now, EnqueueFailed(r, fails))), r) <==> NotCompensated(s, r, fails)
  {
    var s1 := Next(s, Do(now, EnqueueFailed(r, fails)));
    RecordStaysExactlyWhen(s, r, fails, now);
    if NotCompensated(s, r, fails) {
      ActionKeepsSysInv(s, Do(now, EnqueueFailed(r, fails)));
      forall run | IsRunOf(s1, run) ensures StaysIdle(s1, End(s1, run), r) {
        LostIsIdle(s1, r, run);
      }
    }
  }
}
