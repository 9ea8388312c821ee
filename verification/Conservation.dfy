/** End to end, no verification e-mail is duplicated and none disappears except by a recorded fault. */
module Conservation {
  import opened Base
  import opened Tables
  import opened Transactions
  import opened AuthRuns
  import opened AuthInvariants
  import opened Delivery
  import opened DeliveryFacts
  import opened Pipeline

  /** The ways in which record `r` is still under way. */
  ghost function UnderWay(s: Sys, r: Id): nat {
    (if r in s.requests then 1 else 0) + CountJobs(s.queue, r) + CountJobs(Jobs(s.timers), r)
  }

  /** All the places where record `r` can be: under way, settled in its log, or lost to a fault. */
  ghost function Places(s: Sys, r: Id): nat {
    UnderWay(s, r) + Terminals(Log(s.auth.db, r)) + if r in s.lost then 1 else 0
  }

  ghost predicate Conserved(s: Sys) {
    && (forall r: Id :: UnderWay(s, r) <= 1)
    && (forall r | r in s.auth.db.records :: Places(s, r) == 1)
    && (forall r: Id | r !in s.auth.used :: UnderWay(s, r) == 0 && r !in s.lost)
  }

  /** A request knows its record, and the record belongs to the user the request is for. */
  ghost predicate RequestFits(s: Sys, r: Id)
    requires r in s.requests
  {
    var request := s.requests[r];
    && request.job.recordId == Some(r) && request.job.retryCount == 0 && r in s.auth.used
    && (request.Registering? && r in s.auth.db.records ==> s.auth.db.records[r].userId == Some(request.uid))
    && (request.Resending? ==>
          && request.ticket in s.auth.tickets && request.ticket.rows.recordId == r
          && (r in s.auth.db.records ==> s.auth.db.records[r].userId == Some(request.ticket.userId)))
  }

  ghost predicate RequestsFit(s: Sys) {
    forall r | r in s.requests :: RequestFits(s, r)
  }

  ghost predicate SysInv(s: Sys) {
    Inv(s.auth) && RequestsFit(s) && Conserved(s) && StatusAgrees(s.auth.db)
  }

  // ----- what auth transactions do to the records -----

  /** Records at most disappear, with their logs; the others keep status, owner and log. */
  ghost predicate OnlyRemovesRecords(db: Db, db': Db) {
    && (forall r | r in db'.records :: r in db.records && db'.records[r] == db.records[r])
    && (forall r | r in db'.records :: Log(db', r) == Log(db, r))
  }

  /** One new queued record appears, without a log. */
  ghost predicate AddsRecord(db: Db, db': Db, r: Id) {
    && r !in db.records
    && db'.records.Keys == db.records.Keys + {r}
    && db'.records[r].status == Queued
    && (forall q | q in db.records :: db'.records[q] == db.records[q])
    && db'.history == db.history
  }

  lemma CreateAddsRecord(db: Db, uid: Id, tokens: Tokens, now: Time, ids: NewRows)
    requires ids.recordId !in db.records
    ensures var out := CreateVerification(db, uid, tokens, now, ids);
      if out.result.Ok? then
        AddsRecord(db, out.db, ids.recordId) && out.db.records[ids.recordId].userId == Some(uid)
      else out.db == db
  {
  }

  lemma RegisterAddsRecord(db: Db, email: string, uid: Id, tokens: Tokens, now: Time, ids: NewRows)
    requires ids.recordId !in db.records
    ensures var out := RegisterWithVerification(db, email, uid, tokens, now, ids);
      if out.result.Ok? then
        AddsRecord(db, out.db, ids.recordId) && out.db.records[ids.recordId].userId == Some(uid)
      else out.db == db
  {
    CreateAddsRecord(db.(users := db.users[uid := User(email, 0, None)]), uid, tokens, now, ids);
  }

  lemma ResendAddsRecord(db: Db, email: string, tokens: Tokens, now: Time, ids: NewRows)
    requires ids.recordId !in db.records
    ensures var out := ResendVerification(db, email, tokens, now, ids);
      if out.result.Ok? then
        && out.result.value.Resent?
        && AddsRecord(db, out.db, ids.recordId)
        && out.result.value.ticket.rows == ids
        && out.db.records[ids.recordId].userId == Some(out.result.value.ticket.userId)
      else out.db == db
  {
    var u := UserByEmail(db.users, email);
    if u.Some? {
      CreateAddsRecord(db.(verifications := Revoke(db.verifications, u.value, now)), u.value, tokens, now, ids);
    }
  }

  lemma OtherTransactionsKeepRecords(db: Db, now: Time, e: Event)
    requires !e.Register? && !e.Create? && !e.Resend? && !e.Rollback? && !e.Cleanup?
    ensures Apply(db, now, e).db.records == db.records && Apply(db, now, e).db.history == db.history
  {
    match e
    case VerifyOtp(_, _) =>
    case VerifyMagic(_) =>
    case _ =>
  }

  lemma RollbackRemovesRecord(db: Db, ticket: Ticket, now: Time)
    ensures OnlyRemovesRecords(db, RollbackResend(db, ticket, now))
    ensures var r := ticket.rows.recordId;
      r in db.records && db.records[r].userId == Some(ticket.userId) ==> r !in RollbackResend(db, ticket, now).records
  {
  }

  lemma CleanupRemovesRecords(db: Db, uid: Id)
    ensures OnlyRemovesRecords(db, CleanupPendingRegistration(db, uid).db)
    ensures CleanupPendingRegistration(db, uid).result.Ok? ==>
      forall r | r in db.records && db.records[r].userId == Some(uid) ::
        r !in CleanupPendingRegistration(db, uid).db.records
  {
  }

  lemma CompensationRemovesRecords(s: State, request: Request, fails: bool, now: Time)
    ensures var s' := Compensate(s, request, fails, now);
      && OnlyRemovesRecords(s.db, s'.db)
      && s'.used == s.used && s'.clock == now
      && s'.tickets == if request.Resending? && !fails then s.tickets - {request.ticket} else s.tickets
  {
    match request
    case Registering(uid, _) => CleanupRemovesRecords(s.db, uid);
    case Resending(ticket, _) => RollbackRemovesRecord(s.db, ticket, now);
    case Bootstrapping(_) =>
  }

  // ----- the auth invariant under the worker's steps -----

  lemma RecordUpdateKeepsInv(s: State, db': Db, r: Id, now: Time)
    requires Inv(s) && TouchesOnly(s.db, db', r)
    ensures Inv(Tick(s, db', now))
  {
  }

  lemma TickKeepsInv(s: State, now: Time)
    requires Inv(s)
    ensures Inv(Tick(s, s.db, now))
  {
  }

  lemma CompensationKeepsInv(s: Sys, r: Id, fails: bool, now: Time)
    requires Inv(s.auth) && RequestsFit(s) && r in s.requests && s.auth.clock <= now
    ensures Inv(Compensate(s.auth, s.requests[r], fails, now))
  {
    assert RequestFits(s, r);
    match s.requests[r]
    case Registering(uid, _) => StepKeepsInv(s.auth, At(now, Cleanup(uid)));
    case Resending(ticket, _) => StepKeepsInv(s.auth, At(now, Rollback(ticket)));
    case Bootstrapping(_) =>
  }

  // ----- requests -----

  /** What a committed transaction leaves to be enqueued is a request for a record that is new. */
  lemma NewRequestFits(s: Sys, now: Time, e: Event, mail: Mail)
    requires Inv(s.auth) && Possible(s, Do(now, Auth(e, mail)))
    ensures var request := NewRequest(s.auth, At(now, e), mail);
      var s' := Next(s, Do(now, Auth(e, mail)));
      if request.Some? then
        var r := request.value.0;
        && r !in s.auth.used && r in s'.auth.used && AddsRecord(s.auth.db, s'.auth.db, r)
        && r in s'.requests && RequestFits(s', r)
      else s'.auth.db.records == s.auth.db.records && s'.auth.db.history == s.auth.db.history
  {
    var t := At(now, e);
    DrawnIdsAreNew(s.auth, t);
    StepKeepsDrawnIds(s.auth, t);
    match e
    case Register(email, uid, tokens, ids) => RegisterAddsRecord(s.auth.db, email, uid, tokens, now, ids);
    case Create(uid, tokens, ids) => CreateAddsRecord(s.auth.db, uid, tokens, now, ids);
    case Resend(email, tokens, ids) => ResendAddsRecord(s.auth.db, email, tokens, now, ids);
    case _ => OtherTransactionsKeepRecords(s.auth.db, now, e);
  }

  lemma AuthKeepsRequests(s: Sys, now: Time, e: Event, mail: Mail)
    requires Inv(s.auth) && RequestsFit(s) && Possible(s, Do(now, Auth(e, mail)))
    ensures RequestsFit(Next(s, Do(now, Auth(e, mail))))
  {
    var s' := Next(s, Do(now, Auth(e, mail)));
    NewRequestFits(s, now, e, mail);
    var request := NewRequest(s.auth, At(now, e), mail);
    forall r | r in s'.requests ensures RequestFits(s', r) {
      if request.None? || r != request.value.0 {
        assert RequestFits(s, r);
      }
    }
  }

  lemma FailureKeepsRequests(s: Sys, now: Time, r: Id, fails: bool)
    requires RequestsFit(s) && Possible(s, Do(now, EnqueueFailed(r, fails)))
    ensures RequestsFit(Next(s, Do(now, EnqueueFailed(r, fails))))
  {
    var s' := Next(s, Do(now, EnqueueFailed(r, fails)));
    CompensationRemovesRecords(s.auth, s.requests[r], fails, now);
    assert RequestFits(s, r);
    forall q | q in s'.requests ensures RequestFits(s', q) {
      assert RequestFits(s, q);
    }
  }

  /** Steps of the worker and of the queue change neither owners nor tickets. */
  lemma WorkerStepKeepsRequests(s: Sys, s': Sys)
    requires RequestsFit(s) && s'.requests.Keys <= s.requests.Keys
    requires forall r | r in s'.requests :: s'.requests[r] == s.requests[r]
    requires s'.auth.tickets == s.auth.tickets && s'.auth.used == s.auth.used
    requires s'.auth.db.records.Keys == s.auth.db.records.Keys
    requires forall q | q in s.auth.db.records :: s'.auth.db.records[q].userId == s.auth.db.records[q].userId
    ensures RequestsFit(s')
  {
    forall q | q in s'.requests ensures RequestFits(s', q) {
      assert RequestFits(s, q);
    }
  }

  // ----- conservation, action by action -----

  lemma AuthConserves(s: Sys, now: Time, e: Event, mail: Mail)
    requires Inv(s.auth) && Conserved(s) && Possible(s, Do(now, Auth(e, mail)))
    ensures Conserved(Next(s, Do(now, Auth(e, mail))))
  {
    var s' := Next(s, Do(now, Auth(e, mail)));
    NewRequestFits(s, now, e, mail);
    var request := NewRequest(s.auth, At(now, e), mail);
    assert s.auth.used <= s'.auth.used;
    forall r: Id ensures UnderWay(s', r) == UnderWay(s, r) + if request.Some? && r == request.value.0 then 1 else 0 {
      if request.Some? && r == request.value.0 {
        assert UnderWay(s, r) == 0;
      }
    }
    forall r | r in s'.auth.db.records ensures Places(s', r) == 1 {
      assert Log(s'.auth.db, r) == Log(s.auth.db, r);
      if request.Some? && r == request.value.0 {
        assert Log(s.auth.db, r) == [];
        assert UnderWay(s, r) == 0 && r !in s.lost;
      } else {
        assert Places(s, r) == 1;
      }
    }
  }

  lemma EnqueueConserves(s: Sys, now: Time, r: Id)
    requires RequestsFit(s) && Conserved(s) && Possible(s, Do(now, Enqueued(r)))
    ensures Conserved(Next(s, Do(now, Enqueued(r))))
  {
    var s' := Next(s, Do(now, Enqueued(r)));
    assert RequestFits(s, r);
    forall q: Id ensures UnderWay(s', q) == UnderWay(s, q) {
      CountAppend(s.queue, s.requests[r].job, q);
    }
    forall q | q in s'.auth.db.records ensures Places(s', q) == 1 {
      assert Places(s, q) == 1;
    }
  }

  /** Taking the request away and counting its record as lost if it is still there conserves. */
  lemma DroppingRequestConserves(s: Sys, auth': State, r: Id)
    requires Conserved(s) && r in s.requests && r in s.auth.used
    requires OnlyRemovesRecords(s.auth.db, auth'.db) && auth'.used == s.auth.used
    ensures Conserved(s.(auth := auth', requests := s.requests - {r},
      lost := s.lost + if r in auth'.db.records then {r} else {}))
  {
    var s' := s.(auth := auth', requests := s.requests - {r}, lost := s.lost + if r in auth'.db.records then {r} else {});
    forall q: Id ensures UnderWay(s', q) == UnderWay(s, q) - if q == r then 1 else 0 {
    }
    forall q | q in s'.auth.db.records ensures Places(s', q) == 1 {
      assert Places(s, q) == 1;
    }
  }

  lemma FailureConserves(s: Sys, now: Time, r: Id, fails: bool)
    requires Conserved(s) && RequestsFit(s) && Possible(s, Do(now, EnqueueFailed(r, fails)))
    ensures Conserved(Next(s, Do(now, EnqueueFailed(r, fails))))
  {
    CompensationRemovesRecords(s.auth, s.requests[r], fails, now);
    assert RequestFits(s, r);
    DroppingRequestConserves(s, Compensate(s.auth, s.requests[r], fails, now), r);
  }

  /** Handling the head of the queue moves its record to a timer, to its log, or to the lost ones. */
  lemma HandlingConserves(s: Sys, h: Handled, send: SendResult, now: Time)
    requires Conserved(s) && s.queue != [] && HandleEffect(s.auth.db, s.queue[0], h, now)
    ensures Conserved(AfterHandling(s, h, send, now))
  {
    var s', job := AfterHandling(s, h, send, now), s.queue[0];
    forall q: Id
      ensures UnderWay(s', q) == UnderWay(s, q) - if job.recordId == Some(q) && h.retry.None? then 1 else 0
    {
      if h.retry.Some? {
        JobsAppend(s.timers, h.retry.value);
        CountAppend(Jobs(s.timers), h.retry.value.job, q);
      } else {
        assert s'.timers == s.timers;
      }
    }
    forall q: Id | q !in s'.auth.used ensures UnderWay(s', q) == 0 && q !in s'.lost {
      assert UnderWay(s, q) == 0;
      assert job.recordId != Some(q);
    }
    forall q | q in s'.auth.db.records ensures Places(s', q) == 1 {
      assert Places(s, q) == 1 && UnderWay(s, q) <= 1;
    }
  }

  lemma FiringConserves(s: Sys, now: Time, i: nat, fault: bool)
    requires Conserved(s) && Possible(s, Do(now, Fire(i, fault)))
    ensures Conserved(Next(s, Do(now, Fire(i, fault))))
  {
    var s', job := Next(s, Do(now, Fire(i, fault))), s.timers[i].job;
    forall q: Id ensures UnderWay(s', q) == UnderWay(s, q) - if fault && job.recordId == Some(q) then 1 else 0 {
      CountRemove(s.timers, i, q);
      CountConcat(s.queue, if fault then [] else [job], q);
    }
    forall q: Id | q !in s'.auth.used ensures UnderWay(s', q) == 0 && q !in s'.lost {
      assert UnderWay(s, q) == 0;
      CountRemove(s.timers, i, q);
    }
    forall q | q in s'.auth.db.records ensures Places(s', q) == 1 {
      assert Places(s, q) == 1;
      CountRemove(s.timers, i, q);
    }
  }

  /** A step that moves no work and settles nothing conserves. */
  lemma SettlingNothingConserves(s: Sys, db': Db, now: Time)
    requires Conserved(s) && db'.records.Keys == s.auth.db.records.Keys
    requires forall q | q in db'.records :: Terminals(Log(db', q)) == Terminals(Log(s.auth.db, q))
    ensures Conserved(s.(auth := Tick(s.auth, db', now)))
  {
    var s' := s.(auth := Tick(s.auth, db', now));
    assert forall q: Id :: UnderWay(s', q) == UnderWay(s, q);
    forall q | q in s'.auth.db.records ensures Places(s', q) == 1 {
      assert Places(s, q) == 1;
    }
  }

  lemma WebhookConserves(s: Sys, now: Time, c: Callback)
    requires Conserved(s) && Possible(s, Do(now, Webhook(c)))
    ensures Conserved(Next(s, Do(now, Webhook(c))))
  {
    HandleCallbackEffect(s.auth.db, c, now);
    SettlingNothingConserves(s, HandleCallback(s.auth.db, c, now).db, now);
  }

  // ----- the status column -----

  lemma AuthKeepsStatus(s: Sys, now: Time, e: Event, mail: Mail)
    requires Inv(s.auth) && StatusAgrees(s.auth.db) && Possible(s, Do(now, Auth(e, mail)))
    ensures StatusAgrees(Next(s, Do(now, Auth(e, mail))).auth.db)
  {
    NewRequestFits(s, now, e, mail);
    var db, db' := s.auth.db, Next(s, Do(now, Auth(e, mail))).auth.db;
    forall r | r in db'.records ensures db'.records[r].status == LastStatus(Log(db', r)) {
      assert Log(db', r) == Log(db, r);
    }
  }

  lemma RemovalKeepsStatus(db: Db, db': Db)
    requires StatusAgrees(db) && OnlyRemovesRecords(db, db')
    ensures StatusAgrees(db')
  {
  }

  // ----- every action, every run -----

  lemma ActionKeepsAuth(s: Sys, t: TimedAction)
    requires SysInv(s) && Possible(s, t)
    ensures Inv(Next(s, t).auth)
  {
    match t.action
    case Auth(e, _) => StepKeepsInv(s.auth, At(t.now, e));
    case Enqueued(_) => TickKeepsInv(s.auth, t.now);
    case EnqueueFailed(r, fails) => CompensationKeepsInv(s, r, fails, t.now);
    case HandleNext(send, f) =>
      HandleJobEffect(s.auth.db, s.blacklist, s.queue[0], send, f, t.now);
      var h := HandleJob(s.auth.db, s.blacklist, s.queue[0], send, f, t.now);
      if s.queue[0].recordId.Some? {
        RecordUpdateKeepsInv(s.auth, h.db, s.queue[0].recordId.value, t.now);
      }
    case Fire(_, _) => TickKeepsInv(s.auth, t.now);
    case Webhook(c) =>
      HandleCallbackEffect(s.auth.db, c, t.now);
      var db' := HandleCallback(s.auth.db, c, t.now).db;
      if db' != s.auth.db {
        var r :| r in s.auth.db.records && TouchesOnly(s.auth.db, db', r);
        RecordUpdateKeepsInv(s.auth, db', r, t.now);
      }
  }

  lemma ActionKeepsRequests(s: Sys, t: TimedAction)
    requires Inv(s.auth) && RequestsFit(s) && Possible(s, t)
    ensures RequestsFit(Next(s, t))
  {
    match t.action
    case Auth(e, mail) => AuthKeepsRequests(s, t.now, e, mail);
    case EnqueueFailed(r, fails) => FailureKeepsRequests(s, t.now, r, fails);
    case HandleNext(send, f) =>
      HandleJobEffect(s.auth.db, s.blacklist, s.queue[0], send, f, t.now);
      WorkerStepKeepsRequests(s, Next(s, t));
    case Webhook(c) =>
      HandleCallbackEffect(s.auth.db, c, t.now);
      WorkerStepKeepsRequests(s, Next(s, t));
    case _ => WorkerStepKeepsRequests(s, Next(s, t));
  }

  lemma ActionConserves(s: Sys, t: TimedAction)
    requires SysInv(s) && Possible(s, t)
    ensures Conserved(Next(s, t))
  {
    match t.action
    case Auth(e, mail) => AuthConserves(s, t.now, e, mail);
    case Enqueued(r) => EnqueueConserves(s, t.now, r);
    case EnqueueFailed(r, fails) => FailureConserves(s, t.now, r, fails);
    case HandleNext(send, f) =>
      HandleJobEffect(s.auth.db, s.blacklist, s.queue[0], send, f, t.now);
      HandlingConserves(s, HandleJob(s.auth.db, s.blacklist, s.queue[0], send, f, t.now), send, t.now);
    case Fire(i, fault) => FiringConserves(s, t.now, i, fault);
    case Webhook(c) => WebhookConserves(s, t.now, c);
  }

  lemma ActionKeepsStatus(s: Sys, t: TimedAction)
    requires Inv(s.auth) && StatusAgrees(s.auth.db) && Possible(s, t)
    ensures StatusAgrees(Next(s, t).auth.db)
  {
    match t.action
    case Auth(e, mail) => AuthKeepsStatus(s, t.now, e, mail);
    case EnqueueFailed(r, fails) =>
      CompensationRemovesRecords(s.auth, s.requests[r], fails, t.now);
      RemovalKeepsStatus(s.auth.db, Compensate(s.auth, s.requests[r], fails, t.now).db);
    case HandleNext(send, f) => HandleJobEffect(s.auth.db, s.blacklist, s.queue[0], send, f, t.now);
    case Webhook(c) => HandleCallbackEffect(s.auth.db, c, t.now);
    case _ =>
  }

  /** Every action of the pipeline keeps the invariant. */
  lemma ActionKeepsSysInv(s: Sys, t: TimedAction)
    requires SysInv(s) && Possible(s, t)
    ensures SysInv(Next(s, t))
  {
    ActionKeepsAuth(s, t);
    ActionKeepsRequests(s, t);
    ActionConserves(s, t);
    ActionKeepsStatus(s, t);
  }

  lemma {:induction false} RunKeepsSysInv(s: Sys, run: seq<TimedAction>)
    requires SysInv(s) && IsRunOf(s, run)
    ensures SysInv(End(s, run))
    decreases |run|
  {
    if run != [] {
      ActionKeepsSysInv(s, run[0]);
      RunKeepsSysInv(Next(s, run[0]), run[1..]);
    }
  }

  lemma StartIsSound(clock: Time)
    ensures SysInv(StartSys(clock))
  {
    assert Jobs([]) == [];
  }

  /**
   In every reachable state, whatever failed on the way, each e-mail record has exactly one of: a request about to
   enqueue, one queued job, one retry timer, one terminal history entry, or a fault that dropped its job.
   */
  lemma EveryRecordIsInOnePlace(clock: Time, run: seq<TimedAction>, r: Id)
    requires IsRunOf(StartSys(clock), run)
    requires r in End(StartSys(clock), run).auth.db.records
    ensures var s := End(StartSys(clock), run);
      (if r in s.requests then 1 else 0) + CountJobs(s.queue, r) + CountJobs(Jobs(s.timers), r)
      + Terminals(Log(s.auth.db, r)) + (if r in s.lost then 1 else 0) == 1
  {
    StartIsSound(clock);
    RunKeepsSysInv(StartSys(clock), run);
    assert Places(End(StartSys(clock), run), r) == 1;
  }

  /** In every reachable state the status column equals the last history status, or queued without one. */
  lemma StatusColumnAgreesWithLog(clock: Time, run: seq<TimedAction>, r: Id)
    requires IsRunOf(StartSys(clock), run)
    requires r in End(StartSys(clock), run).auth.db.records
    ensures var db := End(StartSys(clock), run).auth.db;
      db.records[r].status == if Log(db, r) == [] then Queued else Log(db, r)[|Log(db, r)| - 1].status
  {
    StartIsSound(clock);
    RunKeepsSysInv(StartSys(clock), run);
  }

  // ----- nothing is lost without a fault -----

  /**
   The failed request `r` is not compensated: the compensating call fails, or it is a bootstrap, which has none, or it
   is a registration whose user has verified meanwhile or is gone, which the clean-up refuses.
   */
  ghost predicate NotCompensated(s: Sys, r: Id, fails: bool)
    requires r in s.requests
  {
    || fails
    || match s.requests[r]
       case Registering(uid, _) => uid !in s.auth.db.users || s.auth.db.users[uid].emailVerifiedAt.Some?
       case Resending(_, _) => false
       case Bootstrapping(_) => true
  }

  /** The action ends a record's way for a reason outside the protocol. */
  ghost predicate IsFault(s: Sys, t: TimedAction)
    requires Possible(s, t)
  {
    match t.action
    case EnqueueFailed(r, fails) => NotCompensated(s, r, fails)
    case HandleNext(send, f) => f != NO_FAULTS || (send.Accepted? && Blank(send.externalId))
    case Fire(_, fault) => fault
    case _ => false
  }

  /** Without a fault, handling a job of an existing record settles it or sets a timer. */
  lemma FaultFreeHandlingIsDecisive(db: Db, blacklist: set<string>, job: Job, send: SendResult, now: Time)
    requires job.recordId.Some? && job.recordId.value in db.records
    requires send.Accepted? ==> !Blank(send.externalId)
    ensures var h := HandleJob(db, blacklist, job, send, NO_FAULTS, now);
      h.settled || h.retry.Some?
  {
    var r := job.recordId.value;
    if !Blank(job.to) {
      NormalOfNonBlank(job.to);
      if !IsBlacklisted(blacklist, job.to) && HasBody(job) && !send.Accepted? {
        DeliveryErrorIsDecisive(db, blacklist, job, r, send, now);
      }
    }
  }

  lemma DeliveryErrorIsDecisive(db: Db, blacklist: set<string>, job: Job, r: Id, send: SendResult, now: Time)
    requires r in db.records && !send.Accepted?
    ensures var h := HandleDeliveryError(db, blacklist, job, r, send, NO_FAULTS, now);
      h.settled || h.retry.Some?
  {
    if send.SoftBounce? {
      MarkBouncedEffect(db, r, send.error, "soft", now, false);
    }
  }

  /** A compensation that succeeds removes the record it is for. */
  lemma CompensationRemovesItsRecord(s: Sys, r: Id, now: Time)
    requires Inv(s.auth) && RequestsFit(s) && Possible(s, Do(now, EnqueueFailed(r, false)))
    requires !NotCompensated(s, r, false)
    ensures r !in Next(s, Do(now, EnqueueFailed(r, false))).auth.db.records
  {
    assert RequestFits(s, r);
    CompensationRemovesRecords(s.auth, s.requests[r], false, now);
    match s.requests[r]
    case Registering(uid, _) =>
      assert Agrees(s.auth.db.users[uid], uid in VerifiedOwners(s.auth.db.verifications));
      CleanupRemovesRecords(s.auth.db, uid);
    case Resending(ticket, _) => RollbackRemovesRecord(s.auth.db, ticket, now);
  }

  ghost predicate NothingLost(s: Sys) {
    forall r | r in s.lost :: r !in s.auth.db.records
  }

  lemma FaultFreeActionLosesNothing(s: Sys, t: TimedAction)
    requires SysInv(s) && Possible(s, t) && !IsFault(s, t) && NothingLost(s)
    ensures NothingLost(Next(s, t))
  {
    match t.action
    case Auth(e, mail) => NewRequestFits(s, t.now, e, mail);
      LostWasDrawn(s);
    case EnqueueFailed(r, fails) =>
      CompensationRemovesRecords(s.auth, s.requests[r], fails, t.now);
      CompensationRemovesItsRecord(s, r, t.now);
    case HandleNext(send, f) =>
      var job := s.queue[0];
      HandleJobEffect(s.auth.db, s.blacklist, job, send, f, t.now);
      if job.recordId.Some? && job.recordId.value in s.auth.db.records {
        FaultFreeHandlingIsDecisive(s.auth.db, s.blacklist, job, send, t.now);
      }
    case Webhook(c) => HandleCallbackEffect(s.auth.db, c, t.now);
    case _ =>
  }

  lemma LostWasDrawn(s: Sys)
    requires Conserved(s)
    ensures s.lost <= s.auth.used
  {
    forall r | r in s.lost ensures r in s.auth.used {
      assert UnderWay(s, r) <= 1;
    }
  }

  ghost predicate FaultFree(s: Sys, run: seq<TimedAction>)
    requires IsRunOf(s, run)
    decreases |run|
  {
    run == [] || (!IsFault(s, run[0]) && FaultFree(Next(s, run[0]), run[1..]))
  }

  lemma {:induction false} FaultFreeRunLosesNothing(s: Sys, run: seq<TimedAction>)
    requires SysInv(s) && NothingLost(s) && IsRunOf(s, run) && FaultFree(s, run)
    ensures NothingLost(End(s, run))
    decreases |run|
  {
    if run != [] {
      ActionKeepsSysInv(s, run[0]);
      FaultFreeActionLosesNothing(s, run[0]);
      FaultFreeRunLosesNothing(Next(s, run[0]), run[1..]);
    }
  }

  /**
   In every state of a fault-free run, where requests may fail to enqueue as long as their compensation succeeds,
   each e-mail record has exactly one of a pending request, a queued job, a timer or a terminal outcome.
   */
  lemma FaultFreeConservation(clock: Time, run: seq<TimedAction>, r: Id)
    requires IsRunOf(StartSys(clock), run) && FaultFree(StartSys(clock), run)
    requires r in End(StartSys(clock), run).auth.db.records
    ensures var s := End(StartSys(clock), run);
      (if r in s.requests then 1 else 0) + CountJobs(s.queue, r) + CountJobs(Jobs(s.timers), r)
      + Terminals(Log(s.auth.db, r)) == 1
  {
    StartIsSound(clock);
    FaultFreeRunLosesNothing(StartSys(clock), run);
    EveryRecordIsInOnePlace(clock, run, r);
  }
}
