/** Every mail goes to the address of the user it is about, through queue, retries and whatever others do meanwhile. */
module Addressing {
  import opened Base
  import opened Tables
  import opened Transactions
  import opened AuthRuns
  import opened AuthInvariants
  import opened Delivery
  import opened DeliveryFacts
  import opened Pipeline
  import opened Conservation

  // ----- records -----

  /** A record about a user has that user's address. */
  ghost predicate RecordAddressed(db: Db, r: Id)
    requires r in db.records
  {
    var record := db.records[r];
    record.userId.Some? && record.userId.value in db.users ==> record.toEmail == db.users[record.userId.value].email
  }

  ghost predicate RecordsAddressed(db: Db) {
    forall r | r in db.records :: RecordAddressed(db, r)
  }

  /** Users who were there keep their address, and no record is about one who was not. */
  ghost predicate AddressesKept(db: Db, db': Db) {
    && (forall u | u in db.users && u in db'.users :: db'.users[u].email == db.users[u].email)
    && (forall u | u in db'.users && u !in db.users :: forall r | r in db.records :: db.records[r].userId != Some(u))
  }

  /** Each record is as before, or about nobody, or newly made for a user and with that user's address. */
  ghost predicate RecordsKept(db: Db, db': Db) {
    forall r | r in db'.records ::
      || (r in db.records && db'.records[r].userId == db.records[r].userId && db'.records[r].toEmail == db.records[r].toEmail)
      || RecordAddressed(db', r)
  }

  lemma KeptStaysAddressed(db: Db, db': Db)
    requires RecordsAddressed(db) && RecordsHaveUsers(db.records, db.users)
    requires AddressesKept(db, db') && RecordsKept(db, db')
    ensures RecordsAddressed(db')
  {
    forall r | r in db'.records ensures RecordAddressed(db', r) {
      assert r in db.records ==> RecordAddressed(db, r);
    }
  }

  lemma CreateAddresses(db: Db, uid: Id, tokens: Tokens, now: Time, ids: NewRows)
    ensures var db' := CreateVerification(db, uid, tokens, now, ids).db;
      AddressesKept(db, db') && RecordsKept(db, db')
  {
  }

  lemma RegisterAddresses(db: Db, email: string, uid: Id, tokens: Tokens, now: Time, ids: NewRows)
    requires RecordsHaveUsers(db.records, db.users) && uid !in db.users
    ensures var db' := RegisterWithVerification(db, email, uid, tokens, now, ids).db;
      AddressesKept(db, db') && RecordsKept(db, db')
  {
  }

  lemma ResendAddresses(db: Db, email: string, tokens: Tokens, now: Time, ids: NewRows)
    ensures var db' := ResendVerification(db, email, tokens, now, ids).db;
      AddressesKept(db, db') && RecordsKept(db, db')
  {
  }

  lemma VerifyingAddresses(db: Db, now: Time, e: Event)
    requires e.VerifyOtp? || e.VerifyMagic?
    ensures var db' := Apply(db, now, e).db;
      AddressesKept(db, db') && RecordsKept(db, db')
  {
    OtherTransactionsKeepRecords(db, now, e);
    if e.VerifyOtp? {
      VerifyOtpKeepsIndexedColumns(db, e.email, e.hash, now);
    } else {
      VerifyMagicKeepsIndexedColumns(db, e.hash, now);
    }
  }

  lemma RemovalAddresses(db: Db, ticket: Ticket, now: Time, uid: Id)
    ensures AddressesKept(db, RollbackResend(db, ticket, now)) && RecordsKept(db, RollbackResend(db, ticket, now))
    ensures var db' := CleanupPendingRegistration(db, uid).db;
      AddressesKept(db, db') && RecordsKept(db, db')
  {
  }

  lemma SessionEventAddresses(db: Db, now: Time, e: Event)
    requires e.LogIn? || e.Rotate? || e.Logout? || e.LogoutAll?
    ensures var db' := Apply(db, now, e).db;
      AddressesKept(db, db') && RecordsKept(db, db')
  {
    SessionEventKeepsUsers(db, now, e);
    OtherTransactionsKeepRecords(db, now, e);
  }

  lemma SessionEventKeepsUsers(db: Db, now: Time, e: Event)
    requires e.LogIn? || e.Rotate? || e.Logout? || e.LogoutAll?
    ensures Apply(db, now, e).db.users == db.users
  {
  }

  lemma BootstrapAddresses(db: Db, email: string, passwordOk: bool, tenantTaken: bool, uid: Id)
    requires RecordsHaveUsers(db.records, db.users) && uid !in db.users
    ensures var db' := Bootstrap(db, email, passwordOk, tenantTaken, uid).db;
      AddressesKept(db, db') && RecordsKept(db, db')
  {
  }

  lemma StepAddresses(s: State, t: Timed)
    requires OnlyDrawnIds(s) && RecordsHaveUsers(s.db.records, s.db.users) && Admissible(s, t)
    ensures AddressesKept(s.db, Step(s, t).db) && RecordsKept(s.db, Step(s, t).db)
  {
    DrawnIdsAreNew(s, t);
    match t.event
    case Register(email, uid, tokens, ids) => RegisterAddresses(s.db, email, uid, tokens, t.now, ids);
    case Create(uid, tokens, ids) => CreateAddresses(s.db, uid, tokens, t.now, ids);
    case Resend(email, tokens, ids) => ResendAddresses(s.db, email, tokens, t.now, ids);
    case Rollback(ticket) => RemovalAddresses(s.db, ticket, t.now, 0);
    case Cleanup(uid) => RemovalAddresses(s.db, Ticket(0, NewRows(0, 0, 0), None, map[]), t.now, uid);
    case VerifyOtp(_, _) => VerifyingAddresses(s.db, t.now, t.event);
    case VerifyMagic(_) => VerifyingAddresses(s.db, t.now, t.event);
    case BootstrapOwner(email, ok, taken, uid) => BootstrapAddresses(s.db, email, ok, taken, uid);
    case _ => SessionEventAddresses(s.db, t.now, t.event);
  }

  // ----- jobs -----

  /** The job names a record by an id that has been drawn, and while the record exists, has its address. */
  ghost predicate JobFits(auth: State, job: Job) {
    job.recordId.Some? ==>
      && job.recordId.value in auth.used
      && (job.recordId.value in auth.db.records ==> job.to == auth.db.records[job.recordId.value].toEmail)
  }

  ghost predicate AttemptFits(auth: State, a: Attempt) {
    a.recordId in auth.used && (a.recordId in auth.db.records ==> a.to == auth.db.records[a.recordId].toEmail)
  }

  ghost predicate JobsFit(auth: State, jobs: seq<Job>) {
    forall i | 0 <= i < |jobs| :: JobFits(auth, jobs[i])
  }

  ghost predicate TimersFit(auth: State, timers: seq<Timer>) {
    forall i | 0 <= i < |timers| :: JobFits(auth, timers[i].job)
  }

  ghost predicate AttemptsFit(auth: State, sends: seq<Attempt>) {
    forall i | 0 <= i < |sends| :: AttemptFits(auth, sends[i])
  }

  ghost predicate RequestsAddressed(auth: State, requests: map<Id, Request>) {
    forall r | r in requests :: JobFits(auth, requests[r].job)
  }

  /** Records, and whatever waits or was sent for them, have the addresses they should have. */
  ghost predicate Fits(s: Sys) {
    && RecordsAddressed(s.auth.db) && RequestsAddressed(s.auth, s.requests)
    && JobsFit(s.auth, s.queue) && TimersFit(s.auth, s.timers) && AttemptsFit(s.auth, s.sends)
  }

  /** The records that are left have the address they had, and ids not drawn before are new. */
  ghost predicate SameAddresses(auth: State, auth': State) {
    && auth.used <= auth'.used
    && (forall r | r in auth'.db.records && r in auth.used ::
          r in auth.db.records && auth'.db.records[r].toEmail == auth.db.records[r].toEmail)
  }

  /** A change of the tables that keeps the addresses keeps everything addressed. */
  lemma TablesStayAddressed(s: Sys, auth': State)
    requires Fits(s) && SameAddresses(s.auth, auth') && RecordsAddressed(auth'.db)
    ensures Fits(s.(auth := auth'))
  {
    forall job | JobFits(s.auth, job) ensures JobFits(auth', job) {}
    forall a | AttemptFits(s.auth, a) ensures AttemptFits(auth', a) {}
  }

  // ----- every action -----

  lemma StepStaysAddressed(s: State, t: Timed)
    requires OnlyDrawnIds(s) && RecordsHaveUsers(s.db.records, s.db.users) && RecordsAddressed(s.db) && Admissible(s, t)
    ensures RecordsAddressed(Step(s, t).db)
  {
    StepAddresses(s, t);
    KeptStaysAddressed(s.db, Step(s, t).db);
  }

  lemma NewJobIsAddressed(s: State, t: Timed, mail: Mail)
    requires NewRequest(s, t, mail).Some?
    ensures JobFits(Step(s, t), NewRequest(s, t, mail).value.1.job)
  {
    var drawn := DrawnIds(t.event);
    assert drawn[|drawn| - 1] in drawn;
  }

  lemma AuthActionFits(s: Sys, now: Time, e: Event, mail: Mail)
    requires Inv(s.auth) && Fits(s) && Possible(s, Do(now, Auth(e, mail)))
    ensures Fits(Next(s, Do(now, Auth(e, mail))))
  {
    var auth', request := Step(s.auth, At(now, e)), NewRequest(s.auth, At(now, e), mail);
    NewRequestFits(s, now, e, mail);
    StepStaysAddressed(s.auth, At(now, e));
    TablesStayAddressed(s, auth');
    if request.Some? {
      NewJobIsAddressed(s.auth, At(now, e), mail);
      assert RequestsAddressed(auth', s.requests[request.value.0 := request.value.1]);
    }
  }

  lemma CompensationFits(s: Sys, r: Id, fails: bool, now: Time)
    requires Inv(s.auth) && RequestsFit(s) && Fits(s) && Possible(s, Do(now, EnqueueFailed(r, fails)))
    ensures RecordsAddressed(Compensate(s.auth, s.requests[r], fails, now).db)
  {
    var request := s.requests[r];
    assert RequestFits(s, r);
    if !fails && !request.Bootstrapping? {
      var t := At(now, if request.Registering? then Cleanup(request.uid) else Rollback(request.ticket));
      assert DrawnIds(t.event) == [];
      StepStaysAddressed(s.auth, t);
    }
  }

  lemma FailureFits(s: Sys, r: Id, fails: bool, now: Time)
    requires Inv(s.auth) && RequestsFit(s) && Fits(s) && Possible(s, Do(now, EnqueueFailed(r, fails)))
    ensures Fits(Next(s, Do(now, EnqueueFailed(r, fails))))
  {
    CompensationFits(s, r, fails, now);
    CompensationRemovesRecords(s.auth, s.requests[r], fails, now);
    TablesStayAddressed(s, Compensate(s.auth, s.requests[r], fails, now));
  }

  /** The worker changes neither owners nor addresses. */
  lemma WorkerTablesFit(s: Sys, db': Db, r: Id, now: Time)
    requires Fits(s) && OnlyDrawnIds(s.auth) && TouchesOnly(s.auth.db, db', r)
    ensures Fits(s.(auth := Tick(s.auth, db', now)))
  {
    forall q | q in db'.records ensures RecordAddressed(db', q) {
      assert RecordAddressed(s.auth.db, q);
    }
    TablesStayAddressed(s, Tick(s.auth, db', now));
  }

  /** What is left in the queue, the retry and the attempt fit if the job that was handled did. */
  lemma HandledJobFits(auth: State, queue: seq<Job>, h: Handled, send: SendResult, now: Time, db: Db)
    requires queue != [] && JobsFit(auth, queue) && HandleEffect(db, queue[0], h, now)
    ensures JobsFit(auth, queue[1..])
    ensures TimersFit(auth, if h.retry.Some? then [h.retry.value] else [])
    ensures AttemptsFit(auth, AttemptOf(queue[0], h.sent, send, now))
  {
    assert JobFits(auth, queue[0]);
  }

  lemma HandlingFits(s: Sys, h: Handled, send: SendResult, now: Time)
    requires Fits(s) && OnlyDrawnIds(s.auth) && s.queue != [] && HandleEffect(s.auth.db, s.queue[0], h, now)
    ensures Fits(AfterHandling(s, h, send, now))
  {
    var job, auth' := s.queue[0], Tick(s.auth, h.db, now);
    HandledTablesFit(s, h, now);
    HandledJobFits(auth', s.queue, h, send, now, s.auth.db);
    MoreTimersFit(auth', s.timers, if h.retry.Some? then [h.retry.value] else []);
    MoreAttemptsFit(auth', s.sends, AttemptOf(job, h.sent, send, now));
  }

  lemma HandledTablesFit(s: Sys, h: Handled, now: Time)
    requires Fits(s) && OnlyDrawnIds(s.auth) && s.queue != [] && HandleEffect(s.auth.db, s.queue[0], h, now)
    ensures Fits(s.(auth := Tick(s.auth, h.db, now)))
  {
    WorkerTablesFit(s, h.db, if s.queue[0].recordId.Some? then s.queue[0].recordId.value else 0, now);
  }

  lemma MoreTimersFit(auth: State, a: seq<Timer>, b: seq<Timer>)
    requires TimersFit(auth, a) && TimersFit(auth, b)
    ensures TimersFit(auth, a + b)
  {
  }

  lemma MoreAttemptsFit(auth: State, a: seq<Attempt>, b: seq<Attempt>)
    requires AttemptsFit(auth, a) && AttemptsFit(auth, b)
    ensures AttemptsFit(auth, a + b)
  {
  }

  lemma WebhookFits(s: Sys, now: Time, c: Callback)
    requires Fits(s) && OnlyDrawnIds(s.auth) && Possible(s, Do(now, Webhook(c)))
    ensures Fits(Next(s, Do(now, Webhook(c))))
  {
    var db' := HandleCallback(s.auth.db, c, now).db;
    HandleCallbackEffect(s.auth.db, c, now);
    if db' == s.auth.db {
      TablesStayAddressed(s, Tick(s.auth, db', now));
    } else {
      var r :| r in s.auth.db.records && TouchesOnly(s.auth.db, db', r);
      WorkerTablesFit(s, db', r, now);
    }
  }

  lemma ActionFits(s: Sys, t: TimedAction)
    requires SysInv(s) && Fits(s) && Possible(s, t)
    ensures Fits(Next(s, t))
  {
    match t.action
    case Auth(e, mail) => AuthActionFits(s, t.now, e, mail);
    case EnqueueFailed(r, fails) => FailureFits(s, r, fails, t.now);
    case HandleNext(send, f) =>
      HandleJobEffect(s.auth.db, s.blacklist, s.queue[0], send, f, t.now);
      HandlingFits(s, HandleJob(s.auth.db, s.blacklist, s.queue[0], send, f, t.now), send, t.now);
    case Webhook(c) => WebhookFits(s, t.now, c);
    case Enqueued(_) => QuietFits(s, t);
    case Fire(_, _) => QuietFits(s, t);
  }

  lemma QuietFits(s: Sys, t: TimedAction)
    requires Fits(s) && OnlyDrawnIds(s.auth) && Possible(s, t) && (t.action.Enqueued? || t.action.Fire?)
    ensures Fits(Next(s, t))
  {
    TablesStayAddressed(s, Tick(s.auth, s.auth.db, t.now));
  }

  lemma {:induction false} RunFits(s: Sys, run: seq<TimedAction>)
    requires SysInv(s) && Fits(s) && IsRunOf(s, run)
    ensures Fits(End(s, run))
    decreases |run|
  {
    if run != [] {
      ActionKeepsSysInv(s, run[0]);
      ActionFits(s, run[0]);
      RunFits(Next(s, run[0]), run[1..]);
    }
  }

  /** In every run, every attempt for a record about a user went to that user's address, and every waiting job will. */
  lemma MailsGoToTheirUser(clock: Time, run: seq<TimedAction>, r: Id, u: Id)
    requires IsRunOf(StartSys(clock), run)
    requires var db := End(StartSys(clock), run).auth.db;
      r in db.records && db.records[r].userId == Some(u) && u in db.users
    ensures var s := End(StartSys(clock), run);
      && (forall i | 0 <= i < |s.sends| && s.sends[i].recordId == r :: s.sends[i].to == s.auth.db.users[u].email)
      && (forall i | 0 <= i < |s.queue| && s.queue[i].recordId == Some(r) :: s.queue[i].to == s.auth.db.users[u].email)
      && (forall i | 0 <= i < |s.timers| && s.timers[i].job.recordId == Some(r) ::
            s.timers[i].job.to == s.auth.db.users[u].email)
  {
    StartIsSound(clock);
    RunFits(StartSys(clock), run);
    var s := End(StartSys(clock), run);
    assert RecordAddressed(s.auth.db, r);
    forall i | 0 <= i < |s.sends| && s.sends[i].recordId == r ensures s.sends[i].to == s.auth.db.users[u].email {
      assert AttemptFits(s.auth, s.sends[i]);
    }
    forall i | 0 <= i < |s.queue| && s.queue[i].recordId == Some(r) ensures s.queue[i].to == s.auth.db.users[u].email {
      assert JobFits(s.auth, s.queue[i]);
    }
    forall i | 0 <= i < |s.timers| && s.timers[i].job.recordId == Some(r)
      ensures s.timers[i].job.to == s.auth.db.users[u].email
    {
      assert JobFits(s.auth, s.timers[i].job);
    }
  }
}
