/**
 The request handlers as the code runs them: the store commits first, Redis comes second, and a failure in Redis
 is answered by a compensating transaction. `...Fails` parameters say which of the outside calls fail.
 The handler carries the state of the whole pipeline as a ghost: each request is an `Auth` action of the pipeline,
 followed, when a mail is due, by `Enqueued` or `EnqueueFailed`.
 */
module Handlers {
  import opened Base
  import opened Tables
  import opened Transactions
  import opened AuthRuns
  import opened AuthInvariants
  import opened AuthStore
  import opened Delivery
  import opened Pipeline
  import opened Queue
  import opened Worker
  import opened FailedRegistration
  import opened Sagas
  import opened Answers
  import ResendLimit
  import FixedWindow
  import LoginGuard

  datatype Failure =
    | InvalidEmail | PasswordTooShort
    | StoreRefused(error: Error)
    | ResendLimited(decision: ResendLimit.Decision) | LoginRateLimited
    | LimiterUnavailable | EnqueueFailure

  /** What a request about a mail does to the pipeline: its transaction, and then the answer to its enqueue. */
  ghost function Requesting(s: Sys, now: Time, e: Event, mail: Mail, r: Id, enqueued: bool, fails: bool): Sys
    requires Possible(s, Do(now, Auth(e, mail)))
    requires Apply(s.auth.db, now, e).result.Ok? ==> r in Next(s, Do(now, Auth(e, mail))).requests
  {
    var s1 := Next(s, Do(now, Auth(e, mail)));
    if Apply(s.auth.db, now, e).result.Err? then s1
    else if enqueued then Next(s1, Do(now, Enqueued(r)))
    else Next(s1, Do(now, EnqueueFailed(r, fails)))
  }

  lemma RequestIsMade(s: Sys, now: Time, e: Event, mail: Mail)
    requires Possible(s, Do(now, Auth(e, mail))) && (e.Register? || e.Resend?) && Apply(s.auth.db, now, e).result.Ok?
    ensures var s1 := Next(s, Do(now, Auth(e, mail)));
      && e.ids.recordId in s1.requests
      && s1.requests[e.ids.recordId].job == JobFor(Apply(s.auth.db, now, e).db, e.ids.recordId, mail)
      && s1.auth.db == Apply(s.auth.db, now, e).db && s1.queue == s.queue && s1.auth.clock == now
  {
  }

  /** The refused transaction leaves tables and queue alone. */
  lemma RefusedIsQuiet(s: Sys, now: Time, e: Event, mail: Mail)
    requires Possible(s, Do(now, Auth(e, mail))) && (e.Register? || e.Resend?) && Apply(s.auth.db, now, e).result.Err?
    ensures Apply(s.auth.db, now, e).db == s.auth.db
    ensures Next(s, Do(now, Auth(e, mail))).auth.db == s.auth.db && Next(s, Do(now, Auth(e, mail))).queue == s.queue
  {
  }

  /** The answer to a request for a mail: refused by the store, not enqueued, or accepted. */
  function MailAnswer(committed: Result<Answer, Error>, r: Id, enqueued: bool): Result<Id, Failure> {
    if committed.Err? then Err(StoreRefused(committed.error)) else if enqueued then Ok(r) else Err(EnqueueFailure)
  }

  /** No user has the address, or one who could log in gave the wrong password. */
  ghost predicate WrongCredentials(db: Db, email: string, passwordOk: bool) {
    !HasUser(db, email) || (!passwordOk && exists u :: MayLogIn(db, email, u))
  }

  class Handler {
    const store: Store
    const queue: RedisQueue<Job>
    /** Whether there is a Redis client at all. */
    const connected: bool
    const loginFailLimit: nat
    const loginFailWindow: nat
    var resendKeys: map<string, ResendLimit.Entry>
    var loginFailures: map<string, FixedWindow.Counter>
    ghost var sys: Sys

    constructor (
      store: Store, queue: RedisQueue<Job>, connected: bool, loginFailLimit: nat, loginFailWindow: nat, ghost sys: Sys)
      requires sys.auth.db == store.pool.tables && sys.queue == Decodable(queue.Items(QUEUE_NAME))
      ensures this.store == store && this.queue == queue && resendKeys == map[] && loginFailures == map[]
      ensures this.connected == connected && this.loginFailLimit == loginFailLimit
      ensures this.loginFailWindow == loginFailWindow && this.sys == sys && Valid()
    {
      this.store, this.queue, this.connected := store, queue, connected;
      this.loginFailLimit, this.loginFailWindow := loginFailLimit, loginFailWindow;
      resendKeys, loginFailures := map[], map[];
      this.sys := sys;
    }

    /** The objects hold what the pipeline's state says. */
    ghost predicate Valid()
      reads this, store.pool, queue
    {
      sys.auth.db == store.pool.tables && sys.queue == Decodable(queue.Items(QUEUE_NAME))
    }

    /** Appends the job, unless there is no Redis or it fails. */
    method EnqueueMail(job: Job, redisFails: bool) returns (ok: bool)
      modifies queue
      ensures ok == (connected && !redisFails)
      ensures queue.Items(QUEUE_NAME) == old(queue.Items(QUEUE_NAME)) + if ok then [Json(job)] else []
      ensures Decodable(queue.Items(QUEUE_NAME)) == old(Decodable(queue.Items(QUEUE_NAME))) + if ok then [job] else []
    {
      ghost var items := queue.Items(QUEUE_NAME);
      if !connected {
        assert items + [] == items && Decodable(items) + [] == Decodable(items);
        return false;
      }
      QueueNameIsNotBlank();
      var err := queue.Enqueue(QUEUE_NAME, job, redisFails);
      ok := err.None?;
      DecodableConcat(items, if ok then [Json(job)] else []);
      assert Decodable([Json(job)]) == [job];
    }

    method Register(
      address: string, validAddress: bool, passwordLongEnough: bool, uid: Id, tokens: Tokens, ids: NewRows, mail: Mail,
      now: Time, redisFails: bool, cleanupFails: bool)
      returns (result: Result<Id, Failure>)
      requires Valid() && Inv(sys.auth)
      requires Possible(sys, Do(now, Auth(AuthRuns.Register(Normal(address), uid, tokens, ids), mail)))
      modifies this`sys, store.pool, queue
      ensures Valid()
      // the pipeline sees a registration and the answer to its enqueue, or nothing if the request is malformed
      ensures var e := AuthRuns.Register(Normal(address), uid, tokens, ids);
        && (Apply(old(sys).auth.db, now, e).result.Ok? ==> ids.recordId in Next(old(sys), Do(now, Auth(e, mail))).requests)
        && sys == if !validAddress || !passwordLongEnough then old(sys)
                  else Requesting(old(sys), now, e, mail, ids.recordId, connected && !redisFails, cleanupFails)
      // accepted: one job about the new record is queued behind the others
      ensures result.Ok? ==>
        && Outcome(store.pool.tables, Ok(Registered(result.value)))
           == RegisterWithVerification(old(store.pool.tables), Normal(address), uid, tokens, now, ids)
        && queue.Items(QUEUE_NAME)
           == old(queue.Items(QUEUE_NAME))
              + [Json(Job(Some(result.value), Normal(address), "", "", mail.otp, mail.magicLink, mail.expiresIn, 0))]
      // refused: no job, and unless the compensation itself failed, no trace in the tables
      ensures result.Err? ==> queue.Items(QUEUE_NAME) == old(queue.Items(QUEUE_NAME))
      ensures result.Err? && !cleanupFails ==> store.pool.tables == old(store.pool.tables)
      ensures var out := RegisterWithVerification(old(store.pool.tables), Normal(address), uid, tokens, now, ids);
        result == if !validAddress then Err(InvalidEmail)
                  else if !passwordLongEnough then Err(PasswordTooShort)
                  else MailAnswer(out.result, ids.recordId, connected && !redisFails)
    {
      ghost var e := AuthRuns.Register(Normal(address), uid, tokens, ids);
      ghost var s1 := Next(sys, Do(now, Auth(e, mail)));
      if Apply(sys.auth.db, now, e).result.Ok? {
        RequestIsMade(sys, now, e, mail);
      }
      var email := Trim(Lower(address));
      if !validAddress {
        return Err(InvalidEmail);
      }
      if !passwordLongEnough {
        return Err(PasswordTooShort);
      }
      var registered := store.RegisterWithVerification(email, uid, tokens, now, ids);
      if registered.Err? {
        RefusedIsQuiet(sys, now, e, mail);
        sys := s1;
        return Err(StoreRefused(registered.error));
      }
      DrawnIdsAreNew(sys.auth, At(now, e));
      CommittedRegistration(old(store.pool.tables), email, uid, tokens, now, ids);
      assert queue.Items(QUEUE_NAME) + [] == queue.Items(QUEUE_NAME);
      var ok := EnqueueMail(
        Job(Some(ids.recordId), email, "", "", mail.otp, mail.magicLink, mail.expiresIn, 0), redisFails);
      if ok {
        sys := Next(s1, Do(now, Enqueued(ids.recordId)));
        return Ok(ids.recordId);
      }
      if !cleanupFails {
        var _ := store.CleanupPendingRegistration(uid);
      }
      FailedRegistrationState(sys, now, e, mail, cleanupFails);
      sys := Next(s1, Do(now, EnqueueFailed(ids.recordId, cleanupFails)));
      return Err(EnqueueFailure);
    }

    /** The Lua script on the key of one address. */
    method CheckResendRateLimit(email: string, ms: Time) returns (count: nat, retryAfter: int)
      modifies this`resendKeys
      ensures var r := ResendLimit.Script(old(ResendKey(email)), ms);
        && ResendKey(email) == r.entry && count == r.current
        && retryAfter == if r.ttl <= 0 then ResendLimit.WINDOW_SECONDS else r.ttl
      ensures forall k | k != email :: ResendKey(k) == old(ResendKey(k))
    {
      var entry := ResendKey(email);
      var current, expiresAt := 1, None;
      if ResendLimit.Alive(entry, ms) {
        current, expiresAt := entry.count + 1, entry.expiresAt;
      }
      if current == 1 {
        expiresAt := Some(ms + ResendLimit.WINDOW);
      }
      var ttl := ResendLimit.Ttl(expiresAt, ms);
      if ttl <= 0 {
        expiresAt := Some(ms + ResendLimit.WINDOW);
        ttl := ResendLimit.Ttl(expiresAt, ms);
      }
      resendKeys := resendKeys[email := ResendLimit.Key(current, expiresAt)];
      count := current;
      retryAfter := if ttl <= 0 then ResendLimit.WINDOW_SECONDS else ttl;
    }

    function ResendKey(email: string): ResendLimit.Entry
      reads this
    {
      if email in resendKeys then resendKeys[email] else ResendLimit.NoKey
    }

    method ResendVerification(
      address: string, validAddress: bool, tokens: Tokens, ids: NewRows, mail: Mail,
      now: Time, ms: Time, limiterFails: bool, redisFails: bool, rollbackFails: bool)
      returns (result: Result<Id, Failure>)
      requires Valid() && Inv(sys.auth)
      requires Possible(sys, Do(now, Auth(Resend(Normal(address), tokens, ids), mail)))
      modifies this`resendKeys, this`sys, store.pool, queue
      ensures Valid()
      // the pipeline sees a resend and the answer to its enqueue exactly when the limiter passes
      ensures var e := Resend(Normal(address), tokens, ids);
        && (Apply(old(sys).auth.db, now, e).result.Ok? ==> ids.recordId in Next(old(sys), Do(now, Auth(e, mail))).requests)
        && sys == if validAddress && connected && !limiterFails
                     && ResendLimit.Decide(old(ResendKey(Normal(address))), ms) == ResendLimit.Pass
                  then Requesting(old(sys), now, e, mail, ids.recordId, !redisFails, rollbackFails)
                  else old(sys)
      // accepted: the limiter let it pass, the resend is committed and one job is queued
      ensures result.Ok? ==>
        && ResendLimit.Decide(old(ResendKey(Normal(address))), ms) == ResendLimit.Pass
        && result.value == ids.recordId
        && ResendIsCommitted(old(store.pool.tables), store.pool.tables, Normal(address), tokens, now, ids)
        && queue.Items(QUEUE_NAME)
           == old(queue.Items(QUEUE_NAME))
              + [Json(Job(Some(ids.recordId), Normal(address), "", "", mail.otp, mail.magicLink, mail.expiresIn, 0))]
      // refused: no job, and unless the compensation itself failed, no trace in the tables
      ensures result.Err? ==> queue.Items(QUEUE_NAME) == old(queue.Items(QUEUE_NAME))
      ensures result.Err? && !rollbackFails ==> store.pool.tables == old(store.pool.tables)
      ensures var out := Transactions.ResendVerification(old(store.pool.tables), Normal(address), tokens, now, ids);
        var decision := ResendLimit.Decide(old(ResendKey(Normal(address))), ms);
        result == if !validAddress then Err(InvalidEmail)
                  else if !connected || limiterFails then Err(LimiterUnavailable)
                  else if !decision.Pass? then Err(ResendLimited(decision))
                  else MailAnswer(out.result, ids.recordId, !redisFails)
    {
      var email := Trim(Lower(address));
      if Apply(sys.auth.db, now, Resend(email, tokens, ids)).result.Ok? {
        RequestIsMade(sys, now, Resend(email, tokens, ids), mail);
      }
      if !validAddress {
        return Err(InvalidEmail);
      }
      if !connected || limiterFails {
        return Err(LimiterUnavailable);
      }
      var count, retryAfter := CheckResendRateLimit(email, ms);
      if count > ResendLimit.RESEND_LIMIT {
        return Err(ResendLimited(ResendLimit.TooMany(retryAfter)));
      }
      if count > 1 {
        return Err(ResendLimited(ResendLimit.Cooldown(retryAfter)));
      }
      result := ResendAndEnqueue(email, tokens, ids, mail, now, redisFails, rollbackFails);
    }

    method ResendAndEnqueue(
      email: string, tokens: Tokens, ids: NewRows, mail: Mail, now: Time, redisFails: bool, rollbackFails: bool)
      returns (result: Result<Id, Failure>)
      requires Valid() && Inv(sys.auth) && connected
      requires Possible(sys, Do(now, Auth(Resend(email, tokens, ids), mail)))
      modifies this`sys, store.pool, queue
      ensures Valid()
      ensures var e := Resend(email, tokens, ids);
        && (Apply(old(sys).auth.db, now, e).result.Ok? ==> ids.recordId in Next(old(sys), Do(now, Auth(e, mail))).requests)
        && sys == Requesting(old(sys), now, e, mail, ids.recordId, !redisFails, rollbackFails)
      ensures result.Ok? ==>
        && result.value == ids.recordId
        && ResendIsCommitted(old(store.pool.tables), store.pool.tables, email, tokens, now, ids)
        && queue.Items(QUEUE_NAME)
           == old(queue.Items(QUEUE_NAME))
              + [Json(Job(Some(ids.recordId), email, "", "", mail.otp, mail.magicLink, mail.expiresIn, 0))]
      ensures result.Err? ==> queue.Items(QUEUE_NAME) == old(queue.Items(QUEUE_NAME))
      ensures result.Err? && !rollbackFails ==> store.pool.tables == old(store.pool.tables)
      ensures var out := Transactions.ResendVerification(old(store.pool.tables), email, tokens, now, ids);
        result == MailAnswer(out.result, ids.recordId, !redisFails)
    {
      ghost var e := Resend(email, tokens, ids);
      ghost var s1 := Next(sys, Do(now, Auth(e, mail)));
      if Apply(sys.auth.db, now, e).result.Ok? {
        RequestIsMade(sys, now, e, mail);
      }
      var resend := store.ResendVerification(email, tokens, now, ids);
      if resend.Err? {
        RefusedIsQuiet(sys, now, e, mail);
        sys := s1;
        return Err(StoreRefused(resend.error));
      }
      DrawnIdsAreNew(sys.auth, At(now, e));
      CommittedResend(old(store.pool.tables), email, tokens, now, ids);
      assert queue.Items(QUEUE_NAME) + [] == queue.Items(QUEUE_NAME);
      var ok := EnqueueMail(
        Job(Some(resend.value.rows.recordId), resend.value.userEmail, "", "", mail.otp, mail.magicLink, mail.expiresIn, 0),
        redisFails);
      if ok {
        sys := Next(s1, Do(now, Enqueued(ids.recordId)));
        return Ok(ids.recordId);
      }
      if !rollbackFails {
        ResendThenRollback(old(store.pool.tables), email, tokens, now, ids, now);
        store.RollbackResendVerification(Some(resend.value), now);
      }
      FailedResendState(sys, now, e, mail, rollbackFails);
      sys := Next(s1, Do(now, EnqueueFailed(ids.recordId, rollbackFails)));
      return Err(EnqueueFailure);
    }

    function LoginFailures(key: string): FixedWindow.Counter
      reads this
    {
      if key in loginFailures then loginFailures[key] else FixedWindow.Absent
    }

    /** Counts a failure; without Redis, or when it fails, nothing happens. */
    method IncreaseLoginFailCount(key: string, now: Time, fails: bool)
      modifies this`loginFailures
      ensures LoginFailures(key)
        == if !connected || fails then old(LoginFailures(key))
           else FixedWindow.Hit(old(LoginFailures(key)), now, loginFailWindow)
      ensures forall k | k != key :: LoginFailures(k) == old(LoginFailures(k))
    {
      if !connected || fails {
        return;
      }
      var counter := LoginFailures(key);
      var count := if FixedWindow.Alive(counter, now) then counter.count + 1 else 1;
      var expiresAt := if count == 1 then now + loginFailWindow else counter.expiresAt;
      loginFailures := loginFailures[key := FixedWindow.Counting(count, expiresAt)];
    }

    /** Whether the counter of the key has reached the limit; never without Redis. */
    method IsLoginRateLimited(key: string, now: Time) returns (blocked: bool)
      ensures blocked <==>
        connected && LoginGuard.Failures(LoginGuard.Guard(LoginFailures(key), 0, now)) >= loginFailLimit
    {
      if !connected {
        return false;
      }
      var counter := LoginFailures(key);
      return (if FixedWindow.Alive(counter, now) then counter.count else 0) >= loginFailLimit;
    }

    /** The credentials, the new session, and what becomes of the counter. */
    method Authenticate(
      key: string, email: string, passwordOk: bool, hash: string, expiresAt: Time, x: Id, now: Time, counterFails: bool)
      returns (result: Result<Id, Failure>, ghost step: LoginGuard.LoginStep)
      requires UniqueIndexes(store.pool.tables)
      modifies this`loginFailures, store.pool
      ensures result.Ok? || result.error.StoreRefused?
      ensures Outcome(store.pool.tables, AnswerOf(result))
        == Transactions.Login(old(store.pool.tables), email, passwordOk, hash, expiresAt, x)
      ensures LoginFailures(key) == CounterBy(old(LoginFailures(key)), now, step, loginFailWindow)
      ensures forall k | k != key :: LoginFailures(k) == old(LoginFailures(k))
      ensures step.Succeed? <==> result.Ok? && connected && !counterFails
      // a failure is counted for an unknown address, and for a wrong password of a user who could log in
      ensures step.Fail? <==> connected && !counterFails && WrongCredentials(old(store.pool.tables), email, passwordOk)
      ensures !connected || counterFails ==> step.Leave?
      ensures !step.Check?
    {
      step := LoginGuard.Leave;
      var found := store.FindUser(store.pool.tables, email);
      if found.None? {
        IncreaseLoginFailCount(key, now, counterFails);
        return Err(StoreRefused(InvalidCredentials)), if !connected || counterFails then step else LoginGuard.Fail;
      }
      var user := store.pool.tables.users[found.value];
      if user.emailVerifiedAt.None? {
        return Err(StoreRefused(EmailUnverified)), step;
      }
      if user.status != 1 {
        return Err(StoreRefused(InvalidCredentials)), step;
      }
      assert MayLogIn(store.pool.tables, email, found.value);
      if !passwordOk {
        IncreaseLoginFailCount(key, now, counterFails);
        return Err(StoreRefused(InvalidCredentials)), if !connected || counterFails then step else LoginGuard.Fail;
      }
      var saved := store.SaveRefreshSession(hash, found.value, expiresAt, x);
      if saved.Err? {
        return Err(StoreRefused(saved.error)), step;
      }
      if !connected || counterFails {
        return Ok(found.value), step;
      }
      loginFailures := loginFailures - {key};
      return Ok(found.value), LoginGuard.Succeed;
    }

    /**
     Check the failure counter, then the credentials. A look-up that fails refuses the request; a counter that cannot
     be changed afterwards does not. What happened to the counter is the step returned. For the pipeline a request that
     is not blocked is a login.
     */
    method Login(
      key: string, email: string, passwordOk: bool, hash: string, expiresAt: Time, x: Id, now: Time,
      lookupFails: bool, counterFails: bool, ghost mail: Mail)
      returns (result: Result<Id, Failure>, ghost step: LoginGuard.LoginStep)
      requires Valid() && UniqueIndexes(sys.auth.db)
      requires Possible(sys, Do(now, Auth(LogIn(email, passwordOk, hash, expiresAt, x), mail)))
      modifies this`loginFailures, this`sys, store.pool
      ensures Valid()
      ensures var refused := connected && lookupFails;
        var blocked := connected && !lookupFails
          && LoginGuard.Failures(LoginGuard.Guard(old(LoginFailures(key)), 0, now)) >= loginFailLimit;
        && (result == Err(LimiterUnavailable) <==> refused)
        && (result == Err(LoginRateLimited) <==> blocked)
        && sys == (if refused || blocked then old(sys)
                   else Next(old(sys), Do(now, Auth(LogIn(email, passwordOk, hash, expiresAt, x), mail))))
        && (refused || blocked ==> LoginFailures(key) == old(LoginFailures(key)))
        && (!refused && !blocked ==>
              && (result.Ok? || result.error.StoreRefused?)
              && AnswerOf(result)
                 == Transactions.Login(old(store.pool.tables), email, passwordOk, hash, expiresAt, x).result)
        // the failures that are counted
        && (step.Fail? <==>
              !refused && !blocked && connected && !counterFails
              && WrongCredentials(old(store.pool.tables), email, passwordOk))
      ensures LoginFailures(key)
        == if connected then CounterAfter(old(LoginFailures(key)), now, step, loginFailLimit, loginFailWindow)
           else old(LoginFailures(key))
      ensures forall k | k != key :: LoginFailures(k) == old(LoginFailures(k))
      ensures step.Succeed? <==> result.Ok? && connected && !counterFails
      ensures !connected || counterFails ==> step.Leave?
    {
      step := LoginGuard.Leave;
      ghost var counter := LoginFailures(key);
      GuardedLogin(counter, now, step, loginFailLimit, loginFailWindow);
      if connected && lookupFails {
        return Err(LimiterUnavailable), step;
      }
      var blocked := IsLoginRateLimited(key, now);
      if blocked {
        return Err(LoginRateLimited), step;
      }
      LoginIsQuiet(sys, now, email, passwordOk, hash, expiresAt, x, mail);
      sys := Next(sys, Do(now, Auth(LogIn(email, passwordOk, hash, expiresAt, x), mail)));
      result, step := Authenticate(key, email, passwordOk, hash, expiresAt, x, now, counterFails);
      GuardedLogin(counter, now, step, loginFailLimit, loginFailWindow);
    }
  }

  /** What a step other than a check makes of the counter. */
  ghost function CounterBy(counter: FixedWindow.Counter, now: Time, step: LoginGuard.LoginStep, window: nat)
    : FixedWindow.Counter
  {
    if step.Fail? then FixedWindow.Hit(counter, now, window)
    else if step.Succeed? then FixedWindow.Absent
    else counter
  }

  lemma LoginIsQuiet(
    s: Sys, now: Time, email: string, passwordOk: bool, hash: string, expiresAt: Time, x: Id, mail: Mail)
    requires Possible(s, Do(now, Auth(LogIn(email, passwordOk, hash, expiresAt, x), mail)))
    ensures var s' := Next(s, Do(now, Auth(LogIn(email, passwordOk, hash, expiresAt, x), mail)));
      && s'.auth.db == Transactions.Login(s.auth.db, email, passwordOk, hash, expiresAt, x).db
      && s'.queue == s.queue
  {
  }

  ghost function AnswerOf(result: Result<Id, Failure>): Result<Answer, Error>
    requires result.Ok? || result.error.StoreRefused?
  {
    match result
    case Ok(uid) => Ok(LoggedIn(uid))
    case Err(failure) => Err(failure.error)
  }

  ghost predicate ResendIsCommitted(db: Db, db': Db, email: string, tokens: Tokens, now: Time, ids: NewRows) {
    var out := Transactions.ResendVerification(db, email, tokens, now, ids);
    out.result.Ok? && out.db == db'
  }

  ghost function CounterAfter(
    counter: FixedWindow.Counter, now: Time, step: LoginGuard.LoginStep, limit: nat, window: nat): FixedWindow.Counter
  {
    var steps := [LoginGuard.LoginAt(now, LoginGuard.Check), LoginGuard.LoginAt(now, step)];
    LoginGuard.After(LoginGuard.Guard(counter, 0, now), steps, limit, window).counter
  }

  /** What each step after the check makes of the counter. */
  lemma GuardedLogin(counter: FixedWindow.Counter, now: Time, step: LoginGuard.LoginStep, limit: nat, window: nat)
    ensures CounterAfter(counter, now, step, limit, window)
      == if LoginGuard.Failures(LoginGuard.Guard(counter, 0, now)) >= limit then counter
         else CounterBy(counter, now, step, window)
  {
    var steps := [LoginGuard.LoginAt(now, LoginGuard.Check), LoginGuard.LoginAt(now, step)];
    var checked := LoginGuard.Next(LoginGuard.Guard(counter, 0, now), steps[0], limit, window);
    assert steps[1..] == [steps[1]];
    assert LoginGuard.After(checked, [steps[1]], limit, window) == LoginGuard.Next(checked, steps[1], limit, window);
  }

  /** A committed registration is addressed to the registered address, and its clean-up gives the old tables back. */
  lemma CommittedRegistration(db: Db, email: string, uid: Id, tokens: Tokens, now: Time, ids: NewRows)
    requires Consistent(db) && uid !in db.users && ids.recordId !in db.records
    requires ids.otpId !in db.verifications && ids.magicId !in db.verifications && ids.otpId != ids.magicId
    requires RegisterWithVerification(db, email, uid, tokens, now, ids).result.Ok?
    ensures var db' := RegisterWithVerification(db, email, uid, tokens, now, ids).db;
      && ids.recordId in db'.records && db'.records[ids.recordId].toEmail == email
      && CleanupPendingRegistration(db', uid).db == db
  {
    var db' := RegisterWithVerification(db, email, uid, tokens, now, ids).db;
    RegisterKeepsConsistent(db, email, uid, tokens, now, ids);
    RegisterThenErase(db, email, uid, tokens, now, ids);
    CleanupIsErasure(db', uid);
  }

  lemma CommittedResend(db: Db, email: string, tokens: Tokens, now: Time, ids: NewRows)
    requires Transactions.ResendVerification(db, email, tokens, now, ids).result.Ok?
    ensures var out := Transactions.ResendVerification(db, email, tokens, now, ids);
      && out.result.value.Resent? && out.result.value.ticket.rows == ids
      && out.result.value.ticket.userId in out.db.users
      && ids.recordId in out.db.records
      && out.db.records[ids.recordId].toEmail == out.db.users[out.result.value.ticket.userId].email
  {
  }

  /** What the pipeline's failure action does to tables and queue is what the handler does. */
  lemma FailedRegistrationState(s: Sys, now: Time, e: Event, mail: Mail, fails: bool)
    requires Possible(s, Do(now, Auth(e, mail))) && e.Register? && Apply(s.auth.db, now, e).result.Ok?
    ensures var s1, db1 := Next(s, Do(now, Auth(e, mail))), Apply(s.auth.db, now, e).db;
      && Possible(s1, Do(now, EnqueueFailed(e.ids.recordId, fails)))
      && var s2 := Next(s1, Do(now, EnqueueFailed(e.ids.recordId, fails)));
         && s2.queue == s.queue
         && s2.auth.db == if fails then db1 else CleanupPendingRegistration(db1, e.uid).db
  {
    RegisterMakesRequest(s, now, e, mail);
  }

  lemma FailedResendState(s: Sys, now: Time, e: Event, mail: Mail, fails: bool)
    requires Possible(s, Do(now, Auth(e, mail))) && e.Resend? && Apply(s.auth.db, now, e).result.Ok?
    ensures var s1, out := Next(s, Do(now, Auth(e, mail))), Apply(s.auth.db, now, e);
      && out.result.value.Resent? && Possible(s1, Do(now, EnqueueFailed(e.ids.recordId, fails)))
      && var s2 := Next(s1, Do(now, EnqueueFailed(e.ids.recordId, fails)));
         && s2.queue == s.queue
         && s2.auth.db == if fails then out.db else RollbackResend(out.db, out.result.value.ticket, now)
  {
    CommittedResend(s.auth.db, e.email, e.tokens, now, e.ids);
    ResendMakesRequest(s, now, e, mail, Apply(s.auth.db, now, e).result.value.ticket);
  }
}
