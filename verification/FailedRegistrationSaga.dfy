/**
 The saga of Register over the whole system: a registration whose enqueue fails and whose clean-up succeeds leaves no
 trace, whatever the rest of the system does in between.
 */
module FailedRegistrationSaga {
  import opened Base
  import opened Tables
  import opened Transactions
  import opened AuthRuns
  import opened AuthInvariants
  import opened FailedRegistration
  import opened Pipeline
  import opened Conservation
  import opened Sagas
  import opened WithoutRequest

  /** The user waits, and has one record, which has not been sent. */
  ghost predicate FirstMailOnly(db: Db, uid: Id, r: Id) {
    RecordsOf(db, uid) == {r} && r in db.records && r !in db.history && db.records[r].externalId.None?
  }

  /** The registration has committed and waits for the answer to its enqueue. */
  ghost predicate Pending(s: Sys, uid: Id, r: Id, email: string, links: set<string>) {
    && SysInv(s) && Waiting(s.auth.db, uid, email, links) && FirstMailOnly(s.auth.db, uid, r)
    && r in s.requests && s.requests[r].Registering? && s.requests[r].uid == uid
  }

  /** The system with the user erased and the request taken back. */
  ghost function Undone(s: Sys, uid: Id, r: Id): Sys {
    Besides(s, Erased(s.auth, uid), r)
  }

  /** The action is not about the user; the worker and the callbacks may do anything. */
  ghost predicate ActionElsewhere(s: Sys, t: TimedAction, uid: Id, r: Id, email: string, links: set<string>)
    requires Possible(s, t)
  {
    match t.action
    case Auth(e, _) => Elsewhere(e, uid, email, links)
    case Enqueued(q) => q != r
    case EnqueueFailed(q, _) =>
      && q != r
      && (s.requests[q].Registering? ==> s.requests[q].uid != uid)
      && (s.requests[q].Resending? ==> s.requests[q].ticket.userId != uid)
    case _ => true
  }

  lemma ErasedMails(db: Db, uid: Id, r: Id)
    requires FirstMailOnly(db, uid, r)
    ensures LacksOnly(Erase(db, uid), db, r)
  {
    assert db.history - {r} == db.history;
  }

  lemma ErasedIsAlike(s: Sys, uid: Id, r: Id, email: string, links: set<string>)
    requires Pending(s, uid, r, email, links)
    ensures Alike(Undone(s, uid, r), s, r)
  {
    ErasedMails(s.auth.db, uid, r);
  }

  // ----- quiet actions -----

  lemma ErasedWithMails(db: Db, db': Db, uid: Id, r: Id)
    requires FirstMailOnly(db, uid, r) && db' == db.(records := db'.records, history := db'.history)
    requires SameOwners(db, db') && db'.records[r] == db.records[r] && r !in db'.history
    ensures FirstMailOnly(db', uid, r) && Erase(db', uid) == WithMailsOf(Erase(db, uid), db', r)
  {
    assert RecordsOf(db', uid) == RecordsOf(db, uid);
    assert db'.history - {r} == db'.history;
  }

  lemma QuietCommutes(s: Sys, t: TimedAction, uid: Id, r: Id, email: string, links: set<string>)
    requires Pending(s, uid, r, email, links) && Possible(s, t) && Quiet(t, r)
    ensures Pending(Next(s, t), uid, r, email, links)
    ensures Possible(Undone(s, uid, r), t) && Next(Undone(s, uid, r), t) == Undone(Next(s, t), uid, r)
  {
    ActionKeepsSysInv(s, t);
    ErasedIsAlike(s, uid, r, email, links);
    QuietAlike(Undone(s, uid, r), s, r, t);
    QuietLeavesTheRest(Undone(s, uid, r), s, r, t);
    ErasedWithMails(s.auth.db, Next(s, t).auth.db, uid, r);
  }

  // ----- transactions of others -----

  lemma OwnMailStays(db: Db, db': Db, uid: Id, r: Id)
    requires FirstMailOnly(db, uid, r) && SameOwn(db, db', uid)
    ensures FirstMailOnly(db', uid, r)
  {
    assert r in RecordsOf(db, uid);
  }

  /** The transaction commutes with the erasure, and the user keeps waiting. */
  lemma StepCommutes(s: State, t: Timed, uid: Id, r: Id, email: string, links: set<string>)
    requires Inv(s) && Waiting(s.db, uid, email, links) && FirstMailOnly(s.db, uid, r)
    requires Admissible(s, t) && Elsewhere(t.event, uid, email, links)
    ensures Waiting(Step(s, t).db, uid, email, links) && FirstMailOnly(Step(s, t).db, uid, r)
    ensures Admissible(Erased(s, uid), t) && Step(Erased(s, uid), t) == Erased(Step(s, t), uid)
    ensures Apply(Erase(s.db, uid), t.now, t.event)
      == Outcome(Erase(Apply(s.db, t.now, t.event).db, uid), Apply(s.db, t.now, t.event).result)
  {
    TransactionElsewhere(s, t, uid, email, links);
    TransactionKeepsOwn(s, t, uid, email, links);
    OwnKeepsWaiting(s.db, Step(s, t).db, uid, email, links);
    OwnMailStays(s.db, Step(s, t).db, uid, r);
  }

  lemma AuthActionCommutes(s: Sys, now: Time, e: Event, mail: Mail, uid: Id, r: Id, email: string, links: set<string>)
    requires Pending(s, uid, r, email, links) && Possible(s, Do(now, Auth(e, mail))) && Elsewhere(e, uid, email, links)
    ensures var t := Do(now, Auth(e, mail));
      && Pending(Next(s, t), uid, r, email, links)
      && Possible(Undone(s, uid, r), t) && Next(Undone(s, uid, r), t) == Undone(Next(s, t), uid, r)
  {
    var t := At(now, e);
    ActionKeepsSysInv(s, Do(now, Auth(e, mail)));
    StepCommutes(s.auth, t, uid, r, email, links);
    ErasedMails(Step(s.auth, t).db, uid, r);
    DrawnIdsAreNew(s.auth, t);
    SameNewRequest(Erased(s.auth, uid), s.auth, t, mail, r);
    ErasedIsAlike(s, uid, r, email, links);
    TransactionAlike(Undone(s, uid, r), s, r, now, e, mail);
  }

  lemma CompensationCommutes(
    s: Sys, now: Time, q: Id, fails: bool, uid: Id, r: Id, email: string, links: set<string>)
    requires Pending(s, uid, r, email, links) && Possible(s, Do(now, EnqueueFailed(q, fails)))
    requires ActionElsewhere(s, Do(now, EnqueueFailed(q, fails)), uid, r, email, links)
    ensures var auth' := Compensate(s.auth, s.requests[q], fails, now);
      && Compensate(Erased(s.auth, uid), s.requests[q], fails, now) == Erased(auth', uid)
      && Waiting(auth'.db, uid, email, links) && FirstMailOnly(auth'.db, uid, r)
  {
    var request := s.requests[q];
    assert RequestFits(s, q);
    if !fails && !request.Bootstrapping? {
      var t := At(now, if request.Registering? then Cleanup(request.uid) else Rollback(request.ticket));
      assert DrawnIds(t.event) == [];
      assert Admissible(s.auth, t);
      StepCommutes(s.auth, t, uid, r, email, links);
    }
  }

  lemma FailureCommutes(
    s: Sys, now: Time, q: Id, fails: bool, uid: Id, r: Id, email: string, links: set<string>)
    requires Pending(s, uid, r, email, links) && Possible(s, Do(now, EnqueueFailed(q, fails)))
    requires ActionElsewhere(s, Do(now, EnqueueFailed(q, fails)), uid, r, email, links)
    ensures var t := Do(now, EnqueueFailed(q, fails));
      && Pending(Next(s, t), uid, r, email, links)
      && Possible(Undone(s, uid, r), t) && Next(Undone(s, uid, r), t) == Undone(Next(s, t), uid, r)
  {
    var auth' := Compensate(s.auth, s.requests[q], fails, now);
    ActionKeepsSysInv(s, Do(now, EnqueueFailed(q, fails)));
    CompensationCommutes(s, now, q, fails, uid, r, email, links);
    ErasedMails(auth'.db, uid, r);
    ErasedIsAlike(s, uid, r, email, links);
    FailureAlike(Undone(s, uid, r), s, r, now, q, fails);
  }

  lemma ActionCommutes(s: Sys, t: TimedAction, uid: Id, r: Id, email: string, links: set<string>)
    requires Pending(s, uid, r, email, links) && Possible(s, t) && ActionElsewhere(s, t, uid, r, email, links)
    ensures Pending(Next(s, t), uid, r, email, links)
    ensures Possible(Undone(s, uid, r), t) && Next(Undone(s, uid, r), t) == Undone(Next(s, t), uid, r)
  {
    match t.action
    case Auth(e, mail) => AuthActionCommutes(s, t.now, e, mail, uid, r, email, links);
    case EnqueueFailed(q, fails) => FailureCommutes(s, t.now, q, fails, uid, r, email, links);
    case _ => QuietCommutes(s, t, uid, r, email, links);
  }

  // ----- over runs -----

  ghost predicate AllActionsElsewhere(
    s: Sys, run: seq<TimedAction>, uid: Id, r: Id, email: string, links: set<string>)
    requires IsRunOf(s, run)
    decreases |run|
  {
    run == []
    || (ActionElsewhere(s, run[0], uid, r, email, links)
        && AllActionsElsewhere(Next(s, run[0]), run[1..], uid, r, email, links))
  }

  lemma {:induction false} RunCommutes(s: Sys, run: seq<TimedAction>, uid: Id, r: Id, email: string, links: set<string>)
    requires Pending(s, uid, r, email, links) && IsRunOf(s, run) && AllActionsElsewhere(s, run, uid, r, email, links)
    ensures Pending(End(s, run), uid, r, email, links)
    ensures IsRunOf(Undone(s, uid, r), run) && End(Undone(s, uid, r), run) == Undone(End(s, run), uid, r)
    decreases |run|
  {
    if run != [] {
      ActionCommutes(s, run[0], uid, r, email, links);
      RunCommutes(Next(s, run[0]), run[1..], uid, r, email, links);
    }
  }

  /** The failed enqueue erases the user, whenever it comes. */
  lemma FailureErases(s: Sys, uid: Id, r: Id, email: string, links: set<string>, later: Time)
    requires Pending(s, uid, r, email, links) && s.auth.clock <= later
    ensures var t := Do(later, EnqueueFailed(r, false));
      Possible(s, t) && NothingHappened(Undone(s, uid, r), Next(s, t))
  {
    ErasedMails(s.auth.db, uid, r);
    CleanupErases(s.auth, uid, email, links, later);
  }

  lemma CleanupErases(s: State, uid: Id, email: string, links: set<string>, later: Time)
    requires Consistent(s.db) && Waiting(s.db, uid, email, links)
    ensures Step(s, At(later, Cleanup(uid))) == Erased(s, uid).(clock := later)
  {
    CleanupIsErasure(s.db, uid);
    assert DrawnIds(Cleanup(uid)) == [];
  }

  lemma RegistrationIsPending(s: Sys, now: Time, e: Event, mail: Mail)
    requires SysInv(s) && Possible(s, Do(now, Auth(e, mail))) && e.Register? && Apply(s.auth.db, now, e).result.Ok?
    ensures var s1 := Next(s, Do(now, Auth(e, mail)));
      && Pending(s1, e.uid, e.ids.recordId, e.email, {e.tokens.magicHash})
      && Erase(s1.auth.db, e.uid) == s.auth.db
  {
    ActionKeepsSysInv(s, Do(now, Auth(e, mail)));
    DrawnIdsAreNew(s.auth, At(now, e));
    RegisterThenErase(s.auth.db, e.email, e.uid, e.tokens, now, e.ids);
    RegisterMakesRequest(s, now, e, mail);
    RegisteredMail(s.auth.db, e.email, e.uid, e.tokens, now, e.ids);
  }

  lemma RegisteredMail(db: Db, email: string, uid: Id, tokens: Tokens, now: Time, ids: NewRows)
    requires ForeignKeys(db) && uid !in db.users && ids.recordId !in db.records
    requires RegisterWithVerification(db, email, uid, tokens, now, ids).result.Ok?
    ensures FirstMailOnly(RegisterWithVerification(db, email, uid, tokens, now, ids).db, uid, ids.recordId)
  {
    var db' := RegisterWithVerification(db, email, uid, tokens, now, ids).db;
    NewRecordErased(db, db', uid, ids.recordId, db'.records[ids.recordId]);
  }

  /** The system in which the request was never made: only the clock and the drawn ids tell. */
  ghost function Never(s: Sys, s1: Sys): Sys {
    s.(auth := s1.auth.(db := s.auth.db))
  }

  lemma RequestTakenBack(s: Sys, auth1: State, uid: Id, r: Id, request: Request)
    requires r !in s.requests && Erase(auth1.db, uid) == s.auth.db
    ensures var s1 := s.(auth := auth1, requests := s.requests[r := request]);
      Undone(s1, uid, r) == Never(s, s1)
  {
    assert s.requests[r := request] - {r} == s.requests;
  }

  lemma ErasedAtOnceIsNever(s: Sys, now: Time, e: Event, mail: Mail)
    requires SysInv(s) && Possible(s, Do(now, Auth(e, mail))) && e.Register? && Apply(s.auth.db, now, e).result.Ok?
    requires Erase(Step(s.auth, At(now, e)).db, e.uid) == s.auth.db
    ensures var s1 := Next(s, Do(now, Auth(e, mail)));
      Undone(s1, e.uid, e.ids.recordId) == Never(s, s1)
  {
    var auth1, r := Step(s.auth, At(now, e)), e.ids.recordId;
    RegisterMakesRequest(s, now, e, mail);
    DrawnIdsAreNew(s.auth, At(now, e));
    RequestIdIsNew(s, r);
    RequestTakenBack(s, auth1, e.uid, r, Registering(e.uid, JobFor(auth1.db, r, mail)));
  }

  /**
   Registration, then any actions of the rest of the system, then a failed enqueue and its clean-up: tables, queue,
   timers, blacklist, attempts and open requests are exactly those of the same run without the request.
   */
  lemma FailedRegistrationLeavesNoTrace(
    s: Sys, now: Time, e: Event, mail: Mail, run: seq<TimedAction>, later: Time)
    requires SysInv(s) && Possible(s, Do(now, Auth(e, mail))) && e.Register? && Apply(s.auth.db, now, e).result.Ok?
    requires var s1 := Next(s, Do(now, Auth(e, mail)));
      && IsRunOf(s1, run) && End(s1, run).auth.clock <= later
      && AllActionsElsewhere(s1, run, e.uid, e.ids.recordId, e.email, {e.tokens.magicHash})
    ensures var s1, failure := Next(s, Do(now, Auth(e, mail))), Do(later, EnqueueFailed(e.ids.recordId, false));
      && IsRunOf(Never(s, s1), run)
      && Possible(End(s1, run), failure)
      && NothingHappened(End(Never(s, s1), run), Next(End(s1, run), failure))
  {
    var s1, r, links := Next(s, Do(now, Auth(e, mail))), e.ids.recordId, {e.tokens.magicHash};
    RegistrationIsPending(s, now, e, mail);
    ErasedAtOnceIsNever(s, now, e, mail);
    RunCommutes(s1, run, e.uid, r, e.email, links);
    FailureErases(End(s1, run), e.uid, r, e.email, links, later);
  }
}
