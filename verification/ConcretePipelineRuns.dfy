/** Runs of the whole pipeline from the empty system that end in a stranded job or a stranded record. */
module ConcretePipelineRuns {
  import opened Base
  import opened Tables
  import opened Transactions
  import opened AuthRuns
  import opened AuthInvariants
  import opened TokenRoundTrips
  import opened Pipeline
  import opened Conservation
  import opened Sagas
  import opened ConcreteRuns

  lemma TwoActions(s: Sys, t1: TimedAction, t2: TimedAction)
    requires Possible(s, t1) && Possible(Next(s, t1), t2)
    ensures IsRunOf(s, [t1] + [t2]) && End(s, [t1] + [t2]) == Next(Next(s, t1), t2)
  {
    ExtendRun(s, [], t1);
    assert [] + [t1] == [t1];
    ExtendRun(s, [t1], t2);
  }

  // ----- a clean-up that orphans an accepted job -----

  /** A registration, and a resend before the registration's enqueue has answered. */
  ghost predicate TwoRequests(clock: Time, register: Timed, resend: Timed) {
    && register.event.Register? && resend.event.Resend? && resend.event.email == register.event.email
    && clock <= register.now <= resend.now
    && NewRowSet(register.event.ids, {register.event.uid})
    && NewRowSet(resend.event.ids, {register.event.uid} + RowSet(register.event.ids))
    && resend.event.tokens.magicHash != register.event.tokens.magicHash
  }

  ghost function Requested(clock: Time, register: Timed, resend: Timed, mail: Mail): Sys
    requires TwoRequests(clock, register, resend)
  {
    var auth1 := Step(Start(clock), register);
    var auth2 := Step(auth1, resend);
    var r, q := register.event.ids.recordId, resend.event.ids.recordId;
    StartSys(clock).(auth := auth2,
    requests := map[r := Registering(register.event.uid, JobFor(auth1.db, r, mail))]
    [q := Resending(FirstTicket(clock, register, resend), JobFor(auth2.db, q, mail))])
  }

  lemma BothAreRequested(clock: Time, register: Timed, resend: Timed, mail: Mail)
    requires TwoRequests(clock, register, resend)
    ensures var t1, t2 := Do(register.now, Auth(register.event, mail)), Do(resend.now, Auth(resend.event, mail));
      && Possible(StartSys(clock), t1) && Possible(Next(StartSys(clock), t1), t2)
      && Next(Next(StartSys(clock), t1), t2) == Requested(clock, register, resend, mail)
  {
    FirstUser(clock, register);
    TwoMailsAreSent(clock, register, resend);
    RegisterMakesRequest(StartSys(clock), register.now, register.event, mail);
    ResendMakesRequest(
      Next(StartSys(clock), Do(register.now, Auth(register.event, mail))), resend.now, resend.event, mail,
      FirstTicket(clock, register, resend));
  }

  lemma RecordsRequested(clock: Time, register: Timed, resend: Timed)
    requires TwoRequests(clock, register, resend)
    ensures var db, uid := Step(Step(Start(clock), register), resend).db, register.event.uid;
      && resend.event.ids.recordId in db.records && db.records[resend.event.ids.recordId].userId == Some(uid)
      && uid in db.users && db.users[uid].emailVerifiedAt.None?
      && resend.event.ids.recordId != register.event.ids.recordId && register.event.ids.recordId in db.records
  {
    FirstUser(clock, register);
    ResendOf(
      Step(Start(clock), register), resend, register.event.uid,
      {register.event.uid} + RowSet(register.event.ids), {register.event.tokens.magicHash});
  }

  /** The job of record `q` waits, and the record is gone. */
  ghost predicate Orphaned(s: Sys, q: Id) {
    CountJobs(s.queue, q) >= 1 && q !in s.auth.db.records
  }

  lemma AcceptedThenOrphaned(s: Sys, r: Id, q: Id, uid: Id, now: Time)
    requires SysInv(s) && r in s.requests && q in s.requests && r != q && s.requests[r].Registering? && s.requests[r].uid == uid
    requires q in s.auth.db.records && s.auth.db.records[q].userId == Some(uid)
    requires uid in s.auth.db.users && s.auth.db.users[uid].emailVerifiedAt.None? && s.auth.clock <= now
    ensures Possible(s, Do(now, Enqueued(q)))
    ensures var s1 := Next(s, Do(now, Enqueued(q)));
      && Possible(s1, Do(now, EnqueueFailed(r, false))) && Orphaned(Next(s1, Do(now, EnqueueFailed(r, false))), q)
  {
    var s1 := Next(s, Do(now, Enqueued(q)));
    ActionKeepsSysInv(s, Do(now, Enqueued(q)));
    assert RequestFits(s, q);
    CountAppend(s.queue, s.requests[q].job, q);
    CompensationTakes(s1, r, now, q);
  }

  /** The resend is accepted, the registration's enqueue fails, and the resend's job is left without its record. */
  lemma CleanupOrphansJob(clock: Time, register: Timed, resend: Timed, mail: Mail, now: Time)
    requires TwoRequests(clock, register, resend) && resend.now <= now
    ensures var r, q := register.event.ids.recordId, resend.event.ids.recordId;
      var run := [Do(register.now, Auth(register.event, mail))] + [Do(resend.now, Auth(resend.event, mail))]
                 + [Do(now, Enqueued(q))] + [Do(now, EnqueueFailed(r, false))];
      IsRunOf(StartSys(clock), run) && Orphaned(End(StartSys(clock), run), q)
  {
    var r, q := register.event.ids.recordId, resend.event.ids.recordId;
    var t1, t2 := Do(register.now, Auth(register.event, mail)), Do(resend.now, Auth(resend.event, mail));
    BothAreRequested(clock, register, resend, mail);
    TwoActions(StartSys(clock), t1, t2);
    StartIsSound(clock);
    RunKeepsSysInv(StartSys(clock), [t1] + [t2]);
    RecordsRequested(clock, register, resend);
    OrphanedAfter(StartSys(clock), [t1] + [t2], Requested(clock, register, resend, mail), r, q, register.event.uid, now);
  }

  lemma OrphanedAfter(start: Sys, run: seq<TimedAction>, s: Sys, r: Id, q: Id, uid: Id, now: Time)
    requires IsRunOf(start, run) && End(start, run) == s
    requires SysInv(s) && r in s.requests && q in s.requests && r != q && s.requests[r].Registering? && s.requests[r].uid == uid
    requires q in s.auth.db.records && s.auth.db.records[q].userId == Some(uid)
    requires uid in s.auth.db.users && s.auth.db.users[uid].emailVerifiedAt.None? && s.auth.clock <= now
    ensures var run' := run + [Do(now, Enqueued(q))] + [Do(now, EnqueueFailed(r, false))];
      IsRunOf(start, run') && Orphaned(End(start, run'), q)
  {
    AcceptedThenOrphaned(s, r, q, uid, now);
    ExtendRun(start, run, Do(now, Enqueued(q)));
    ExtendRun(start, run + [Do(now, Enqueued(q))], Do(now, EnqueueFailed(r, false)));
  }

  // ----- a bootstrap that strands its record -----

  lemma OwnerIsCreated(clock: Time, t: Timed)
    requires t.event.BootstrapOwner? && !t.event.tenantTaken && clock <= t.now
    ensures Admissible(Start(clock), t)
    ensures var s := Step(Start(clock), t);
      && s.db == EMPTY.(users := map[t.event.uid := User(t.event.email, 0, None)])
      && s.used == {t.event.uid} && s.clock == t.now
  {
    assert DrawnIds(t.event) == [t.event.uid];
    assert (set i | 0 <= i < 1 :: DrawnIds(t.event)[i]) == {t.event.uid} by {
      assert DrawnIds(t.event)[0] == t.event.uid;
    }
  }

  lemma MailIsCreated(s: State, t: Timed, uid: Id)
    requires t.event.Create? && t.event.uid == uid && s.clock <= t.now && NewRowSet(t.event.ids, s.used)
    requires uid in s.db.users && s.db.verifications == map[]
    ensures Admissible(s, t) && Apply(s.db, t.now, t.event).result == Ok(Registered(t.event.ids.recordId))
    ensures t.event.ids.recordId in Step(s, t).db.records
  {
    assert DrawnIds(t.event) == [t.event.ids.otpId, t.event.ids.magicId, t.event.ids.recordId];
  }

  lemma CreateMakesRequest(s: Sys, now: Time, e: Event, mail: Mail)
    requires Possible(s, Do(now, Auth(e, mail))) && e.Create? && Apply(s.auth.db, now, e).result.Ok?
    ensures var s' := Next(s, Do(now, Auth(e, mail)));
      && s'.auth == Step(s.auth, At(now, e))
      && e.ids.recordId in s'.requests && s'.requests[e.ids.recordId].Bootstrapping?
  {
  }

  lemma OwnerIsPossible(clock: Time, t: Timed, mail: Mail)
    requires t.event.BootstrapOwner? && !t.event.tenantTaken && clock <= t.now
    ensures Possible(StartSys(clock), Do(t.now, Auth(t.event, mail)))
    ensures Next(StartSys(clock), Do(t.now, Auth(t.event, mail))).auth == Step(Start(clock), t)
  {
    OwnerIsCreated(clock, t);
  }

  /** A bootstrap, its verification mail, and a failed enqueue: the record is stranded. */
  lemma BootstrapStrandsRecord(clock: Time, owner: Timed, create: Timed, mail: Mail, now: Time)
    requires owner.event.BootstrapOwner? && !owner.event.tenantTaken && clock <= owner.now
    requires create.event.Create? && create.event.uid == owner.event.uid && owner.now <= create.now <= now
    requires NewRowSet(create.event.ids, {owner.event.uid})
    ensures var r := create.event.ids.recordId;
      var run := [Do(owner.now, Auth(owner.event, mail))] + [Do(create.now, Auth(create.event, mail))]
                 + [Do(now, EnqueueFailed(r, false))];
      IsRunOf(StartSys(clock), run) && Stranded(End(StartSys(clock), run), r)
  {
    var r := create.event.ids.recordId;
    var t1, t2 := Do(owner.now, Auth(owner.event, mail)), Do(create.now, Auth(create.event, mail));
    OwnerIsCreated(clock, owner);
    OwnerIsPossible(clock, owner, mail);
    var s1 := Next(StartSys(clock), t1);
    MailIsCreated(s1.auth, create, owner.event.uid);
    CreateMakesRequest(s1, create.now, create.event, mail);
    TwoActions(StartSys(clock), t1, t2);
    StartIsSound(clock);
    RunKeepsSysInv(StartSys(clock), [t1] + [t2]);
    StrandedAfter(StartSys(clock), [t1] + [t2], Next(s1, t2), r, now);
  }

  lemma StrandedAfter(start: Sys, run: seq<TimedAction>, s: Sys, r: Id, now: Time)
    requires IsRunOf(start, run) && End(start, run) == s && SysInv(s) && s.auth.clock <= now
    requires r in s.requests && NotCompensated(s, r, false) && r in s.auth.db.records
    ensures var run' := run + [Do(now, EnqueueFailed(r, false))];
      IsRunOf(start, run') && Stranded(End(start, run'), r)
  {
    ExtendRun(start, run, Do(now, EnqueueFailed(r, false)));
    FailedRequestStrandsExactlyWhen(s, r, false, now);
  }

  // ----- a registration whose user verifies before its enqueue answers -----

  lemma ResentLinkActivates(clock: Time, register: Timed, resend: Timed, now: Time)
    requires TwoRequests(clock, register, resend) && resend.now <= now < resend.event.tokens.expiresAt
    ensures var s := Step(Step(Start(clock), register), resend);
      var t := At(now, VerifyMagic(resend.event.tokens.magicHash));
      && Admissible(s, t) && register.event.uid in Step(s, t).db.users
      && Step(s, t).db.users[register.event.uid].emailVerifiedAt.Some?
      && Step(s, t).db.records == s.db.records
  {
    var s1 := Step(Start(clock), register);
    var s := Step(s1, resend);
    var v, hash := resend.event.ids.magicId, resend.event.tokens.magicHash;
    FirstUser(clock, register);
    TwoMailsAreSent(clock, register, resend);
    StepKeepsUnique(s1, resend);
    ResendIssues(s1, resend, FirstTicket(clock, register, resend));
    ResentIsWaiting(s1, resend, FirstTicket(clock, register, resend));
    OpenLinkDecides(s.db, v, hash, now);
    assert DrawnIds(VerifyMagic(hash)) == [];
  }

  lemma VerifyingIsQuiet(s: Sys, now: Time, hash: string, mail: Mail)
    requires s.auth.clock <= now
    ensures var t := Do(now, Auth(VerifyMagic(hash), mail));
      Possible(s, t) && Next(s, t) == s.(auth := Step(s.auth, At(now, VerifyMagic(hash))))
  {
    assert DrawnIds(VerifyMagic(hash)) == [];
  }

  /**
   The user registers, asks for a resend before the registration's enqueue has answered, and verifies with the resent
   link; then the registration's enqueue fails. Its clean-up is refused, and its record is stranded.
   */
  lemma VerifiedMeanwhileStrandsRecord(clock: Time, register: Timed, resend: Timed, mail: Mail, now: Time)
    requires TwoRequests(clock, register, resend) && resend.now <= now < resend.event.tokens.expiresAt
    ensures var r, q := register.event.ids.recordId, resend.event.ids.recordId;
      var run := [Do(register.now, Auth(register.event, mail))] + [Do(resend.now, Auth(resend.event, mail))]
                 + [Do(now, Auth(VerifyMagic(resend.event.tokens.magicHash), mail))] + [Do(now, EnqueueFailed(r, false))];
      IsRunOf(StartSys(clock), run) && Stranded(End(StartSys(clock), run), r)
  {
    var r, hash := register.event.ids.recordId, resend.event.tokens.magicHash;
    var t1, t2 := Do(register.now, Auth(register.event, mail)), Do(resend.now, Auth(resend.event, mail));
    var t3, s := Do(now, Auth(VerifyMagic(hash), mail)), Requested(clock, register, resend, mail);
    BothAreRequested(clock, register, resend, mail);
    TwoActions(StartSys(clock), t1, t2);
    RecordsRequested(clock, register, resend);
    VerifyingIsQuiet(s, now, hash, mail);
    ResentLinkActivates(clock, register, resend, now);
    ExtendRun(StartSys(clock), [t1] + [t2], t3);
    StartIsSound(clock);
    RunKeepsSysInv(StartSys(clock), [t1] + [t2] + [t3]);
    StrandedAfter(StartSys(clock), [t1] + [t2] + [t3], Next(s, t3), r, now);
  }
}
