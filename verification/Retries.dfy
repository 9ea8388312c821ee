/** Retries over whole runs: they end, they are few, they are spaced, and they respect the blacklist. */
module Retries {
  import opened Base
  import opened Addresses
  import opened Tables
  import opened AuthRuns
  import opened AuthInvariants
  import opened Delivery
  import opened DeliveryFacts
  import opened Pipeline
  import opened Conservation

  // ----- when a record was attempted -----

  /** The instants at which Send was called for record `r`, in order. */
  function AttemptTimes(sends: seq<Attempt>, r: Id): seq<Time> {
    if sends == [] then []
    else
      var last := sends[|sends| - 1];
      AttemptTimes(sends[..|sends| - 1], r) + if last.recordId == r then [last.at] else []
  }

  lemma AttemptTimesAppend(sends: seq<Attempt>, a: Attempt, r: Id)
    ensures AttemptTimes(sends + [a], r) == AttemptTimes(sends, r) + if a.recordId == r then [a.at] else []
  {
    assert (sends + [a])[..|sends|] == sends;
  }

  /** At most four attempts, each at least the tabled delay after the one before. */
  predicate Spaced(times: seq<Time>) {
    && |times| <= |RETRY_DELAYS| + 1
    && forall i | 0 <= i < |times| - 1 :: times[i] + RETRY_DELAYS[i] <= times[i + 1]
  }

  /** The job counts its record's attempts, and is not due before the delay after the last of them is over. */
  predicate Ready(sends: seq<Attempt>, job: Job, at: Time) {
    && job.recordId.Some?
    && var times := AttemptTimes(sends, job.recordId.value);
       && |times| == job.retryCount <= |RETRY_DELAYS|
       && (job.retryCount > 0 ==> times[|times| - 1] + RETRY_DELAYS[job.retryCount - 1] <= at)
  }

  ghost predicate QueueReady(sends: seq<Attempt>, queue: seq<Job>, clock: Time) {
    forall i | 0 <= i < |queue| :: Ready(sends, queue[i], clock)
  }

  ghost predicate TimersReady(sends: seq<Attempt>, timers: seq<Timer>) {
    forall i | 0 <= i < |timers| :: Ready(sends, timers[i].job, timers[i].due)
  }

  ghost predicate Untried(s: Sys) {
    forall r: Id | r in s.requests || r !in s.auth.used :: AttemptTimes(s.sends, r) == []
  }

  ghost predicate AllSpaced(sends: seq<Attempt>) {
    forall r: Id :: Spaced(AttemptTimes(sends, r))
  }

  ghost predicate RetriesFit(s: Sys) {
    QueueReady(s.sends, s.queue, s.auth.clock) && TimersReady(s.sends, s.timers) && Untried(s) && AllSpaced(s.sends)
  }

  // ----- one action -----

  lemma LaterStaysReady(sends: seq<Attempt>, queue: seq<Job>, clock: Time, now: Time)
    requires QueueReady(sends, queue, clock) && clock <= now
    ensures QueueReady(sends, queue, now)
  {
    forall i | 0 <= i < |queue| ensures Ready(sends, queue[i], now) {
      assert Ready(sends, queue[i], clock);
    }
  }

  /** No other job of the head's record is waiting anywhere. */
  lemma HeadIsAlone(s: Sys, r: Id)
    requires Conserved(s) && s.queue != [] && s.queue[0].recordId == Some(r)
    ensures forall i | 0 <= i < |s.queue| - 1 :: s.queue[1..][i].recordId != Some(r)
    ensures forall i | 0 <= i < |s.timers| :: s.timers[i].job.recordId != Some(r)
    ensures r !in s.requests && r in s.auth.used
  {
    assert UnderWay(s, r) <= 1;
    assert CountJobs(s.queue, r) == 1 + CountJobs(s.queue[1..], r);
    forall i | 0 <= i < |s.queue| - 1 ensures s.queue[1..][i].recordId != Some(r) {
      if s.queue[1..][i].recordId == Some(r) {
        PresentJobCounts(s.queue[1..], i, r);
      }
    }
    forall i | 0 <= i < |s.timers| ensures s.timers[i].job.recordId != Some(r) {
      if Jobs(s.timers)[i].recordId == Some(r) {
        PresentJobCounts(Jobs(s.timers), i, r);
      }
    }
    assert r !in s.auth.used ==> UnderWay(s, r) == 0;
  }

  /** An attempt for one record leaves the jobs of the others ready. */
  lemma OthersStayReady(sends: seq<Attempt>, a: Attempt, job: Job, at: Time)
    requires Ready(sends, job, at) && job.recordId != Some(a.recordId)
    ensures Ready(sends + [a], job, at)
  {
    AttemptTimesAppend(sends, a, job.recordId.value);
  }

  lemma AttemptKeepsSpacing(sends: seq<Attempt>, job: Job, a: Attempt)
    requires AllSpaced(sends) && job.recordId == Some(a.recordId) && Ready(sends, job, a.at)
    ensures AllSpaced(sends + [a])
  {
    forall q: Id ensures Spaced(AttemptTimes(sends + [a], q)) {
      AttemptTimesAppend(sends, a, q);
      assert Spaced(AttemptTimes(sends, q));
    }
  }

  /** The timer that a soft bounce sets is ready when it is due. */
  lemma RetryIsReady(sends: seq<Attempt>, job: Job, a: Attempt)
    requires job.recordId == Some(a.recordId) && Ready(sends, job, a.at) && job.retryCount < |RETRY_DELAYS|
    ensures Ready(sends + [a], job.(retryCount := job.retryCount + 1), a.at + RETRY_DELAYS[job.retryCount])
  {
    AttemptTimesAppend(sends, a, a.recordId);
  }

  lemma HandlingKeepsRetries(s: Sys, h: Handled, send: SendResult, now: Time)
    requires Conserved(s) && RetriesFit(s) && s.queue != [] && s.auth.clock <= now
    requires HandleEffect(s.auth.db, s.queue[0], h, now)
    ensures RetriesFit(AfterHandling(s, h, send, now))
  {
    var s', job := AfterHandling(s, h, send, now), s.queue[0];
    LaterStaysReady(s.sends, s.queue, s.auth.clock, now);
    assert Ready(s.sends, job, now);
    var r := job.recordId.value;
    HeadIsAlone(s, r);
    if h.sent {
      SentKeepsRetries(s, h, send, now, r);
    } else {
      assert s'.sends == s.sends && s'.timers == s.timers;
      forall i | 0 <= i < |s'.queue| ensures Ready(s'.sends, s'.queue[i], now) {
        assert Ready(s.sends, s.queue[i + 1], now);
      }
    }
  }

  lemma SentKeepsRetries(s: Sys, h: Handled, send: SendResult, now: Time, r: Id)
    requires Conserved(s) && RetriesFit(s) && s.queue != [] && s.queue[0].recordId == Some(r) && h.sent
    requires QueueReady(s.sends, s.queue, now)
    requires HandleEffect(s.auth.db, s.queue[0], h, now)
    ensures RetriesFit(AfterHandling(s, h, send, now))
  {
    var s', job, a := AfterHandling(s, h, send, now), s.queue[0], Attempt(r, s.queue[0].to, now, send.Accepted?);
    HeadIsAlone(s, r);
    assert Ready(s.sends, job, now);
    AttemptKeepsSpacing(s.sends, job, a);
    forall i | 0 <= i < |s'.queue| ensures Ready(s'.sends, s'.queue[i], now) {
      assert Ready(s.sends, s.queue[i + 1], now) && s'.queue[i] == s.queue[1..][i];
      OthersStayReady(s.sends, a, s'.queue[i], now);
    }
    forall i | 0 <= i < |s'.timers| ensures Ready(s'.sends, s'.timers[i].job, s'.timers[i].due) {
      if i < |s.timers| {
        assert Ready(s.sends, s.timers[i].job, s.timers[i].due);
        OthersStayReady(s.sends, a, s.timers[i].job, s.timers[i].due);
      } else {
        RetryIsReady(s.sends, job, a);
      }
    }
    forall q: Id | q in s'.requests || q !in s'.auth.used ensures AttemptTimes(s'.sends, q) == [] {
      assert AttemptTimes(s.sends, q) == [];
      AttemptTimesAppend(s.sends, a, q);
    }
  }

  lemma EnqueueKeepsRetries(s: Sys, now: Time, r: Id)
    requires RequestsFit(s) && RetriesFit(s) && Possible(s, Do(now, Enqueued(r)))
    ensures RetriesFit(Next(s, Do(now, Enqueued(r))))
  {
    var s' := Next(s, Do(now, Enqueued(r)));
    LaterStaysReady(s.sends, s.queue, s.auth.clock, now);
    assert RequestFits(s, r);
    assert AttemptTimes(s.sends, r) == [];
    forall i | 0 <= i < |s'.queue| ensures Ready(s'.sends, s'.queue[i], now) {
      if i < |s.queue| {
        assert Ready(s.sends, s.queue[i], now);
      }
    }
  }

  lemma FiringKeepsRetries(s: Sys, now: Time, i: nat, fault: bool)
    requires RetriesFit(s) && Possible(s, Do(now, Fire(i, fault)))
    ensures RetriesFit(Next(s, Do(now, Fire(i, fault))))
  {
    var s' := Next(s, Do(now, Fire(i, fault)));
    LaterStaysReady(s.sends, s.queue, s.auth.clock, now);
    assert Ready(s.sends, s.timers[i].job, s.timers[i].due);
    forall k | 0 <= k < |s'.queue| ensures Ready(s'.sends, s'.queue[k], now) {
      if k < |s.queue| {
        assert Ready(s.sends, s.queue[k], now);
      }
    }
    forall k | 0 <= k < |s'.timers| ensures Ready(s'.sends, s'.timers[k].job, s'.timers[k].due) {
      var old' := if k < i then k else k + 1;
      assert s'.timers[k] == s.timers[old'] && Ready(s.sends, s.timers[old'].job, s.timers[old'].due);
    }
  }

  lemma AuthKeepsRetries(s: Sys, now: Time, e: Event, mail: Mail)
    requires Inv(s.auth) && RetriesFit(s) && Possible(s, Do(now, Auth(e, mail)))
    ensures RetriesFit(Next(s, Do(now, Auth(e, mail))))
  {
    LaterStaysReady(s.sends, s.queue, s.auth.clock, now);
    NewRequestFits(s, now, e, mail);
    assert s.auth.used <= Next(s, Do(now, Auth(e, mail))).auth.used;
  }

  lemma ActionKeepsRetries(s: Sys, t: TimedAction)
    requires SysInv(s) && RetriesFit(s) && Possible(s, t)
    ensures RetriesFit(Next(s, t))
  {
    match t.action
    case Auth(e, mail) => AuthKeepsRetries(s, t.now, e, mail);
    case Enqueued(r) => EnqueueKeepsRetries(s, t.now, r);
    case EnqueueFailed(r, fails) =>
      CompensationRemovesRecords(s.auth, s.requests[r], fails, t.now);
      LaterStaysReady(s.sends, s.queue, s.auth.clock, t.now);
    case HandleNext(send, f) =>
      HandleJobEffect(s.auth.db, s.blacklist, s.queue[0], send, f, t.now);
      HandlingKeepsRetries(s, HandleJob(s.auth.db, s.blacklist, s.queue[0], send, f, t.now), send, t.now);
    case Fire(i, fault) => FiringKeepsRetries(s, t.now, i, fault);
    case Webhook(c) => LaterStaysReady(s.sends, s.queue, s.auth.clock, t.now);
  }

  lemma {:induction false} RunKeepsRetries(s: Sys, run: seq<TimedAction>)
    requires SysInv(s) && RetriesFit(s) && IsRunOf(s, run)
    ensures RetriesFit(End(s, run))
    decreases |run|
  {
    if run != [] {
      ActionKeepsSysInv(s, run[0]);
      ActionKeepsRetries(s, run[0]);
      RunKeepsRetries(Next(s, run[0]), run[1..]);
    }
  }

  function DelaysBefore(k: nat): nat
    requires k <= |RETRY_DELAYS|
  {
    if k == 0 then 0 else DelaysBefore(k - 1) + RETRY_DELAYS[k - 1]
  }

  lemma {:induction false} SpacedFromTheFirst(times: seq<Time>, k: nat)
    requires Spaced(times) && k < |times|
    ensures times[0] + DelaysBefore(k) <= times[k]
  {
    if k > 0 {
      SpacedFromTheFirst(times, k - 1);
      assert times[k - 1] + RETRY_DELAYS[k - 1] <= times[k - 1 + 1];
    }
  }

  /** In every run, whatever fails, each record is sent at most four times, the k-th after all delays before it. */
  lemma AttemptsAreFewAndSpaced(clock: Time, run: seq<TimedAction>, r: Id)
    requires IsRunOf(StartSys(clock), run)
    ensures var times := AttemptTimes(End(StartSys(clock), run).sends, r);
      && |times| <= 4
      && (|times| > 1 ==> times[0] + 1 * 3600 <= times[1])
      && (|times| > 2 ==> times[0] + (1 + 4) * 3600 <= times[2])
      && (|times| > 3 ==> times[0] + (1 + 4 + 24) * 3600 <= times[3])
  {
    StartIsSound(clock);
    RunKeepsRetries(StartSys(clock), run);
    var times := AttemptTimes(End(StartSys(clock), run).sends, r);
    assert Spaced(times);
    forall k: nat | k < |times| ensures times[0] + DelaysBefore(k) <= times[k] {
      SpacedFromTheFirst(times, k);
    }
    assert DelaysBefore(1) == 3600 && DelaysBefore(2) == 5 * 3600 && DelaysBefore(3) == 29 * 3600;
  }

  // ----- termination -----

  /** The attempts that the waiting jobs may still need. */
  function Weight(jobs: seq<Job>): int {
    if jobs == [] then 0 else 4 - jobs[0].retryCount + Weight(jobs[1..])
  }

  lemma {:induction false} WeightConcat(a: seq<Job>, b: seq<Job>)
    ensures Weight(a + b) == Weight(a) + Weight(b)
  {
    if a == [] {
      assert a + b == b;
    } else {
      assert (a + b)[1..] == a[1..] + b;
      WeightConcat(a[1..], b);
    }
  }

  lemma {:induction false} WeightAtLeastLength(jobs: seq<Job>)
    requires forall i | 0 <= i < |jobs| :: jobs[i].retryCount <= 3
    ensures Weight(jobs) >= |jobs|
  {
    if jobs != [] {
      WeightAtLeastLength(jobs[1..]);
    }
  }

  ghost function Remaining(s: Sys): int {
    Weight(s.queue) + Weight(Jobs(s.timers))
  }

  lemma WaitingJobsWeigh(s: Sys)
    requires RetriesFit(s)
    ensures Weight(s.queue) >= |s.queue| && Weight(Jobs(s.timers)) >= |s.timers|
  {
    forall i | 0 <= i < |s.queue| ensures s.queue[i].retryCount <= 3 {
      assert Ready(s.sends, s.queue[i], s.auth.clock);
    }
    forall i | 0 <= i < |s.timers| ensures Jobs(s.timers)[i].retryCount <= 3 {
      assert Ready(s.sends, s.timers[i].job, s.timers[i].due);
    }
    WeightAtLeastLength(s.queue);
    WeightAtLeastLength(Jobs(s.timers));
  }

  /** Every handled job strictly lowers the remaining weight. */
  lemma HandlingLowersRemaining(s: Sys, h: Handled, send: SendResult, now: Time)
    requires RetriesFit(s) && s.queue != [] && HandleEffect(s.auth.db, s.queue[0], h, now)
    ensures Remaining(AfterHandling(s, h, send, now)) < Remaining(s)
  {
    assert Ready(s.sends, s.queue[0], s.auth.clock);
    if h.retry.Some? {
      JobsAppend(s.timers, h.retry.value);
      WeightConcat(Jobs(s.timers), [h.retry.value.job]);
    } else {
      assert AfterHandling(s, h, send, now).timers == s.timers;
    }
  }

  /** Steps left: two per remaining attempt, less one for each job that has already reached the queue. */
  ghost function StepsLeft(s: Sys): int {
    2 * Remaining(s) - |s.queue|
  }

  ghost predicate Works(t: TimedAction) {
    t.action.HandleNext? || t.action.Fire?
  }

  lemma ActionLowersSteps(s: Sys, t: TimedAction)
    requires SysInv(s) && RetriesFit(s) && Possible(s, t) && !t.action.Enqueued?
    ensures StepsLeft(Next(s, t)) <= StepsLeft(s) - if Works(t) then 1 else 0
  {
    match t.action
    case HandleNext(send, f) =>
      HandleJobEffect(s.auth.db, s.blacklist, s.queue[0], send, f, t.now);
      HandlingLowersRemaining(s, HandleJob(s.auth.db, s.blacklist, s.queue[0], send, f, t.now), send, t.now);
    case Fire(i, fault) =>
      FiringLowersSteps(s, t.now, i, fault);
    case _ =>
  }

  lemma FiringLowersSteps(s: Sys, now: Time, i: nat, fault: bool)
    requires RetriesFit(s) && Possible(s, Do(now, Fire(i, fault)))
    ensures StepsLeft(Next(s, Do(now, Fire(i, fault)))) < StepsLeft(s)
  {
    var s', job := Next(s, Do(now, Fire(i, fault))), s.timers[i].job;
    assert Ready(s.sends, job, s.timers[i].due);
    var before, after := Jobs(s.timers[..i]), Jobs(s.timers[i + 1..]);
    assert Jobs(s.timers) == before + ([job] + after);
    assert Jobs(s'.timers) == before + after;
    WeightConcat(before, [job] + after);
    WeightConcat([job], after);
    WeightConcat(before, after);
    WeightConcat(s.queue, if fault then [] else [job]);
  }

  ghost function WorkIn(run: seq<TimedAction>): nat {
    if run == [] then 0 else (if Works(run[0]) then 1 else 0) + WorkIn(run[1..])
  }

  ghost predicate NothingNew(run: seq<TimedAction>) {
    forall i | 0 <= i < |run| :: !run[i].action.Enqueued?
  }

  /** With nothing new enqueued, the number of jobs handled and timers fired is bounded in advance. */
  lemma {:induction false} WorkIsBounded(s: Sys, run: seq<TimedAction>)
    requires SysInv(s) && RetriesFit(s) && IsRunOf(s, run) && NothingNew(run)
    ensures 0 <= StepsLeft(End(s, run)) <= StepsLeft(s) - WorkIn(run)
    decreases |run|
  {
    WaitingJobsWeigh(s);
    if run != [] {
      ActionKeepsSysInv(s, run[0]);
      ActionKeepsRetries(s, run[0]);
      ActionLowersSteps(s, run[0]);
      WorkIsBounded(Next(s, run[0]), run[1..]);
    }
  }

  /** While anything waits, some piece of work becomes possible; when no step is left, nothing waits. */
  lemma WaitingWorkCanProceed(s: Sys)
    requires RetriesFit(s)
    ensures s.queue != [] || s.timers != [] ==> exists t :: Possible(s, t) && Works(t)
    ensures StepsLeft(s) == 0 <==> s.queue == [] && s.timers == []
  {
    WaitingJobsWeigh(s);
    assert Jobs([]) == [];
    if s.queue != [] {
      var t := Do(s.auth.clock, HandleNext(Accepted(""), NO_FAULTS));
      assert Possible(s, t) && Works(t);
    } else if s.timers != [] {
      var now := if s.timers[0].due < s.auth.clock then s.auth.clock else s.timers[0].due;
      var t := Do(now, Fire(0, false));
      assert Possible(s, t) && Works(t);
    }
  }

  // ----- suppression -----

  /** Send is called only for addresses whose normal form is not blacklisted, and the blacklist only grows. */
  lemma ActionRespectsBlacklist(s: Sys, t: TimedAction)
    requires Possible(s, t)
    ensures var s' := Next(s, t);
      && s.blacklist <= s'.blacklist
      && |s.sends| <= |s'.sends| && s'.sends[..|s.sends|] == s.sends
      && forall i | |s.sends| <= i < |s'.sends| :: Normal(s'.sends[i].to) !in s.blacklist
  {
  }

  /** Once an address is blacklisted, no later attempt in any run goes to an address with the same normal form. */
  lemma {:induction false} BlacklistedIsNeverSentTo(s: Sys, run: seq<TimedAction>)
    requires IsRunOf(s, run)
    ensures var s' := End(s, run);
      && s.blacklist <= s'.blacklist
      && |s.sends| <= |s'.sends| && s'.sends[..|s.sends|] == s.sends
      && forall i | |s.sends| <= i < |s'.sends| :: Normal(s'.sends[i].to) !in s.blacklist
    decreases |run|
  {
    if run != [] {
      var s1 := Next(s, run[0]);
      ActionRespectsBlacklist(s, run[0]);
      BlacklistedIsNeverSentTo(s1, run[1..]);
      var s' := End(s, run);
      forall i | |s.sends| <= i < |s'.sends| ensures Normal(s'.sends[i].to) !in s.blacklist {
        if i < |s1.sends| {
          assert s'.sends[i] == s'.sends[..|s1.sends|][i];
        }
      }
    }
  }

  /** So nothing is sent to an address that differs from a blacklisted one only in case and outer white space. */
  lemma SuppressionIgnoresCaseAndSpace(s: Sys, run: seq<TimedAction>, address: string)
    requires IsRunOf(s, run) && Normal(address) in s.blacklist
    ensures var sends' := End(s, run).sends;
      |s.sends| <= |sends'| && forall i | |s.sends| <= i < |sends'| :: !SameMailbox(sends'[i].to, address)
  {
    BlacklistedIsNeverSentTo(s, run);
    var sends' := End(s, run).sends;
    forall i | |s.sends| <= i < |sends'| ensures !SameMailbox(sends'[i].to, address) {
      NormalAgreesExactlyWhen(sends'[i].to, address);
    }
  }

  /** A hard bounce whose calls succeed puts the address on the list, so it is never tried again. */
  lemma HardBounceSuppresses(s: Sys, t: TimedAction, run: seq<TimedAction>)
    requires Possible(s, t) && t.action.HandleNext? && t.action.send.HardBounce? && t.action.faults == NO_FAULTS
    requires s.queue[0].recordId.Some? && s.queue[0].recordId.value in s.auth.db.records
    requires |Next(s, t).sends| > |s.sends| && IsRunOf(Next(s, t), run)
    ensures var sends, sends' := Next(s, t).sends, End(Next(s, t), run).sends;
      && |sends| <= |sends'|
      && forall i | |sends| <= i < |sends'| :: !SameMailbox(sends'[i].to, s.queue[0].to)
  {
    assert Normal(s.queue[0].to) in Next(s, t).blacklist;
    SuppressionIgnoresCaseAndSpace(Next(s, t), run, s.queue[0].to);
  }

  /** On a list of normal forms, the look-up in lower case is the same as membership of the normal form. */
  lemma LookupIsByNormalForm(blacklist: set<string>, address: string)
    requires OnlyNormalForms(blacklist)
    ensures IsBlacklisted(blacklist, address) <==> Normal(address) in blacklist
  {
    LowerOfNormal(address);
    forall e | e in blacklist ensures Lower(e) == e {
      var a :| e == Normal(a);
      LowerOfNormal(a);
    }
  }

  /** The list holds only addresses in the form in which they are compared. */
  ghost predicate OnlyNormalForms(blacklist: set<string>) {
    forall e | e in blacklist :: exists a :: e == Normal(a)
  }

  lemma {:induction false} RunKeepsNormalForms(s: Sys, run: seq<TimedAction>)
    requires IsRunOf(s, run) && OnlyNormalForms(s.blacklist)
    ensures OnlyNormalForms(End(s, run).blacklist)
    decreases |run|
  {
    if run != [] {
      ActionKeepsNormalForms(s, run[0]);
      RunKeepsNormalForms(Next(s, run[0]), run[1..]);
    }
  }

  lemma ActionKeepsNormalForms(s: Sys, t: TimedAction)
    requires Possible(s, t) && OnlyNormalForms(s.blacklist)
    ensures OnlyNormalForms(Next(s, t).blacklist)
  {
    if t.action.HandleNext? {
      HandlingBlacklistsTheAddress(s.auth.db, s.blacklist, s.queue[0], t.action.send, t.action.faults, t.now);
    }
  }

  lemma HandlingBlacklistsTheAddress(
    db: Db, blacklist: set<string>, job: Job, send: SendResult, f: Faults, now: Time)
    ensures var blacklist' := HandleJob(db, blacklist, job, send, f, now).blacklist;
      blacklist' == blacklist || blacklist' == blacklist + {Normal(job.to)}
  {
  }

  /** In every reachable state an address is refused exactly when its normal form is on the list. */
  lemma ReachableLookupIsByNormalForm(clock: Time, run: seq<TimedAction>, address: string)
    requires IsRunOf(StartSys(clock), run)
    ensures var blacklist := End(StartSys(clock), run).blacklist;
      IsBlacklisted(blacklist, address) <==> Normal(address) in blacklist
  {
    RunKeepsNormalForms(StartSys(clock), run);
    LookupIsByNormalForm(End(StartSys(clock), run).blacklist, address);
  }
}
