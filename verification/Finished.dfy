/** A record with nothing under way stays that way: no later step of any run attempts it again. */
module Finished {
  import opened Base
  import opened Tables
  import opened AuthRuns
  import opened AuthInvariants
  import opened Delivery
  import opened DeliveryFacts
  import opened Pipeline
  import opened Conservation
  import opened Retries

  /** Nothing about record `r` waits anywhere, and its id will not be drawn again. */
  ghost predicate Over(s: Sys, r: Id) {
    r in s.auth.used && UnderWay(s, r) == 0
  }

  // ----- no step brings work back -----

  lemma AuthBringsNoWork(s: Sys, now: Time, e: Event, mail: Mail, r: Id)
    requires Inv(s.auth) && Possible(s, Do(now, Auth(e, mail))) && r in s.auth.used
    ensures UnderWay(Next(s, Do(now, Auth(e, mail))), r) == UnderWay(s, r)
  {
    NewRequestFits(s, now, e, mail);
  }

  lemma EnqueueBringsNoWork(s: Sys, now: Time, q: Id, r: Id)
    requires RequestsFit(s) && Possible(s, Do(now, Enqueued(q)))
    ensures UnderWay(Next(s, Do(now, Enqueued(q))), r) == UnderWay(s, r)
  {
    assert RequestFits(s, q);
    CountAppend(s.queue, s.requests[q].job, r);
  }

  lemma HandlingBringsNoWork(s: Sys, h: Handled, send: SendResult, now: Time, r: Id)
    requires s.queue != [] && HandleEffect(s.auth.db, s.queue[0], h, now)
    ensures UnderWay(AfterHandling(s, h, send, now), r)
      == UnderWay(s, r) - if s.queue[0].recordId == Some(r) && h.retry.None? then 1 else 0
  {
    if h.retry.Some? {
      JobsAppend(s.timers, h.retry.value);
      CountAppend(Jobs(s.timers), h.retry.value.job, r);
    } else {
      assert AfterHandling(s, h, send, now).timers == s.timers;
    }
  }

  lemma FiringBringsNoWork(s: Sys, now: Time, i: nat, fault: bool, r: Id)
    requires Possible(s, Do(now, Fire(i, fault)))
    ensures UnderWay(Next(s, Do(now, Fire(i, fault))), r) <= UnderWay(s, r)
  {
    CountRemove(s.timers, i, r);
    CountConcat(s.queue, if fault then [] else [s.timers[i].job], r);
  }

  /** Attempts are only ever appended, and none for record `r`. */
  ghost predicate NoMoreAttempts(s: Sys, s': Sys, r: Id) {
    && |s.sends| <= |s'.sends| && s'.sends[..|s.sends|] == s.sends
    && forall i | |s.sends| <= i < |s'.sends| :: s'.sends[i].recordId != r
  }

  lemma HandlingLeavesFinishedAlone(s: Sys, h: Handled, send: SendResult, now: Time, r: Id)
    requires s.queue != [] && HandleEffect(s.auth.db, s.queue[0], h, now) && Over(s, r)
    ensures Over(AfterHandling(s, h, send, now), r) && NoMoreAttempts(s, AfterHandling(s, h, send, now), r)
  {
    HandlingBringsNoWork(s, h, send, now, r);
    assert s.queue[0].recordId != Some(r);
  }

  lemma ActionLeavesFinishedAlone(s: Sys, t: TimedAction, r: Id)
    requires Inv(s.auth) && RequestsFit(s) && Possible(s, t) && Over(s, r)
    ensures Over(Next(s, t), r) && NoMoreAttempts(s, Next(s, t), r)
  {
    match t.action
    case Auth(e, mail) =>
      AuthBringsNoWork(s, t.now, e, mail, r);
    case Enqueued(q) => EnqueueBringsNoWork(s, t.now, q, r);
    case EnqueueFailed(q, fails) => CompensationRemovesRecords(s.auth, s.requests[q], fails, t.now);
    case HandleNext(send, f) =>
      HandleJobEffect(s.auth.db, s.blacklist, s.queue[0], send, f, t.now);
      HandlingLeavesFinishedAlone(s, HandleJob(s.auth.db, s.blacklist, s.queue[0], send, f, t.now), send, t.now, r);
    case Fire(i, fault) => FiringBringsNoWork(s, t.now, i, fault, r);
    case Webhook(c) =>
  }

  /** Over any continuation: still over, and not attempted again. */
  lemma {:induction false} FinishedForGood(s: Sys, run: seq<TimedAction>, r: Id)
    requires SysInv(s) && IsRunOf(s, run) && Over(s, r)
    ensures Over(End(s, run), r) && NoMoreAttempts(s, End(s, run), r)
    decreases |run|
  {
    if run != [] {
      ActionKeepsSysInv(s, run[0]);
      ActionLeavesFinishedAlone(s, run[0], r);
      FinishedForGood(Next(s, run[0]), run[1..], r);
      AttemptsConcatenate(s, Next(s, run[0]), End(s, run), r);
    }
  }

  lemma AttemptsConcatenate(s: Sys, s1: Sys, s2: Sys, r: Id)
    requires NoMoreAttempts(s, s1, r) && NoMoreAttempts(s1, s2, r)
    ensures NoMoreAttempts(s, s2, r)
  {
    assert s2.sends[..|s.sends|] == s2.sends[..|s1.sends|][..|s.sends|];
    forall i | |s.sends| <= i < |s2.sends| ensures s2.sends[i].recordId != r {
      if i < |s1.sends| {
        assert s2.sends[i] == s2.sends[..|s1.sends|][i];
      }
    }
  }

  lemma {:induction false} SameAttemptTimes(sends: seq<Attempt>, sends': seq<Attempt>, r: Id)
    requires |sends| <= |sends'| && sends'[..|sends|] == sends
    requires forall i | |sends| <= i < |sends'| :: sends'[i].recordId != r
    ensures AttemptTimes(sends', r) == AttemptTimes(sends, r)
    decreases |sends'|
  {
    if |sends'| > |sends| {
      var front := sends'[..|sends'| - 1];
      assert front[..|sends|] == sends;
      SameAttemptTimes(sends, front, r);
    } else {
      assert sends' == sends;
    }
  }

  // ----- an accepted mail is the last one -----

  /** Each accepted attempt is the last of its record, and nothing more of that record waits. */
  ghost predicate AcceptedIsLast(s: Sys) {
    forall i | 0 <= i < |s.sends| && s.sends[i].accepted ::
      && Over(s, s.sends[i].recordId)
      && forall j | i < j < |s.sends| :: s.sends[j].recordId != s.sends[i].recordId
  }

  lemma AcceptedHasNoRetry(db: Db, blacklist: set<string>, job: Job, send: SendResult, f: Faults, now: Time)
    requires send.Accepted?
    ensures HandleJob(db, blacklist, job, send, f, now).retry.None?
  {
  }

  lemma HandlingKeepsAcceptedLast(s: Sys, h: Handled, send: SendResult, now: Time)
    requires Conserved(s) && AcceptedIsLast(s) && s.queue != [] && HandleEffect(s.auth.db, s.queue[0], h, now)
    requires send.Accepted? ==> h.retry.None?
    ensures AcceptedIsLast(AfterHandling(s, h, send, now))
  {
    var s', job := AfterHandling(s, h, send, now), s.queue[0];
    forall i | 0 <= i < |s'.sends| && s'.sends[i].accepted
      ensures Over(s', s'.sends[i].recordId)
      ensures forall j | i < j < |s'.sends| :: s'.sends[j].recordId != s'.sends[i].recordId
    {
      if i < |s.sends| {
        var r := s.sends[i].recordId;
        assert s'.sends[i] == s.sends[i] && Over(s, r);
        HandlingLeavesFinishedAlone(s, h, send, now, r);
      } else {
        var r := job.recordId.value;
        HandlingBringsNoWork(s, h, send, now, r);
        assert UnderWay(s, r) <= 1 && CountJobs(s.queue, r) >= 1;
        assert r !in s.auth.used ==> UnderWay(s, r) == 0;
      }
    }
  }

  lemma ActionKeepsAcceptedLast(s: Sys, t: TimedAction)
    requires SysInv(s) && Possible(s, t) && AcceptedIsLast(s)
    ensures AcceptedIsLast(Next(s, t))
  {
    if t.action.HandleNext? {
      var send, f := t.action.send, t.action.faults;
      var h := HandleJob(s.auth.db, s.blacklist, s.queue[0], send, f, t.now);
      HandleJobEffect(s.auth.db, s.blacklist, s.queue[0], send, f, t.now);
      if send.Accepted? {
        AcceptedHasNoRetry(s.auth.db, s.blacklist, s.queue[0], send, f, t.now);
      }
      HandlingKeepsAcceptedLast(s, h, send, t.now);
    } else {
      var s' := Next(s, t);
      assert s'.sends == s.sends;
      forall i | 0 <= i < |s'.sends| && s'.sends[i].accepted ensures Over(s', s'.sends[i].recordId) {
        ActionLeavesFinishedAlone(s, t, s.sends[i].recordId);
      }
    }
  }

  lemma {:induction false} RunKeepsAcceptedLast(s: Sys, run: seq<TimedAction>)
    requires SysInv(s) && IsRunOf(s, run) && AcceptedIsLast(s)
    ensures AcceptedIsLast(End(s, run))
    decreases |run|
  {
    if run != [] {
      ActionKeepsSysInv(s, run[0]);
      ActionKeepsAcceptedLast(s, run[0]);
      RunKeepsAcceptedLast(Next(s, run[0]), run[1..]);
    }
  }

  /** In every run, with any faults and deletions, Send succeeds at most once per record, and on its last attempt. */
  lemma AcceptedAtMostOnce(clock: Time, run: seq<TimedAction>, i: nat, j: nat)
    requires IsRunOf(StartSys(clock), run)
    requires i < j < |End(StartSys(clock), run).sends|
    ensures var sends := End(StartSys(clock), run).sends;
      sends[i].accepted ==> sends[j].recordId != sends[i].recordId
  {
    StartIsSound(clock);
    RunKeepsAcceptedLast(StartSys(clock), run);
  }
}
