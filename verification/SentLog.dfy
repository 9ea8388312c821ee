/** What the log says was sent was accepted by Send, in every run and whatever fails. */
module SentLog {
  import opened Base
  import opened Tables
  import opened AuthRuns
  import opened AuthInvariants
  import opened Delivery
  import opened DeliveryFacts
  import opened Pipeline
  import opened Conservation
  import opened Finished
  import opened Addressing
  import opened KpiReport

  ghost predicate LogsSent(log: seq<HistoryEntry>) {
    exists i :: 0 <= i < |log| && log[i].status == Sent
  }

  /** Attempt `i` was for record `r`, and Send accepted it. */
  ghost predicate AcceptedAt(sends: seq<Attempt>, r: Id, i: int) {
    0 <= i < |sends| && sends[i].recordId == r && sends[i].accepted
  }

  ghost predicate WasAccepted(sends: seq<Attempt>, r: Id) {
    exists i :: AcceptedAt(sends, r, i)
  }

  ghost predicate SentWasAccepted(s: Sys) {
    forall r | r in s.auth.db.records && LogsSent(Log(s.auth.db, r)) :: WasAccepted(s.sends, r)
  }

  // ----- one job, one callback -----

  lemma AppendedEntry(log: seq<HistoryEntry>, entry: HistoryEntry)
    ensures LogsSent(log + [entry]) <==> LogsSent(log) || entry.status == Sent
  {
    if LogsSent(log) {
      var i :| 0 <= i < |log| && log[i].status == Sent;
      assert (log + [entry])[i].status == Sent;
    }
    assert (log + [entry])[|log|] == entry;
  }

  lemma AppendLogs(db: Db, r: Id, entry: HistoryEntry, externalId: Option<string>, now: Time)
    requires r in db.records
    ensures LogsSent(Log(Append(db, r, entry, externalId, now), r)) <==> LogsSent(Log(db, r)) || entry.status == Sent
  {
    AppendedEntry(Log(db, r), entry);
  }

  lemma MarkFailedLogsNoSent(db: Db, r: Id, reason: string, now: Time, fault: bool)
    ensures LogsSent(Log(MarkFailed(db, r, reason, now, fault).db, r)) <==> LogsSent(Log(db, r))
  {
    if r in db.records {
      AppendLogs(db, r, HistoryEntry(Failed, OrElse(reason, "email delivery failed"), None, ""), None, now);
    }
  }

  lemma MarkBouncedLogsNoSent(db: Db, r: Id, reason: string, kind: string, now: Time, fault: bool)
    ensures LogsSent(Log(MarkBounced(db, r, reason, kind, now, fault).db, r)) <==> LogsSent(Log(db, r))
  {
    if r in db.records {
      AppendLogs(db, r, HistoryEntry(Bounced, OrElse(reason, "email bounced"), None, OrElse(kind, "unknown")), None, now);
    }
  }

  lemma ErrorLogsNoSent(
    db: Db, blacklist: set<string>, job: Job, r: Id, send: SendResult, f: Faults, now: Time)
    requires !send.Accepted?
    ensures LogsSent(Log(HandleDeliveryError(db, blacklist, job, r, send, f, now).db, r)) <==> LogsSent(Log(db, r))
  {
    match send
    case Unclassified(error) => MarkFailedLogsNoSent(db, r, error, now, f.firstMark);
    case HardBounce(error) => MarkBouncedLogsNoSent(db, r, error, "hard", now, f.firstMark);
    case SoftBounce(error) =>
      MarkBouncedLogsNoSent(db, r, error, "soft", now, f.firstMark);
      MarkFailedLogsNoSent(
        MarkBounced(db, r, error, "soft", now, f.firstMark).db, r, RETRIES_EXHAUSTED, now, f.secondMark);
  }

  /** Handling a job logs Sent only when Send was called and accepted the mail. */
  lemma HandlingLogsSent(db: Db, blacklist: set<string>, job: Job, r: Id, send: SendResult, f: Faults, now: Time)
    requires job.recordId == Some(r)
    ensures var h := HandleJob(db, blacklist, job, send, f, now);
      LogsSent(Log(h.db, r)) ==> LogsSent(Log(db, r)) || (h.sent && send.Accepted?)
  {
    if Blank(job.to) {
      MarkFailedLogsNoSent(db, r, EMPTY_TO, now, f.firstMark);
    } else if !f.lookup && Normal(job.to) != "" {
      if IsBlacklisted(blacklist, job.to) {
        MarkFailedLogsNoSent(db, r, BLACKLISTED, now, f.firstMark);
      } else if !HasBody(job) {
        MarkFailedLogsNoSent(db, r, MissingText(job), now, f.firstMark);
      } else if !send.Accepted? {
        ErrorLogsNoSent(db, blacklist, job, r, send, f, now);
      }
    }
  }

  lemma CallbackLogsNoSent(db: Db, c: Callback, now: Time, r: Id)
    ensures LogsSent(Log(HandleCallback(db, c, now).db, r)) ==> LogsSent(Log(db, r))
  {
    var found := RecordByExternalId(db.records, Trim(c.externalId));
    var status := AllowedEvent(Normal(c.event));
    if found == Some(r) && status.Some? {
      AppendLogs(db, r, HistoryEntry(status.value, c.message, Some(Trim(c.eventId)), c.bounceType), None, now);
    }
  }

  // ----- every run -----

  lemma MoreAttempts(sends: seq<Attempt>, more: seq<Attempt>, r: Id)
    requires WasAccepted(sends, r)
    ensures WasAccepted(sends + more, r)
  {
    var i :| AcceptedAt(sends, r, i);
    assert AcceptedAt(sends + more, r, i);
  }

  lemma HandlingKeepsSentAccepted(s: Sys, send: SendResult, f: Faults, now: Time)
    requires SentWasAccepted(s) && s.queue != []
    ensures SentWasAccepted(
      AfterHandling(s, HandleJob(s.auth.db, s.blacklist, s.queue[0], send, f, now), send, now))
  {
    var job := s.queue[0];
    var h := HandleJob(s.auth.db, s.blacklist, job, send, f, now);
    HandleJobEffect(s.auth.db, s.blacklist, job, send, f, now);
    forall r | r in h.db.records && LogsSent(Log(h.db, r))
      ensures WasAccepted(s.sends + AttemptOf(job, h.sent, send, now), r)
    {
      if LogsSent(Log(s.auth.db, r)) {
        MoreAttempts(s.sends, AttemptOf(job, h.sent, send, now), r);
      } else {
        HandledHereIsAccepted(s, h, send, f, now, r);
      }
    }
  }

  lemma HandledHereIsAccepted(s: Sys, h: Handled, send: SendResult, f: Faults, now: Time, r: Id)
    requires s.queue != [] && h == HandleJob(s.auth.db, s.blacklist, s.queue[0], send, f, now)
    requires HandleEffect(s.auth.db, s.queue[0], h, now) && LogsSent(Log(h.db, r)) && !LogsSent(Log(s.auth.db, r))
    ensures WasAccepted(s.sends + AttemptOf(s.queue[0], h.sent, send, now), r)
  {
    assert s.queue[0].recordId == Some(r);
    HandlingLogsSent(s.auth.db, s.blacklist, s.queue[0], r, send, f, now);
    assert AcceptedAt(s.sends + AttemptOf(s.queue[0], h.sent, send, now), r, |s.sends|);
  }

  lemma AuthKeepsSentAccepted(s: Sys, now: Time, e: Event, mail: Mail)
    requires Inv(s.auth) && SentWasAccepted(s) && Possible(s, Do(now, Auth(e, mail)))
    ensures SentWasAccepted(Next(s, Do(now, Auth(e, mail))))
  {
    NewRequestFits(s, now, e, mail);
  }

  lemma ActionKeepsSentAccepted(s: Sys, t: TimedAction)
    requires Inv(s.auth) && SentWasAccepted(s) && Possible(s, t)
    ensures SentWasAccepted(Next(s, t))
  {
    match t.action
    case Auth(e, mail) => AuthKeepsSentAccepted(s, t.now, e, mail);
    case EnqueueFailed(r, fails) => CompensationRemovesRecords(s.auth, s.requests[r], fails, t.now);
    case HandleNext(send, f) => HandlingKeepsSentAccepted(s, send, f, t.now);
    case Webhook(c) =>
      HandleCallbackEffect(s.auth.db, c, t.now);
      forall r | r in s.auth.db.records && LogsSent(Log(HandleCallback(s.auth.db, c, t.now).db, r))
        ensures WasAccepted(s.sends, r)
      {
        CallbackLogsNoSent(s.auth.db, c, t.now, r);
      }
    case _ =>
  }

  lemma {:induction false} RunKeepsSentAccepted(s: Sys, run: seq<TimedAction>)
    requires SysInv(s) && IsRunOf(s, run) && SentWasAccepted(s)
    ensures SentWasAccepted(End(s, run))
    decreases |run|
  {
    if run != [] {
      ActionKeepsSysInv(s, run[0]);
      ActionKeepsSentAccepted(s, run[0]);
      RunKeepsSentAccepted(Next(s, run[0]), run[1..]);
    }
  }

  /** In every run, a record whose log says Sent has exactly one accepted attempt, and it is the last. */
  lemma SentRecordWasAcceptedOnce(clock: Time, run: seq<TimedAction>, r: Id) returns (i: nat)
    requires IsRunOf(StartSys(clock), run)
    requires var db := End(StartSys(clock), run).auth.db; r in db.records && LogsSent(Log(db, r))
    ensures var sends := End(StartSys(clock), run).sends;
      AcceptedAt(sends, r, i) && forall j | i < j < |sends| :: sends[j].recordId != r
    ensures forall j | AcceptedAt(End(StartSys(clock), run).sends, r, j) :: j == i
  {
    StartIsSound(clock);
    RunKeepsSentAccepted(StartSys(clock), run);
    RunKeepsAcceptedLast(StartSys(clock), run);
    var sends := End(StartSys(clock), run).sends;
    i :| AcceptedAt(sends, r, i);
  }

  /** Whoever the report counts as mailed but not clicked was sent a mail, to the user's own address. */
  lemma UsersWithoutClickGotMail(clock: Time, run: seq<TimedAction>, u: Id) returns (r: Id, i: nat)
    requires IsRunOf(StartSys(clock), run) && u in UnverifiedWithoutClick(End(StartSys(clock), run).auth.db)
    ensures var s := End(StartSys(clock), run);
      && r in s.auth.db.records && s.auth.db.records[r].userId == Some(u)
      && AcceptedAt(s.sends, r, i) && s.sends[i].to == s.auth.db.users[u].email
  {
    var db := End(StartSys(clock), run).auth.db;
    var q, k :| q in db.records && db.records[q].userId == Some(u) && 0 <= k < |Log(db, q)| && Log(db, q)[k].status == Sent;
    r := q;
    i := SentRecordWasAcceptedOnce(clock, run, r);
    MailsGoToTheirUser(clock, run, r, u);
  }
}
