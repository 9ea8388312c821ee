/** What handling a job or a callback does to the records and their history. */
module DeliveryFacts {
  import opened Base
  import opened Tables
  import opened Delivery

  /** An entry that the worker writes when it is done with a record. */
  predicate Terminal(entry: HistoryEntry) {
    && entry.eventId.None?
    && (entry.status == Sent || entry.status == Failed || (entry.status == Bounced && entry.bounceType == "hard"))
  }

  function Terminals(log: seq<HistoryEntry>): nat {
    if log == [] then 0
    else Terminals(log[..|log| - 1]) + if Terminal(log[|log| - 1]) then 1 else 0
  }

  /** The status of the last entry, or queued while there is none. */
  function LastStatus(log: seq<HistoryEntry>): Status {
    if log == [] then Queued else log[|log| - 1].status
  }

  /** The status column agrees with the log. */
  ghost predicate StatusAgrees(db: Db) {
    forall r | r in db.records :: db.records[r].status == LastStatus(Log(db, r))
  }

  /** Only the record `r` and its log may differ, and `r` keeps its owner and address. */
  ghost predicate TouchesOnly(db: Db, db': Db, r: Id) {
    && db'.users == db.users && db'.verifications == db.verifications && db'.sessions == db.sessions
    && db'.records.Keys == db.records.Keys
    && db'.history.Keys <= db.history.Keys + {r}
    && (r !in db.records ==> db' == db)
    && (forall q | q in db.records ::
          db'.records[q].userId == db.records[q].userId && db'.records[q].toEmail == db.records[q].toEmail)
    && (forall q | q in db.records && q != r :: db'.records[q] == db.records[q])
    && (forall q | q != r :: Log(db', q) == Log(db, q))
  }

  lemma AppendTouchesOnly(db: Db, r: Id, entry: HistoryEntry, externalId: Option<string>, now: Time)
    requires r in db.records
    ensures var db' := Append(db, r, entry, externalId, now);
      && TouchesOnly(db, db', r)
      && Log(db', r) == Log(db, r) + [entry]
      && Terminals(Log(db', r)) == Terminals(Log(db, r)) + (if Terminal(entry) then 1 else 0)
      && db'.records[r].status == entry.status
  {
    var log := Log(db, r) + [entry];
    assert log[..|log| - 1] == Log(db, r);
  }

  lemma AppendKeepsStatus(db: Db, r: Id, entry: HistoryEntry, externalId: Option<string>, now: Time)
    requires r in db.records && StatusAgrees(db)
    ensures StatusAgrees(Append(db, r, entry, externalId, now))
  {
    AppendTouchesOnly(db, r, entry, externalId, now);
  }

  /** A Mark call that succeeds appends one entry to an existing record; one that fails changes nothing. */
  ghost predicate MarkEffect(db: Db, m: Marked, r: Id, terminal: bool) {
    && TouchesOnly(db, m.db, r)
    && (!m.ok ==> m.db == db)
    && Log(db, r) <= Log(m.db, r)
    && (m.ok ==> r in db.records && Terminals(Log(m.db, r)) == Terminals(Log(db, r)) + if terminal then 1 else 0)
    && (StatusAgrees(db) ==> StatusAgrees(m.db))
  }

  lemma MarkFailedEffect(db: Db, r: Id, reason: string, now: Time, fault: bool)
    ensures MarkEffect(db, MarkFailed(db, r, reason, now, fault), r, true)
  {
    if MarkFailed(db, r, reason, now, fault).ok {
      var entry := HistoryEntry(Failed, OrElse(reason, "email delivery failed"), None, "");
      AppendTouchesOnly(db, r, entry, None, now);
      if StatusAgrees(db) {
        AppendKeepsStatus(db, r, entry, None, now);
      }
    }
  }

  lemma MarkSentEffect(db: Db, r: Id, externalId: string, now: Time, fault: bool)
    ensures MarkEffect(db, MarkSent(db, r, externalId, now, fault), r, true)
  {
    if MarkSent(db, r, externalId, now, fault).ok {
      var entry := HistoryEntry(Sent, "email sent successfully", None, "");
      AppendTouchesOnly(db, r, entry, Some(externalId), now);
      if StatusAgrees(db) {
        AppendKeepsStatus(db, r, entry, Some(externalId), now);
      }
    }
  }

  lemma MarkBouncedEffect(db: Db, r: Id, reason: string, bounceType: string, now: Time, fault: bool)
    ensures MarkEffect(db, MarkBounced(db, r, reason, bounceType, now, fault), r, OrElse(bounceType, "unknown") == "hard")
  {
    if MarkBounced(db, r, reason, bounceType, now, fault).ok {
      var entry := HistoryEntry(Bounced, OrElse(reason, "email bounced"), None, OrElse(bounceType, "unknown"));
      AppendTouchesOnly(db, r, entry, None, now);
      if StatusAgrees(db) {
        AppendKeepsStatus(db, r, entry, None, now);
      }
    }
  }

  /** The two bounce classes are written as they are. */
  lemma BounceClassesAreNotBlank()
    ensures OrElse("hard", "unknown") == "hard" && OrElse("soft", "unknown") == "soft"
  {
    assert TrimLeft("hard") == "hard" && TrimRight("hard") == "hard";
    assert TrimLeft("soft") == "soft" && TrimRight("soft") == "soft";
  }

  /** What one handled job does: a terminal entry exactly when it is settled, and never both that and a retry. */
  ghost predicate HandleEffect(db: Db, job: Job, h: Handled, now: Time) {
    && (job.recordId.None? ==> h.db == db && !h.settled && h.retry.None? && !h.sent)
    && (job.recordId.Some? ==>
          var r := job.recordId.value;
          && TouchesOnly(db, h.db, r)
          && Log(db, r) <= Log(h.db, r)
          && Terminals(Log(h.db, r)) == Terminals(Log(db, r)) + (if h.settled then 1 else 0)
          && (h.settled || h.retry.Some? ==> r in db.records))
    && (h.retry.Some? ==>
          && !h.settled && h.sent && job.retryCount < |RETRY_DELAYS|
          && h.retry.value == Timer(now + RETRY_DELAYS[job.retryCount], job.(retryCount := job.retryCount + 1)))
    && (StatusAgrees(db) ==> StatusAgrees(h.db))
  }

  /** A job that ends in one terminal Mark call is settled exactly when the call succeeds. */
  lemma OneMarkSettles(db: Db, job: Job, r: Id, m: Marked, h: Handled, now: Time)
    requires job.recordId == Some(r) && MarkEffect(db, m, r, true)
    requires h.db == m.db && h.settled == m.ok && h.retry.None?
    ensures HandleEffect(db, job, h, now)
  {
  }

  lemma TouchesOnlyTwice(db: Db, db1: Db, db2: Db, r: Id)
    requires TouchesOnly(db, db1, r) && TouchesOnly(db1, db2, r)
    ensures TouchesOnly(db, db2, r)
  {
  }

  /** A soft bounce that ran out of retries: the bounce entry, then the terminal one. */
  lemma TwoMarksSettle(db: Db, job: Job, r: Id, m: Marked, m': Marked, h: Handled, now: Time)
    requires job.recordId == Some(r) && MarkEffect(db, m, r, false) && m.ok && MarkEffect(m.db, m', r, true)
    requires h.db == m'.db && h.settled == m'.ok && h.retry.None?
    ensures HandleEffect(db, job, h, now)
  {
    TouchesOnlyTwice(db, m.db, m'.db, r);
  }

  /** A soft bounce with a retry left: the bounce entry and a timer. */
  lemma MarkThenRetry(db: Db, job: Job, r: Id, m: Marked, h: Handled, now: Time)
    requires job.recordId == Some(r) && MarkEffect(db, m, r, false)
    requires h.db == m.db && !h.settled && h.sent
    requires if m.ok then
        job.retryCount < |RETRY_DELAYS|
        && h.retry == Some(Timer(now + RETRY_DELAYS[job.retryCount], job.(retryCount := job.retryCount + 1)))
      else h.retry.None?
    ensures HandleEffect(db, job, h, now)
  {
  }

  lemma SoftMarkEffect(db: Db, r: Id, error: string, now: Time, fault: bool)
    ensures MarkEffect(db, MarkBounced(db, r, error, "soft", now, fault), r, false)
  {
    BounceClassesAreNotBlank();
    MarkBouncedEffect(db, r, error, "soft", now, fault);
  }

  /** The last soft bounce: two marks, the second of which may fail. */
  lemma LastSoftBounceEffect(db: Db, blacklist: set<string>, job: Job, r: Id, m: Marked, f: Faults, now: Time)
    requires job.recordId == Some(r) && MarkEffect(db, m, r, false) && m.ok
    ensures var m' := MarkFailed(m.db, r, RETRIES_EXHAUSTED, now, f.secondMark);
      HandleEffect(db, job, Handled(m'.db, blacklist, true, None, m'.ok), now)
  {
    var m' := MarkFailed(m.db, r, RETRIES_EXHAUSTED, now, f.secondMark);
    MarkFailedEffect(m.db, r, RETRIES_EXHAUSTED, now, f.secondMark);
    TwoMarksSettle(db, job, r, m, m', Handled(m'.db, blacklist, true, None, m'.ok), now);
  }

  lemma SoftBounceEffect(db: Db, blacklist: set<string>, job: Job, r: Id, error: string, f: Faults, now: Time)
    requires job.recordId == Some(r)
    ensures HandleEffect(db, job, HandleDeliveryError(db, blacklist, job, r, SoftBounce(error), f, now), now)
  {
    var m := MarkBounced(db, r, error, "soft", now, f.firstMark);
    SoftMarkEffect(db, r, error, now, f.firstMark);
    if m.ok && job.retryCount >= |RETRY_DELAYS| {
      LastSoftBounceEffect(db, blacklist, job, r, m, f, now);
    } else {
      MarkThenRetry(db, job, r, m, HandleDeliveryError(db, blacklist, job, r, SoftBounce(error), f, now), now);
    }
  }

  lemma DeliveryErrorEffect(
    db: Db, blacklist: set<string>, job: Job, r: Id, send: SendResult, f: Faults, now: Time)
    requires job.recordId == Some(r) && !send.Accepted?
    ensures HandleEffect(db, job, HandleDeliveryError(db, blacklist, job, r, send, f, now), now)
  {
    var h := HandleDeliveryError(db, blacklist, job, r, send, f, now);
    match send
    case Unclassified(error) =>
      MarkFailedEffect(db, r, error, now, f.firstMark);
      OneMarkSettles(db, job, r, MarkFailed(db, r, error, now, f.firstMark), h, now);
    case HardBounce(error) =>
      BounceClassesAreNotBlank();
      MarkBouncedEffect(db, r, error, "hard", now, f.firstMark);
      OneMarkSettles(db, job, r, MarkBounced(db, r, error, "hard", now, f.firstMark), h, now);
    case SoftBounce(error) => SoftBounceEffect(db, blacklist, job, r, error, f, now);
  }

  lemma RefusedJobEffect(db: Db, blacklist: set<string>, job: Job, r: Id, reason: string, fault: bool, now: Time)
    requires job.recordId == Some(r)
    ensures var m := MarkFailed(db, r, reason, now, fault);
      HandleEffect(db, job, Handled(m.db, blacklist, false, None, m.ok), now)
  {
    MarkFailedEffect(db, r, reason, now, fault);
    var m := MarkFailed(db, r, reason, now, fault);
    OneMarkSettles(db, job, r, m, Handled(m.db, blacklist, false, None, m.ok), now);
  }

  lemma HandleJobEffect(db: Db, blacklist: set<string>, job: Job, send: SendResult, f: Faults, now: Time)
    ensures HandleEffect(db, job, HandleJob(db, blacklist, job, send, f, now), now)
  {
    if job.recordId.Some? {
      var r, h := job.recordId.value, HandleJob(db, blacklist, job, send, f, now);
      if Blank(job.to) {
        RefusedJobEffect(db, blacklist, job, r, EMPTY_TO, f.firstMark, now);
      } else if f.lookup || Normal(job.to) == "" {
      } else if IsBlacklisted(blacklist, job.to) {
        RefusedJobEffect(db, blacklist, job, r, BLACKLISTED, f.firstMark, now);
      } else if !HasBody(job) {
        RefusedJobEffect(db, blacklist, job, r, MissingText(job), f.firstMark, now);
      } else if send.Accepted? {
        MarkSentEffect(db, r, send.externalId, now, f.firstMark);
        OneMarkSettles(db, job, r, MarkSent(db, r, send.externalId, now, f.firstMark), h, now);
      } else {
        DeliveryErrorEffect(db, blacklist, job, r, send, f, now);
      }
    }
  }

  /** A callback adds at most one entry, never a terminal one. */
  ghost predicate CallbackEffect(db: Db, db': Db) {
    && (db' == db || exists r :: r in db.records && TouchesOnly(db, db', r) && Log(db, r) <= Log(db', r)
                                 && Terminals(Log(db', r)) == Terminals(Log(db, r)))
    && (StatusAgrees(db) ==> StatusAgrees(db'))
  }

  lemma HandleCallbackEffect(db: Db, c: Callback, now: Time)
    ensures CallbackEffect(db, HandleCallback(db, c, now).db)
  {
    var db' := HandleCallback(db, c, now).db;
    if db' != db {
      var status := AllowedEvent(Normal(c.event)).value;
      var r := RecordByExternalId(db.records, Trim(c.externalId)).value;
      var entry := HistoryEntry(status, c.message, Some(Trim(c.eventId)), c.bounceType);
      AppendTouchesOnly(db, r, entry, None, now);
      if StatusAgrees(db) {
        AppendKeepsStatus(db, r, entry, None, now);
      }
    }
  }
}
