/**
 What handling a job without faults records, and that the provider's callbacks find a mail that was sent: the id that
 Send returned is stored with the record and stays there.
 */
module SentMails {
  import opened Base
  import opened Addresses
  import opened Tables
  import opened AuthInvariants
  import opened Delivery
  import opened DeliveryFacts
  import opened Pipeline
  import opened Conservation
  import opened Finished
  import opened Callbacks
  import opened Sagas

  // ----- what one job records -----

  /** The statuses of a log. */
  function Statuses(log: seq<HistoryEntry>): seq<Status> {
    seq(|log|, i requires 0 <= i < |log| => log[i].status)
  }

  /** The record ends with this status, and its log has grown by these. */
  ghost predicate Records(db: Db, db': Db, r: Id, statuses: seq<Status>, now: Time) {
    && r in db.records && r in db'.records && statuses != []
    && db'.records[r].status == statuses[|statuses| - 1] && db'.records[r].updatedAt == now
    && Statuses(Log(db', r)) == Statuses(Log(db, r)) + statuses
  }

  /** The message of the latest entry, and its bounce class. */
  ghost predicate LastEntry(db: Db, r: Id, message: string, bounceType: string) {
    var log := Log(db, r);
    log != [] && log[|log| - 1].message == message && log[|log| - 1].bounceType == bounceType
  }

  lemma AppendRecords(db: Db, r: Id, entry: HistoryEntry, externalId: Option<string>, now: Time)
    requires r in db.records
    ensures Records(db, Append(db, r, entry, externalId, now), r, [entry.status], now)
  {
  }

  lemma RecordsTwice(db: Db, db1: Db, db2: Db, r: Id, first: Status, second: Status, now: Time)
    requires Records(db, db1, r, [first], now) && Records(db1, db2, r, [second], now)
    ensures Records(db, db2, r, [first, second], now)
  {
    assert Statuses(Log(db, r)) + [first] + [second] == Statuses(Log(db, r)) + [first, second];
  }

  lemma MarkSentRecords(db: Db, r: Id, externalId: string, now: Time)
    requires r in db.records && !Blank(externalId)
    ensures MarkSent(db, r, externalId, now, false).ok
    ensures Records(db, MarkSent(db, r, externalId, now, false).db, r, [Sent], now)
    ensures MarkSent(db, r, externalId, now, false).db.records[r].externalId == Some(externalId)
    ensures LastEntry(MarkSent(db, r, externalId, now, false).db, r, "email sent successfully", "")
  {
    AppendRecords(db, r, HistoryEntry(Sent, "email sent successfully", None, ""), Some(externalId), now);
  }

  lemma MarkFailedRecords(db: Db, r: Id, reason: string, now: Time)
    requires r in db.records
    ensures MarkFailed(db, r, reason, now, false).ok
    ensures Records(db, MarkFailed(db, r, reason, now, false).db, r, [Failed], now)
    ensures MarkFailed(db, r, reason, now, false).db.records[r].externalId == db.records[r].externalId
    ensures LastEntry(
      MarkFailed(db, r, reason, now, false).db, r, if Blank(reason) then "email delivery failed" else reason, "")
  {
    AppendRecords(db, r, HistoryEntry(Failed, OrElse(reason, "email delivery failed"), None, ""), None, now);
  }

  lemma MarkBouncedRecords(db: Db, r: Id, reason: string, kind: string, now: Time)
    requires r in db.records
    ensures MarkBounced(db, r, reason, kind, now, false).ok
    ensures Records(db, MarkBounced(db, r, reason, kind, now, false).db, r, [Bounced], now)
    ensures MarkBounced(db, r, reason, kind, now, false).db.records[r].externalId == db.records[r].externalId
    ensures LastEntry(
      MarkBounced(db, r, reason, kind, now, false).db, r, if Blank(reason) then "email bounced" else reason,
      if Blank(kind) then "unknown" else kind)
  {
    AppendRecords(
      db, r, HistoryEntry(Bounced, OrElse(reason, "email bounced"), None, OrElse(kind, "unknown")), None, now);
  }

  /** The job names an address that is not suppressed, and has a text or all that is needed to render one. */
  ghost predicate Sendable(blacklist: set<string>, job: Job) {
    && !Blank(job.to) && !IsBlacklisted(blacklist, job.to)
    && (Blank(job.htmlBody) && Blank(job.textBody) ==>
          !Blank(job.otp) && !Blank(job.magicLink) && !Blank(job.expiresIn))
  }

  /** Why a job that is not sendable fails: the first of these that applies. */
  ghost function Reason(blacklist: set<string>, job: Job): string {
    if Blank(job.to) then "invalid_email_job: empty_to_email"
    else if IsBlacklisted(blacklist, job.to) then "email_blacklisted"
    else if Blank(job.otp) then "invalid_email_job: empty_otp"
    else if Blank(job.magicLink) then "invalid_email_job: empty_magic_link"
    else "invalid_email_job: empty_expires_in"
  }

  lemma ReasonsAreNotBlank(blacklist: set<string>, job: Job)
    ensures !Blank(Reason(blacklist, job))
  {
    var reason := Reason(blacklist, job);
    BlankExactlyWhen(reason);
    assert !IsSpace(reason[0]);
  }

  /** Without faults: Send is called exactly for a sendable job, and any other job is recorded as failed, with its reason. */
  lemma SentExactlyWhenSendable(db: Db, blacklist: set<string>, job: Job, r: Id, send: SendResult, now: Time)
    requires job.recordId == Some(r) && r in db.records
    ensures var h := HandleJob(db, blacklist, job, send, NO_FAULTS, now);
      && (h.sent <==> Sendable(blacklist, job))
      && (!h.sent ==>
            && h.settled && h.retry.None? && h.blacklist == blacklist && Records(db, h.db, r, [Failed], now)
            && LastEntry(h.db, r, Reason(blacklist, job), ""))
  {
    ReasonsAreNotBlank(blacklist, job);
    if Blank(job.to) {
      MarkFailedRecords(db, r, EMPTY_TO, now);
    } else {
      NormalOfNonBlank(job.to);
      if IsBlacklisted(blacklist, job.to) {
        MarkFailedRecords(db, r, BLACKLISTED, now);
      } else if !HasBody(job) {
        MarkFailedRecords(db, r, MissingText(job), now);
      } else if !send.Accepted? {
        ErrorMeansSent(db, blacklist, job, r, send, now);
      }
    }
  }

  lemma ErrorMeansSent(db: Db, blacklist: set<string>, job: Job, r: Id, send: SendResult, now: Time)
    requires !send.Accepted?
    ensures HandleDeliveryError(db, blacklist, job, r, send, NO_FAULTS, now).sent
  {
  }

  /** An accepted mail is recorded as sent, under the id that Send returned. */
  lemma AcceptedIsRecorded(db: Db, blacklist: set<string>, job: Job, r: Id, externalId: string, now: Time)
    requires job.recordId == Some(r) && r in db.records && Sendable(blacklist, job) && !Blank(externalId)
    ensures var h := HandleJob(db, blacklist, job, Accepted(externalId), NO_FAULTS, now);
      && h.sent && h.settled && h.retry.None? && h.blacklist == blacklist && Records(db, h.db, r, [Sent], now)
      && h.db.records[r].externalId == Some(externalId)
  {
    NormalOfNonBlank(job.to);
    MarkSentRecords(db, r, externalId, now);
  }

  /** A hard bounce is recorded as bounced, and the address is suppressed. */
  lemma HardBounceIsRecorded(db: Db, blacklist: set<string>, job: Job, r: Id, error: string, now: Time)
    requires job.recordId == Some(r) && r in db.records && Sendable(blacklist, job)
    ensures var h := HandleJob(db, blacklist, job, HardBounce(error), NO_FAULTS, now);
      && h.sent && h.settled && h.retry.None? && h.blacklist == blacklist + {Normal(job.to)}
      && Records(db, h.db, r, [Bounced], now) && LastEntry(h.db, r, if Blank(error) then "email bounced" else error, "hard")
  {
    NormalOfNonBlank(job.to);
    MarkBouncedRecords(db, r, error, "hard", now);
  }

  lemma LastSoftBounceRecords(db: Db, r: Id, error: string, now: Time)
    requires r in db.records
    ensures var db1 := MarkBounced(db, r, error, "soft", now, false).db;
      && MarkFailed(db1, r, RETRIES_EXHAUSTED, now, false).ok
      && Records(db, MarkFailed(db1, r, RETRIES_EXHAUSTED, now, false).db, r, [Bounced, Failed], now)
      && LastEntry(MarkFailed(db1, r, RETRIES_EXHAUSTED, now, false).db, r, "soft_bounce_retry_exhausted", "")
  {
    BlankExactlyWhen(RETRIES_EXHAUSTED);
    assert !IsSpace(RETRIES_EXHAUSTED[0]);
    var db1 := MarkBounced(db, r, error, "soft", now, false).db;
    MarkBouncedRecords(db, r, error, "soft", now);
    MarkFailedRecords(db1, r, RETRIES_EXHAUSTED, now);
    RecordsTwice(db, db1, MarkFailed(db1, r, RETRIES_EXHAUSTED, now, false).db, r, Bounced, Failed, now);
  }

  /** A soft bounce is recorded as bounced and tried again after one, four and twenty-four hours. */
  lemma SoftBounceIsRetried(db: Db, blacklist: set<string>, job: Job, r: Id, error: string, now: Time)
    requires job.recordId == Some(r) && r in db.records && Sendable(blacklist, job) && job.retryCount < 3
    ensures var h := HandleJob(db, blacklist, job, SoftBounce(error), NO_FAULTS, now);
      && h.sent && h.blacklist == blacklist && !h.settled && Records(db, h.db, r, [Bounced], now)
      && LastEntry(h.db, r, if Blank(error) then "email bounced" else error, "soft")
      && h.retry == Some(Timer(now + (if job.retryCount == 0 then 1 else if job.retryCount == 1 then 4 else 24) * 3600,
      job.(retryCount := job.retryCount + 1)))
  {
    NormalOfNonBlank(job.to);
    MarkBouncedRecords(db, r, error, "soft", now);
  }

  /** The fourth soft bounce is recorded as bounced and then as failed, and not tried again. */
  lemma LastSoftBounceIsRecorded(db: Db, blacklist: set<string>, job: Job, r: Id, error: string, now: Time)
    requires job.recordId == Some(r) && r in db.records && Sendable(blacklist, job) && job.retryCount >= 3
    ensures var h := HandleJob(db, blacklist, job, SoftBounce(error), NO_FAULTS, now);
      && h.sent && h.blacklist == blacklist && h.settled && h.retry.None?
      && Records(db, h.db, r, [Bounced, Failed], now) && LastEntry(h.db, r, "soft_bounce_retry_exhausted", "")
  {
    NormalOfNonBlank(job.to);
    MarkBouncedRecords(db, r, error, "soft", now);
    LastSoftBounceRecords(db, r, error, now);
  }

  /** Any other error is recorded as failed. */
  lemma OtherErrorIsRecorded(db: Db, blacklist: set<string>, job: Job, r: Id, error: string, now: Time)
    requires job.recordId == Some(r) && r in db.records && Sendable(blacklist, job)
    ensures var h := HandleJob(db, blacklist, job, Unclassified(error), NO_FAULTS, now);
      && h.sent && h.settled && h.retry.None? && h.blacklist == blacklist && Records(db, h.db, r, [Failed], now)
      && LastEntry(h.db, r, if Blank(error) then "email delivery failed" else error, "")
  {
    NormalOfNonBlank(job.to);
    MarkFailedRecords(db, r, error, now);
  }

  // ----- failing calls -----

  /**
   When the first Mark call fails, the record is gone or Send returned a blank id, nothing changes: no status, no retry,
   no suppression.
   */
  lemma FailedMarkChangesNothing(
    db: Db, blacklist: set<string>, job: Job, r: Id, send: SendResult, f: Faults, now: Time)
    requires job.recordId == Some(r)
    requires f.firstMark || r !in db.records || (send.Accepted? && Blank(send.externalId) && Sendable(blacklist, job))
    ensures var h := HandleJob(db, blacklist, job, send, f, now);
      h.db == db && h.blacklist == blacklist && h.retry.None? && !h.settled
  {
  }

  /** When the suppression list cannot be read, a job with an address is dropped unsent. */
  lemma FailedLookupDropsJob(db: Db, blacklist: set<string>, job: Job, send: SendResult, f: Faults, now: Time)
    requires f.lookup && !Blank(job.to)
    ensures HandleJob(db, blacklist, job, send, f, now) == Handled(db, blacklist, false, None, false)
  {
  }

  /** A hard bounce that is recorded suppresses the address exactly when the call that does so succeeds. */
  lemma RecordedHardBounceSuppresses(db: Db, blacklist: set<string>, job: Job, r: Id, error: string, f: Faults, now: Time)
    requires job.recordId == Some(r) && r in db.records && Sendable(blacklist, job) && !f.lookup && !f.firstMark
    ensures var h := HandleJob(db, blacklist, job, HardBounce(error), f, now);
      && Records(db, h.db, r, [Bounced], now)
      && h.blacklist == if f.blacklist then blacklist else blacklist + {Normal(job.to)}
  {
    NormalOfNonBlank(job.to);
    MarkBouncedRecords(db, r, error, "hard", now);
  }

  // ----- the external id stays -----

  ghost predicate KeepsId(s: Sys, s': Sys, r: Id) {
    r in s.auth.db.records && r in s'.auth.db.records ==>
      s'.auth.db.records[r].externalId == s.auth.db.records[r].externalId
  }

  lemma HandlingKeepsOtherIds(
    db: Db, blacklist: set<string>, job: Job, send: SendResult, f: Faults, now: Time, r: Id)
    requires job.recordId != Some(r) && r in db.records
    ensures var db' := HandleJob(db, blacklist, job, send, f, now).db;
      r in db'.records && db'.records[r] == db.records[r]
  {
    HandleJobEffect(db, blacklist, job, send, f, now);
  }

  lemma CallbackKeepsIds(db: Db, c: Callback, now: Time, r: Id)
    requires r in db.records
    ensures var db' := HandleCallback(db, c, now).db;
      r in db'.records && db'.records[r].externalId == db.records[r].externalId
  {
  }

  /** No step changes the external id of a record with nothing under way. */
  lemma ActionKeepsId(s: Sys, t: TimedAction, r: Id)
    requires Inv(s.auth) && Possible(s, t) && Over(s, r)
    ensures KeepsId(s, Next(s, t), r)
  {
    if r in s.auth.db.records {
      match t.action
      case Auth(e, mail) => NewRequestFits(s, t.now, e, mail);
      case EnqueueFailed(q, fails) => CompensationRemovesRecords(s.auth, s.requests[q], fails, t.now);
      case HandleNext(send, f) =>
        HandlingKeepsOtherIds(s.auth.db, s.blacklist, s.queue[0], send, f, t.now, r);
      case Webhook(c) => CallbackKeepsIds(s.auth.db, c, t.now, r);
      case _ =>
    }
  }

  lemma {:induction false} RunKeepsId(s: Sys, run: seq<TimedAction>, r: Id)
    requires SysInv(s) && IsRunOf(s, run) && Over(s, r) && r in s.auth.db.records && r in End(s, run).auth.db.records
    ensures KeepsId(s, End(s, run), r)
    decreases |run|
  {
    if run != [] {
      ActionKeepsSysInv(s, run[0]);
      ActionKeepsId(s, run[0], r);
      ActionLeavesFinishedAlone(s, run[0], r);
      if r in Next(s, run[0]).auth.db.records {
        RunKeepsId(Next(s, run[0]), run[1..], r);
      } else {
        DeletedForGood(Next(s, run[0]), run[1..], r);
      }
    }
  }

  // ----- callbacks find the mail -----

  /** The callback names this id and reports this event. */
  ghost predicate Reports(c: Callback, externalId: string, status: Status) {
    Trim(c.externalId) == externalId && externalId != "" && !Blank(c.eventId) && AllowedEvent(Normal(c.event)) == Some(status)
  }

  lemma OnlyHolderIsFound(records: map<Id, EmailRecord>, externalId: string, r: Id)
    requires r in records && records[r].externalId == Some(externalId)
    requires forall q | q in records && records[q].externalId == Some(externalId) :: q == r
    ensures RecordByExternalId(records, externalId) == Some(r)
  {
    assert IsLatestWith(records, externalId, r);
  }

  /** A callback about the only record with its id is recorded for that record, unless it was before. */
  lemma HolderIsNoted(db: Db, c: Callback, now: Time, r: Id, externalId: string, status: Status)
    requires Reports(c, externalId, status) && r in db.records && db.records[r].externalId == Some(externalId)
    requires forall q | q in db.records && db.records[q].externalId == Some(externalId) :: q == r
    ensures KeyOf(db, c) == Some(Key(r, status, Trim(c.eventId)))
    ensures HandleCallback(db, c, now).reply == Recorded(!Noted(db, Key(r, status, Trim(c.eventId))))
  {
    OnlyHolderIsFound(db.records, externalId, r);
  }

  /** After an accepted send nothing more is under way for the record. */
  lemma AcceptedIsOver(s: Sys, now: Time, externalId: string, r: Id)
    requires SysInv(s) && Possible(s, Do(now, HandleNext(Accepted(externalId), NO_FAULTS)))
    requires s.queue[0].recordId == Some(r) && r in s.auth.db.records
    ensures Over(Next(s, Do(now, HandleNext(Accepted(externalId), NO_FAULTS))), r)
  {
    var send := Accepted(externalId);
    var h := HandleJob(s.auth.db, s.blacklist, s.queue[0], send, NO_FAULTS, now);
    HandleJobEffect(s.auth.db, s.blacklist, s.queue[0], send, NO_FAULTS, now);
    AcceptedHasNoRetry(s.auth.db, s.blacklist, s.queue[0], send, NO_FAULTS, now);
    HandlingBringsNoWork(s, h, send, now, r);
    assert UnderWay(s, r) <= 1 && CountJobs(s.queue, r) >= 1;
  }

  /**
   A mail is accepted under an id. However the run goes on, as long as the record is there and no other record has the
   id, a callback with the id is about that record, and the first of each event is recorded.
   */
  lemma CallbacksFindTheSentMail(
    s: Sys, now: Time, externalId: string, r: Id, run: seq<TimedAction>, c: Callback, status: Status, later: Time)
    requires SysInv(s) && Possible(s, Do(now, HandleNext(Accepted(externalId), NO_FAULTS)))
    requires s.queue[0].recordId == Some(r) && r in s.auth.db.records && Sendable(s.blacklist, s.queue[0])
    requires !Blank(externalId) && Reports(c, externalId, status)
    requires IsRunOf(Next(s, Do(now, HandleNext(Accepted(externalId), NO_FAULTS))), run)
    requires var db := End(Next(s, Do(now, HandleNext(Accepted(externalId), NO_FAULTS))), run).auth.db;
      && r in db.records
      && forall q | q in db.records && db.records[q].externalId == Some(externalId) :: q == r
    ensures var db := End(Next(s, Do(now, HandleNext(Accepted(externalId), NO_FAULTS))), run).auth.db;
      && KeyOf(db, c) == Some(Key(r, status, Trim(c.eventId)))
      && HandleCallback(db, c, later).reply == Recorded(!Noted(db, Key(r, status, Trim(c.eventId))))
  {
    var t := Do(now, HandleNext(Accepted(externalId), NO_FAULTS));
    var s1 := Next(s, t);
    AcceptedIsRecorded(s.auth.db, s.blacklist, s.queue[0], r, externalId, now);
    ActionKeepsSysInv(s, t);
    AcceptedIsOver(s, now, externalId, r);
    RunKeepsId(s1, run, r);
    HolderIsNoted(End(s1, run).auth.db, c, later, r, externalId, status);
  }

  // ----- which record, which entry, which report -----

  /** Among several records with the id the one updated last is meant, then the one created last. */
  lemma LastUpdatedIsMeant(db: Db, externalId: string, r: Id, q: Id)
    requires RecordByExternalId(db.records, externalId) == Some(r)
    requires q in db.records && db.records[q].externalId == Some(externalId)
    ensures r in db.records && db.records[r].externalId == Some(externalId)
    ensures db.records[q].updatedAt <= db.records[r].updatedAt
    ensures db.records[q].updatedAt == db.records[r].updatedAt ==> db.records[q].createdAt <= db.records[r].createdAt
    ensures db.records[q].updatedAt == db.records[r].updatedAt && db.records[q].createdAt == db.records[r].createdAt ==>
      q <= r
  {
  }

  /** A recorded callback appends one entry with its status, message, event id and bounce class. */
  lemma CallbackEntry(db: Db, c: Callback, now: Time)
    requires HandleCallback(db, c, now).reply == Recorded(true)
    ensures KeyOf(db, c).Some?
    ensures var k, db' := KeyOf(db, c).value, HandleCallback(db, c, now).db;
      && k.recordId in db'.records && db'.records[k.recordId].updatedAt == now
      && Log(db', k.recordId) == Log(db, k.recordId) + [HistoryEntry(k.status, c.message, Some(k.eventId), c.bounceType)]
  {
  }

  /** A bounce is reported exactly when the callback says "bounced" and was recorded by this call. */
  lemma TrackedExactlyWhen(db: Db, c: Callback, now: Time)
    ensures TracksBounce(db, c, now)
      <==> Normal(c.event) == "bounced" && KeyOf(db, c).Some? && !Noted(db, KeyOf(db, c).value)
  {
    CallbackNotesItsKey(db, c, now);
    EventIsStoredUnderItsName(Normal(c.event), Bounced);
  }
}
