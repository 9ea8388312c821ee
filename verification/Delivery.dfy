/**
 The e-mail worker: its store, the handling of one queued job, and the status callbacks.
 Sending is an oracle: each attempt is delivered, bounces softly or hard, or fails without a class.
 Every call to the store may fail; a failed call changes nothing.
 */
module Delivery {
  import opened Base
  import opened Tables

  /** Seconds before the first, second and third retry of a soft bounce. */
  const RETRY_DELAYS: seq<nat> := [3600, 4 * 3600, 24 * 3600]

  /** `recordId` is None when the queued payload carries a blank id. */
  datatype Job = Job(
    recordId: Option<Id>,
    to: string,
    htmlBody: string,
    textBody: string,
    otp: string,
    magicLink: string,
    expiresIn: string,
    retryCount: nat)

  datatype Timer = Timer(due: Time, job: Job)

  datatype SendResult =
    | Accepted(externalId: string)
    | SoftBounce(error: string)
    | HardBounce(error: string)
    | Unclassified(error: string)

  /** Which of the calls made while handling one job fail. */
  datatype Faults = Faults(lookup: bool, firstMark: bool, secondMark: bool, blacklist: bool)

  const NO_FAULTS := Faults(false, false, false, false)

  const EMPTY_TO := "invalid_email_job: empty_to_email"
  const BLACKLISTED := "email_blacklisted"
  const NO_OTP := "invalid_email_job: empty_otp"
  const NO_MAGIC_LINK := "invalid_email_job: empty_magic_link"
  const NO_EXPIRY := "invalid_email_job: empty_expires_in"
  const RETRIES_EXHAUSTED := "soft_bounce_retry_exhausted"

  // ----- the worker's store -----

  /** One transaction: set the status column and append the same status to the history. */
  function Append(db: Db, r: Id, entry: HistoryEntry, externalId: Option<string>, now: Time): Db
    requires r in db.records
  {
    var record := db.records[r].(status := entry.status, updatedAt := now);
    var record' := if externalId.Some? then record.(externalId := externalId) else record;
    db.(records := db.records[r := record'], history := db.history[r := Log(db, r) + [entry]])
  }

  function OrElse(text: string, default: string): string {
    if Blank(text) then default else text
  }

  /** What a Mark call leaves behind, and whether it succeeded. */
  datatype Marked = Marked(db: Db, ok: bool)

  function MarkSent(db: Db, r: Id, externalId: string, now: Time, fault: bool): Marked {
    if fault || Blank(externalId) || r !in db.records then Marked(db, false)
    else Marked(Append(db, r, HistoryEntry(Sent, "email sent successfully", None, ""), Some(externalId), now), true)
  }

  function MarkFailed(db: Db, r: Id, reason: string, now: Time, fault: bool): Marked {
    if fault || r !in db.records then Marked(db, false)
    else Marked(Append(db, r, HistoryEntry(Failed, OrElse(reason, "email delivery failed"), None, ""), None, now), true)
  }

  function MarkBounced(db: Db, r: Id, reason: string, bounceType: string, now: Time, fault: bool): Marked {
    if fault || r !in db.records then Marked(db, false)
    else
      var entry := HistoryEntry(Bounced, OrElse(reason, "email bounced"), None, OrElse(bounceType, "unknown"));
      Marked(Append(db, r, entry, None, now), true)
  }

  /** select exists(... where lower(email) = lower($1)) */
  ghost predicate IsBlacklisted(blacklist: set<string>, address: string) {
    exists e :: e in blacklist && Lower(e) == Lower(Normal(address))
  }

  function Blacklist(blacklist: set<string>, address: string, fault: bool): set<string> {
    if fault || Normal(address) == "" then blacklist else blacklist + {Normal(address)}
  }

  // ----- one job -----

  /** renderVerificationEmailBody succeeds, or a body was supplied. */
  predicate HasBody(job: Job) {
    || !Blank(job.htmlBody) || !Blank(job.textBody)
    || (!Blank(job.otp) && !Blank(job.magicLink) && !Blank(job.expiresIn))
  }

  /** Which text is missing: the first that rendering asks for. */
  function MissingText(job: Job): string {
    if Blank(job.otp) then NO_OTP else if Blank(job.magicLink) then NO_MAGIC_LINK else NO_EXPIRY
  }

  /** `settled`: a terminal status was recorded. `retry`: the timer that was set. `sent`: Send was called. */
  datatype Handled = Handled(db: Db, blacklist: set<string>, sent: bool, retry: Option<Timer>, settled: bool)

  ghost function HandleJob(db: Db, blacklist: set<string>, job: Job, send: SendResult, f: Faults, now: Time): Handled {
    match job.recordId
    case None => Handled(db, blacklist, false, None, false)
    case Some(r) =>
      if Blank(job.to) then
        var m := MarkFailed(db, r, EMPTY_TO, now, f.firstMark);
        Handled(m.db, blacklist, false, None, m.ok)
      else if f.lookup || Normal(job.to) == "" then
        Handled(db, blacklist, false, None, false)
      else if IsBlacklisted(blacklist, job.to) then
        var m := MarkFailed(db, r, BLACKLISTED, now, f.firstMark);
        Handled(m.db, blacklist, false, None, m.ok)
      else if !HasBody(job) then
        var m := MarkFailed(db, r, MissingText(job), now, f.firstMark);
        Handled(m.db, blacklist, false, None, m.ok)
      else
        match send
        case Accepted(externalId) =>
          var m := MarkSent(db, r, externalId, now, f.firstMark);
          Handled(m.db, blacklist, true, None, m.ok)
        case _ => HandleDeliveryError(db, blacklist, job, r, send, f, now)
  }

  function HandleDeliveryError(
    db: Db, blacklist: set<string>, job: Job, r: Id, send: SendResult, f: Faults, now: Time): Handled
    requires !send.Accepted?
  {
    match send
    case Unclassified(error) =>
      var m := MarkFailed(db, r, error, now, f.firstMark);
      Handled(m.db, blacklist, true, None, m.ok)
    case HardBounce(error) =>
      var m := MarkBounced(db, r, error, "hard", now, f.firstMark);
      Handled(m.db, if m.ok then Blacklist(blacklist, job.to, f.blacklist) else blacklist, true, None, m.ok)
    case SoftBounce(error) =>
      var m := MarkBounced(db, r, error, "soft", now, f.firstMark);
      if !m.ok then
        Handled(m.db, blacklist, true, None, false)
      else if job.retryCount >= |RETRY_DELAYS| then
        var m' := MarkFailed(m.db, r, RETRIES_EXHAUSTED, now, f.secondMark);
        Handled(m'.db, blacklist, true, None, m'.ok)
      else
        var retry := job.(retryCount := job.retryCount + 1);
        Handled(m.db, blacklist, true, Some(Timer(now + RETRY_DELAYS[job.retryCount], retry)), false)
  }

  // ----- status callbacks -----

  datatype Callback = Callback(externalId: string, event: string, eventId: string, message: string, bounceType: string)

  /** allowedEvent */
  function AllowedEvent(event: string): Option<Status> {
    if event == "delivered" then Some(Delivered)
    else if event == "opened" then Some(Opened)
    else if event == "clicked" then Some(Clicked)
    else if event == "bounced" then Some(Bounced)
    else None
  }

  /** order by updated_at, created_at, id */
  predicate NoLaterThan(records: map<Id, EmailRecord>, a: Id, b: Id)
    requires a in records && b in records
  {
    || records[a].updatedAt < records[b].updatedAt
    || (records[a].updatedAt == records[b].updatedAt && records[a].createdAt < records[b].createdAt)
    || (records[a].updatedAt == records[b].updatedAt && records[a].createdAt == records[b].createdAt && a <= b)
  }

  ghost predicate IsLatestWith(records: map<Id, EmailRecord>, externalId: string, r: Id) {
    && r in records && records[r].externalId == Some(externalId)
    && forall q | q in records && records[q].externalId == Some(externalId) :: NoLaterThan(records, q, r)
  }

  ghost function RecordByExternalId(records: map<Id, EmailRecord>, externalId: string): Option<Id> {
    if r :| IsLatestWith(records, externalId, r) then Some(r) else None
  }

  predicate HasEvent(log: seq<HistoryEntry>, status: Status, eventId: string) {
    exists i | 0 <= i < |log| :: log[i].status == status && log[i].eventId == Some(eventId)
  }

  datatype Reply = Recorded(inserted: bool) | NotFound | Invalid | ServerError

  datatype CallbackOutcome = CallbackOutcome(db: Db, reply: Reply)

  /** UpsertWebhookStatusByExternalID. Without an event id there is nothing to recognise a repetition by. */
  ghost function UpsertStatus(
    db: Db, externalId: string, status: Status, message: string, eventId: string, bounceType: string, now: Time)
    : CallbackOutcome
  {
    match RecordByExternalId(db.records, externalId)
    case None => CallbackOutcome(db, NotFound)
    case Some(r) =>
      if eventId != "" && HasEvent(Log(db, r), status, eventId) then CallbackOutcome(db, Recorded(false))
      else
        var noted := if eventId == "" then None else Some(eventId);
        CallbackOutcome(Append(db, r, HistoryEntry(status, message, noted, bounceType), None, now), Recorded(true))
  }

  /** handleEmailStatus after the signature check and the decoding of the body. */
  ghost function HandleCallback(db: Db, c: Callback, now: Time): CallbackOutcome {
    var status := AllowedEvent(Normal(c.event));
    if Blank(c.externalId) || Blank(c.eventId) || status.None? then CallbackOutcome(db, Invalid)
    else UpsertStatus(db, Trim(c.externalId), status.value, c.message, Trim(c.eventId), c.bounceType, now)
  }

  /** The bounce is reported to analytics exactly when the callback inserted a bounced status. */
  ghost predicate TracksBounce(db: Db, c: Callback, now: Time) {
    HandleCallback(db, c, now).reply == Recorded(true) && AllowedEvent(Normal(c.event)) == Some(Bounced)
  }
}
