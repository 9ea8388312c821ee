/**
 The system with and without one pending request, side by side: as long as the request waits for the answer to its
 enqueue, its record has no job, no log and no external id, so worker, timers, callbacks and the requests of others do
 the same in both.
 */
module WithoutRequest {
  import opened Base
  import opened Tables
  import opened AuthRuns
  import opened Delivery
  import opened DeliveryFacts
  import opened Pipeline
  import opened Conservation

  /** As far as e-mails are concerned, `db0` is `db` without record `r`, which has no log yet. */
  ghost predicate LacksOnly(db0: Db, db: Db, r: Id) {
    db0.records == db.records - {r} && db0.history == db.history && r !in db.history
  }

  /** `db0` with the e-mail tables of `db`, record `r` left out. */
  function WithMailsOf(db0: Db, db: Db, r: Id): Db {
    db0.(records := db.records - {r}, history := db.history)
  }

  // ----- the worker's store -----

  lemma AppendAlike(db0: Db, db: Db, r: Id, q: Id, entry: HistoryEntry, externalId: Option<string>, now: Time)
    requires LacksOnly(db0, db, r) && q in db.records && q != r
    ensures q in db0.records
    ensures Append(db0, q, entry, externalId, now) == WithMailsOf(db0, Append(db, q, entry, externalId, now), r)
    ensures r !in Append(db, q, entry, externalId, now).history
  {
    var db' := Append(db, q, entry, externalId, now);
    assert Append(db0, q, entry, externalId, now).records == db'.records - {r};
  }

  /** The Mark call does the same with and without the record. */
  ghost predicate MarksAlike(db0: Db, m0: Marked, m: Marked, r: Id) {
    m0 == Marked(WithMailsOf(db0, m.db, r), m.ok) && r !in m.db.history
  }

  lemma MarkSentAlike(db0: Db, db: Db, r: Id, q: Id, externalId: string, now: Time, fault: bool)
    requires LacksOnly(db0, db, r) && q != r
    ensures MarksAlike(db0, MarkSent(db0, q, externalId, now, fault), MarkSent(db, q, externalId, now, fault), r)
  {
    if q in db.records {
      AppendAlike(db0, db, r, q, HistoryEntry(Sent, "email sent successfully", None, ""), Some(externalId), now);
    }
  }

  lemma MarkFailedAlike(db0: Db, db: Db, r: Id, q: Id, reason: string, now: Time, fault: bool)
    requires LacksOnly(db0, db, r) && q != r
    ensures MarksAlike(db0, MarkFailed(db0, q, reason, now, fault), MarkFailed(db, q, reason, now, fault), r)
  {
    if q in db.records {
      AppendAlike(db0, db, r, q, HistoryEntry(Failed, OrElse(reason, "email delivery failed"), None, ""), None, now);
    }
  }

  lemma MarkBouncedAlike(db0: Db, db: Db, r: Id, q: Id, reason: string, kind: string, now: Time, fault: bool)
    requires LacksOnly(db0, db, r) && q != r
    ensures MarksAlike(
      db0, MarkBounced(db0, q, reason, kind, now, fault), MarkBounced(db, q, reason, kind, now, fault), r)
  {
    if q in db.records {
      AppendAlike(
        db0, db, r, q, HistoryEntry(Bounced, OrElse(reason, "email bounced"), None, OrElse(kind, "unknown")), None, now);
    }
  }

  // ----- one job -----

  ghost predicate HandlesAlike(db0: Db, h0: Handled, h: Handled, r: Id) {
    h0 == h.(db := WithMailsOf(db0, h.db, r)) && r !in h.db.history
  }

  lemma SoftBounceAlike(
    db0: Db, db: Db, r: Id, blacklist: set<string>, job: Job, q: Id, error: string, f: Faults, now: Time)
    requires LacksOnly(db0, db, r) && q != r
    ensures HandlesAlike(db0, HandleDeliveryError(db0, blacklist, job, q, SoftBounce(error), f, now),
      HandleDeliveryError(db, blacklist, job, q, SoftBounce(error), f, now), r)
  {
    var m0, m := MarkBounced(db0, q, error, "soft", now, f.firstMark), MarkBounced(db, q, error, "soft", now, f.firstMark);
    MarkBouncedAlike(db0, db, r, q, error, "soft", now, f.firstMark);
    MarkFailedAlike(m0.db, m.db, r, q, RETRIES_EXHAUSTED, now, f.secondMark);
  }

  lemma DeliveryErrorAlike(
    db0: Db, db: Db, r: Id, blacklist: set<string>, job: Job, q: Id, send: SendResult, f: Faults, now: Time)
    requires LacksOnly(db0, db, r) && q != r && !send.Accepted?
    ensures HandlesAlike(db0, HandleDeliveryError(db0, blacklist, job, q, send, f, now),
      HandleDeliveryError(db, blacklist, job, q, send, f, now), r)
  {
    match send
    case Unclassified(error) => MarkFailedAlike(db0, db, r, q, error, now, f.firstMark);
    case HardBounce(error) => MarkBouncedAlike(db0, db, r, q, error, "hard", now, f.firstMark);
    case SoftBounce(error) => SoftBounceAlike(db0, db, r, blacklist, job, q, error, f, now);
  }

  /** Handling a job of any other record goes the same way. */
  lemma HandlingAlike(
    db0: Db, db: Db, r: Id, blacklist: set<string>, job: Job, send: SendResult, f: Faults, now: Time)
    requires LacksOnly(db0, db, r) && job.recordId != Some(r)
    ensures HandlesAlike(db0, HandleJob(db0, blacklist, job, send, f, now), HandleJob(db, blacklist, job, send, f, now), r)
  {
    if job.recordId.Some? {
      var q := job.recordId.value;
      if Blank(job.to) {
        MarkFailedAlike(db0, db, r, q, EMPTY_TO, now, f.firstMark);
      } else if f.lookup || Normal(job.to) == "" {
      } else if IsBlacklisted(blacklist, job.to) {
        MarkFailedAlike(db0, db, r, q, BLACKLISTED, now, f.firstMark);
      } else if !HasBody(job) {
        MarkFailedAlike(db0, db, r, q, MissingText(job), now, f.firstMark);
      } else if send.Accepted? {
        MarkSentAlike(db0, db, r, q, send.externalId, now, f.firstMark);
      } else {
        DeliveryErrorAlike(db0, db, r, blacklist, job, q, send, f, now);
      }
    }
  }

  // ----- callbacks -----

  lemma SameRecordByExternalId(records: map<Id, EmailRecord>, r: Id, externalId: string)
    requires r in records ==> records[r].externalId != Some(externalId)
    ensures RecordByExternalId(records - {r}, externalId) == RecordByExternalId(records, externalId)
    ensures RecordByExternalId(records, externalId) != Some(r)
  {
    var rest := records - {r};
    assert forall p, q | p in rest && q in rest :: NoLaterThan(rest, p, q) == NoLaterThan(records, p, q);
    assert forall q | q in records && records[q].externalId == Some(externalId) :: q in rest;
    forall q ensures IsLatestWith(rest, externalId, q) <==> IsLatestWith(records, externalId, q) {
    }
    assert forall p, q | IsLatestWith(records, externalId, p) && IsLatestWith(records, externalId, q) :: p == q;
  }

  lemma UpsertAlike(
    db0: Db, db: Db, r: Id, externalId: string, status: Status, message: string, eventId: string, kind: string, now: Time)
    requires LacksOnly(db0, db, r) && (r in db.records ==> db.records[r].externalId.None?)
    ensures var out0, out := UpsertStatus(db0, externalId, status, message, eventId, kind, now),
        UpsertStatus(db, externalId, status, message, eventId, kind, now);
      out0.db == WithMailsOf(db0, out.db, r) && r !in out.db.history
  {
    SameRecordByExternalId(db.records, r, externalId);
    var found := RecordByExternalId(db.records, externalId);
    if found.Some? {
      var noted := if eventId == "" then None else Some(eventId);
      AppendAlike(db0, db, r, found.value, HistoryEntry(status, message, noted, kind), None, now);
    }
  }

  /** A record that was never sent has no external id, so no callback finds it. */
  lemma CallbackAlike(db0: Db, db: Db, r: Id, c: Callback, now: Time)
    requires LacksOnly(db0, db, r) && (r in db.records ==> db.records[r].externalId.None?)
    ensures HandleCallback(db0, c, now).db == WithMailsOf(db0, HandleCallback(db, c, now).db, r)
    ensures r !in HandleCallback(db, c, now).db.history
  {
    var status := AllowedEvent(Normal(c.event));
    if status.Some? {
      UpsertAlike(db0, db, r, Trim(c.externalId), status.value, c.message, Trim(c.eventId), c.bounceType, now);
    }
  }

  // ----- the whole system -----

  /** `s0` is `s` without the pending request `r` and its record. */
  ghost predicate Alike(s0: Sys, s: Sys, r: Id) {
    && s0 == s.(auth := s0.auth, requests := s.requests - {r})
    && s0.auth.clock == s.auth.clock && s0.auth.used == s.auth.used && LacksOnly(s0.auth.db, s.auth.db, r)
    && r in s.requests && r in s.auth.db.records && s.auth.db.records[r].externalId.None?
  }

  /** The system `s` with this state of the auth store, and without the request. */
  ghost function Besides(s: Sys, auth0: State, r: Id): Sys {
    s.(auth := auth0, requests := s.requests - {r})
  }

  /** An action that is not a transaction and not about the request. */
  predicate Quiet(t: TimedAction, r: Id) {
    match t.action
    case Enqueued(q) => q != r
    case HandleNext(_, _) => true
    case Fire(_, _) => true
    case Webhook(_) => true
    case _ => false
  }

  lemma RemovalsCommute(requests: map<Id, Request>, q: Id, r: Id)
    ensures (requests - {r}) - {q} == (requests - {q}) - {r}
  {
  }

  lemma AdditionsCommute(requests: map<Id, Request>, q: Id, request: Request, r: Id)
    requires q != r
    ensures (requests - {r})[q := request] == requests[q := request] - {r}
  {
  }

  lemma NotInTheQueue(s: Sys, r: Id)
    requires Conserved(s) && r in s.requests && s.queue != []
    ensures s.queue[0].recordId != Some(r)
  {
    assert UnderWay(s, r) <= 1;
  }

  lemma HandleNextAlike(s0: Sys, s: Sys, r: Id, now: Time, send: SendResult, f: Faults)
    requires Alike(s0, s, r) && Conserved(s) && Possible(s, Do(now, HandleNext(send, f)))
    ensures var t := Do(now, HandleNext(send, f));
      && Possible(s0, t) && r !in Next(s, t).auth.db.history
      && Next(s0, t)
         == Besides(Next(s, t), Tick(s0.auth, WithMailsOf(s0.auth.db, Next(s, t).auth.db, r), now), r)
  {
    NotInTheQueue(s, r);
    HandlingAlike(s0.auth.db, s.auth.db, r, s.blacklist, s.queue[0], send, f, now);
  }

  /** A quiet action does the same in both systems. */
  lemma QuietAlike(s0: Sys, s: Sys, r: Id, t: TimedAction)
    requires Alike(s0, s, r) && Conserved(s) && Possible(s, t) && Quiet(t, r)
    ensures Possible(s0, t) && r !in Next(s, t).auth.db.history && r in Next(s, t).requests
    ensures Next(s0, t)
      == Besides(Next(s, t), Tick(s0.auth, WithMailsOf(s0.auth.db, Next(s, t).auth.db, r), t.now), r)
  {
    match t.action
    case Enqueued(q) => RemovalsCommute(s.requests, q, r);
    case HandleNext(send, f) => HandleNextAlike(s0, s, r, t.now, send, f);
    case Fire(_, _) =>
    case Webhook(c) => CallbackAlike(s0.auth.db, s.auth.db, r, c, t.now);
  }

  /** So does a transaction that gives the same answer in both and asks for the same mail. */
  lemma TransactionAlike(s0: Sys, s: Sys, r: Id, now: Time, e: Event, mail: Mail)
    requires Alike(s0, s, r) && Possible(s, Do(now, Auth(e, mail))) && Admissible(s0.auth, At(now, e))
    requires NewRequest(s0.auth, At(now, e), mail) == NewRequest(s.auth, At(now, e), mail)
    requires NewRequest(s.auth, At(now, e), mail).Some? ==> NewRequest(s.auth, At(now, e), mail).value.0 != r
    ensures var t := Do(now, Auth(e, mail));
      Possible(s0, t) && Next(s0, t) == Besides(Next(s, t), Step(s0.auth, At(now, e)), r)
  {
    var request := NewRequest(s.auth, At(now, e), mail);
    if request.Some? {
      AdditionsCommute(s.requests, request.value.0, request.value.1, r);
    }
  }

  /** And a failed enqueue of another request, when its compensation leaves the record of this one. */
  lemma FailureAlike(s0: Sys, s: Sys, r: Id, now: Time, q: Id, fails: bool)
    requires Alike(s0, s, r) && Possible(s, Do(now, EnqueueFailed(q, fails))) && q != r
    requires var auth0', auth' := Compensate(s0.auth, s.requests[q], fails, now), Compensate(s.auth, s.requests[q], fails, now);
      auth0'.db.records == auth'.db.records - {r}
    ensures var t := Do(now, EnqueueFailed(q, fails));
      && Possible(s0, t)
      && Next(s0, t) == Besides(Next(s, t), Compensate(s0.auth, s.requests[q], fails, now), r)
  {
    RemovalsCommute(s.requests, q, r);
  }

  /** The mail that a new request asks for does not mention the left-out record. */
  lemma SameNewRequest(s0: State, s: State, t: Timed, mail: Mail, r: Id)
    requires Apply(s0.db, t.now, t.event).result == Apply(s.db, t.now, t.event).result
    requires Apply(s0.db, t.now, t.event).db.records == Apply(s.db, t.now, t.event).db.records - {r}
    requires t.event.Register? || t.event.Create? || t.event.Resend? ==> t.event.ids.recordId != r
    ensures NewRequest(s0, t, mail) == NewRequest(s, t, mail)
    ensures NewRequest(s, t, mail).Some? ==> NewRequest(s, t, mail).value.0 != r
  {
  }

  ghost predicate SameOwners(db: Db, db': Db) {
    && db'.records.Keys == db.records.Keys
    && forall q | q in db.records :: db'.records[q].userId == db.records[q].userId
  }

  lemma CallbackLeavesUnsent(db: Db, c: Callback, now: Time, r: Id)
    requires r in db.records && db.records[r].externalId.None?
    ensures var db' := HandleCallback(db, c, now).db;
      && r in db'.records && db'.records[r] == db.records[r]
      && db' == db.(records := db'.records, history := db'.history)
      && SameOwners(db, db')
  {
    SameRecordByExternalId(db.records, r, Trim(c.externalId));
  }

  lemma HandlingLeavesOthers(
    db: Db, blacklist: set<string>, job: Job, send: SendResult, f: Faults, now: Time, r: Id)
    requires job.recordId != Some(r) && r in db.records
    ensures var db' := HandleJob(db, blacklist, job, send, f, now).db;
      && r in db'.records && db'.records[r] == db.records[r]
      && db' == db.(records := db'.records, history := db'.history)
      && SameOwners(db, db')
  {
    HandleJobEffect(db, blacklist, job, send, f, now);
  }

  /** A quiet action moves the clock and touches e-mail tables only, and there not the record of the request. */
  lemma QuietLeavesTheRest(s0: Sys, s: Sys, r: Id, t: TimedAction)
    requires Alike(s0, s, r) && Conserved(s) && Possible(s, t) && Quiet(t, r)
    ensures var db, db' := s.auth.db, Next(s, t).auth.db;
      && Next(s, t).auth == Tick(s.auth, db', t.now)
      && db' == db.(records := db'.records, history := db'.history)
      && r in db'.records && db'.records[r] == db.records[r]
      && SameOwners(db, db')
      && r in Next(s, t).requests && Next(s, t).requests[r] == s.requests[r]
  {
    match t.action
    case HandleNext(send, f) =>
      NotInTheQueue(s, r);
      HandlingLeavesOthers(s.auth.db, s.blacklist, s.queue[0], send, f, t.now, r);
    case Webhook(c) => CallbackLeavesUnsent(s.auth.db, c, t.now, r);
    case _ =>
  }
}
