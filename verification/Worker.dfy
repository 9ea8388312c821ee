/**
 The e-mail worker as the code runs it: its store, the consumer with its retry timers, and the webhook server.
 The consumer carries the state of the whole pipeline as a ghost; every method is one of the pipeline's actions.
 */
module Worker {
  import opened Base
  import opened Tables
  import opened AuthStore
  import opened Delivery
  import opened Pipeline
  import opened Queue

  const QUEUE_NAME := "email:send"

  class EmailStore {
    const pool: Pool
    var blacklist: set<string>

    constructor (pool: Pool)
      ensures this.pool == pool && blacklist == {}
    {
      this.pool := pool;
      blacklist := {};
    }

    /** Update the record and, if there was one, append to its history, in one transaction. */
    method WriteStatus(r: Id, entry: HistoryEntry, externalId: Option<string>, now: Time, fault: bool)
      returns (ok: bool)
      modifies pool
      ensures ok == (!fault && r in old(pool.tables).records)
      ensures pool.tables == if ok then Append(old(pool.tables), r, entry, externalId, now) else old(pool.tables)
    {
      var tx := pool.tables;
      if r !in tx.records {
        return false;
      }
      var record := tx.records[r].(status := entry.status, updatedAt := now);
      if externalId.Some? {
        record := record.(externalId := externalId);
      }
      tx := tx.(records := tx.records[r := record]);
      var log := if r in tx.history then tx.history[r] else [];
      tx := tx.(history := tx.history[r := log + [entry]]);
      if fault {
        return false;
      }
      pool.tables := tx;
      return true;
    }

    method MarkSent(r: Id, externalId: string, now: Time, fault: bool) returns (ok: bool)
      modifies pool
      ensures Marked(pool.tables, ok) == Delivery.MarkSent(old(pool.tables), r, externalId, now, fault)
    {
      if Blank(externalId) {
        return false;
      }
      ok := WriteStatus(r, HistoryEntry(Sent, "email sent successfully", None, ""), Some(externalId), now, fault);
    }

    method MarkFailed(r: Id, reason: string, now: Time, fault: bool) returns (ok: bool)
      modifies pool
      ensures Marked(pool.tables, ok) == Delivery.MarkFailed(old(pool.tables), r, reason, now, fault)
    {
      var message := reason;
      if Blank(message) {
        message := "email delivery failed";
      }
      ok := WriteStatus(r, HistoryEntry(Failed, message, None, ""), None, now, fault);
    }

    method MarkBounced(r: Id, reason: string, bounceType: string, now: Time, fault: bool) returns (ok: bool)
      modifies pool
      ensures Marked(pool.tables, ok) == Delivery.MarkBounced(old(pool.tables), r, reason, bounceType, now, fault)
    {
      var message, kind := reason, bounceType;
      if Blank(message) {
        message := "email bounced";
      }
      if Blank(kind) {
        kind := "unknown";
      }
      ok := WriteStatus(r, HistoryEntry(Bounced, message, None, kind), None, now, fault);
    }

    method Blacklist(address: string, fault: bool) returns (ok: bool)
      modifies this`blacklist
      ensures blacklist == Delivery.Blacklist(old(blacklist), address, fault)
      ensures ok == (!fault && Normal(address) != "")
    {
      var email := Trim(Lower(address));
      if email == "" || fault {
        return false;
      }
      blacklist := blacklist + {email};
      return true;
    }

    /** None when the lookup fails or the address is blank. */
    method IsBlacklisted(address: string, fault: bool) returns (answer: Option<bool>)
      ensures answer == if fault || Normal(address) == "" then None else Some(Delivery.IsBlacklisted(blacklist, address))
    {
      var email := Trim(Lower(address));
      if email == "" || fault {
        return None;
      }
      return Some(exists e | e in blacklist :: Lower(e) == Lower(email));
    }
  }

  // ----- the consumer -----

  /** One turn of the loop: when it happens, how Send would answer, and what fails. */
  datatype Turn = Turn(now: Time, send: SendResult, faults: Faults, redisFails: bool)

  ghost predicate InOrder(clock: Time, turns: seq<Turn>) {
    && (forall i | 0 <= i < |turns| :: clock <= turns[i].now)
    && (forall i, j | 0 <= i < j < |turns| :: turns[i].now <= turns[j].now)
  }

  class Consumer {
    const store: EmailStore
    const queue: RedisQueue<Job>
    var timers: seq<Timer>
    ghost var sys: Sys

    constructor (store: EmailStore, queue: RedisQueue<Job>, ghost sys: Sys)
      requires sys.auth.db == store.pool.tables && sys.queue == Decodable(queue.Items(QUEUE_NAME))
      requires sys.timers == [] && sys.blacklist == store.blacklist
      ensures Valid() && this.sys == sys && this.store == store && this.queue == queue
    {
      this.store, this.queue, this.timers, this.sys := store, queue, [], sys;
    }

    /** The objects hold what the pipeline's state says. */
    ghost predicate Valid()
      reads this, store, store.pool, queue
    {
      && sys.auth.db == store.pool.tables
      && sys.queue == Decodable(queue.Items(QUEUE_NAME))
      && sys.timers == timers
      && sys.blacklist == store.blacklist
    }

    /** The checks of renderVerificationEmailBody, in its order. */
    method RenderError(job: Job) returns (missing: Option<string>)
      ensures missing.None? <==> !Blank(job.otp) && !Blank(job.magicLink) && !Blank(job.expiresIn)
      ensures missing.Some? ==> missing.value == MissingText(job)
    {
      if Blank(job.otp) {
        return Some(NO_OTP);
      }
      if Blank(job.magicLink) {
        return Some(NO_MAGIC_LINK);
      }
      if Blank(job.expiresIn) {
        return Some(NO_EXPIRY);
      }
      return None;
    }

    /** AfterFunc */
    method Schedule(timer: Timer)
      modifies this`timers
      ensures timers == old(timers) + [timer]
    {
      timers := timers + [timer];
    }

    method HandleJob(job: Job, send: SendResult, f: Faults, now: Time) returns (ghost h: Handled)
      modifies this`timers, store, store.pool
      ensures h == Delivery.HandleJob(old(store.pool.tables), old(store.blacklist), job, send, f, now)
      ensures store.pool.tables == h.db && store.blacklist == h.blacklist
      ensures timers == old(timers) + if h.retry.Some? then [h.retry.value] else []
    {
      h := Delivery.HandleJob(store.pool.tables, store.blacklist, job, send, f, now);
      if job.recordId.None? {
        return;
      }
      var r := job.recordId.value;
      if Blank(job.to) {
        var _ := store.MarkFailed(r, EMPTY_TO, now, f.firstMark);
        return;
      }
      var listed := store.IsBlacklisted(job.to, f.lookup);
      if listed.None? {
        return;
      }
      if listed.value {
        var _ := store.MarkFailed(r, BLACKLISTED, now, f.firstMark);
        return;
      }
      if Blank(job.htmlBody) && Blank(job.textBody) {
        var missing := RenderError(job);
        if missing.Some? {
          var _ := store.MarkFailed(r, missing.value, now, f.firstMark);
          return;
        }
      }
      if send.Accepted? {
        var _ := store.MarkSent(r, send.externalId, now, f.firstMark);
        return;
      }
      HandleDeliveryError(job, r, send, f, now, h);
    }

    method HandleDeliveryError(job: Job, r: Id, send: SendResult, f: Faults, now: Time, ghost h: Handled)
      requires !send.Accepted?
      requires h == Delivery.HandleDeliveryError(store.pool.tables, store.blacklist, job, r, send, f, now)
      modifies this`timers, store, store.pool
      ensures store.pool.tables == h.db && store.blacklist == h.blacklist
      ensures timers == old(timers) + if h.retry.Some? then [h.retry.value] else []
    {
      match send
      case Unclassified(error) =>
        var _ := store.MarkFailed(r, error, now, f.firstMark);
      case HardBounce(error) =>
        var ok := store.MarkBounced(r, error, "hard", now, f.firstMark);
        if !ok {
          return;
        }
        var _ := store.Blacklist(job.to, f.blacklist);
      case SoftBounce(error) =>
        var ok := store.MarkBounced(r, error, "soft", now, f.firstMark);
        if !ok {
          return;
        }
        if job.retryCount >= |RETRY_DELAYS| {
          var _ := store.MarkFailed(r, RETRIES_EXHAUSTED, now, f.secondMark);
          return;
        }
        var delay := RETRY_DELAYS[job.retryCount];
        var retryJob := job.(retryCount := job.retryCount + 1);
        Schedule(Timer(now + delay, retryJob));
    }

    /** Dequeue once and handle what came: one HandleNext of the pipeline, or nothing. */
    method TakeTurn(turn: Turn) returns (ok: bool, ghost handled: bool)
      requires Valid() && sys.auth.clock <= turn.now
      modifies this, store, store.pool, queue
      ensures Valid() && ok == !turn.redisFails
      ensures queue.Items(QUEUE_NAME)
        == if ok && old(queue.Items(QUEUE_NAME)) != [] then old(queue.Items(QUEUE_NAME))[1..]
           else old(queue.Items(QUEUE_NAME))
      ensures handled <==> ok && old(queue.Items(QUEUE_NAME)) != [] && old(queue.Items(QUEUE_NAME))[0].Json?
      ensures handled ==> Possible(old(sys), Do(turn.now, HandleNext(turn.send, turn.faults)))
      ensures handled ==> sys == Next(old(sys), Do(turn.now, HandleNext(turn.send, turn.faults)))
      ensures !handled ==> sys == old(sys)
    {
      handled := false;
      QueueNameIsNotBlank();
      var result := queue.DequeueInto(QUEUE_NAME, turn.redisFails);
      match result
      case Err(e) =>
        return e == DecodeError, false;
      case Ok(None) =>
        return true, false;
      case Ok(Some(job)) =>
        ghost var h := HandleJob(job, turn.send, turn.faults, turn.now);
        assert sys.queue[0] == job;
        sys := Next(sys, Do(turn.now, HandleNext(turn.send, turn.faults)));
        return true, true;
    }

    /**
     The endless loop, up to the turn in which Redis fails or the context is cancelled. What it did to the pipeline
     is a run of it, and it served the queue in order, one element a turn.
     */
    method Run(turns: seq<Turn>) returns (served: nat, ghost run: seq<TimedAction>)
      requires Valid() && InOrder(sys.auth.clock, turns)
      modifies this, store, store.pool, queue
      ensures Valid() && IsRunOf(old(sys), run) && sys == End(old(sys), run)
      ensures forall i | 0 <= i < |run| :: run[i].action.HandleNext?
      ensures served <= |turns| && (forall i | 0 <= i < served :: !turns[i].redisFails)
      ensures served < |turns| ==> turns[served].redisFails
      ensures var items := old(queue.Items(QUEUE_NAME));
        queue.Items(QUEUE_NAME) == if served <= |items| then items[served..] else []
    {
      served, run := 0, [];
      ghost var items := queue.Items(QUEUE_NAME);
      while served < |turns|
        invariant served <= |turns| && (forall i | 0 <= i < served :: !turns[i].redisFails)
        invariant Valid() && IsRunOf(old(sys), run) && sys == End(old(sys), run)
        invariant served < |turns| ==> sys.auth.clock <= turns[served].now
        invariant forall i | 0 <= i < |run| :: run[i].action.HandleNext?
        invariant queue.Items(QUEUE_NAME) == if served <= |items| then items[served..] else []
        decreases |turns| - served
      {
        var turn := turns[served];
        var ok;
        ghost var handled;
        ok, handled := TakeTurn(turn);
        if handled {
          ExtendRun(old(sys), run, Do(turn.now, HandleNext(turn.send, turn.faults)));
          run := run + [Do(turn.now, HandleNext(turn.send, turn.faults))];
        }
        if !ok {
          return;
        }
        served := served + 1;
      }
    }

    /** A due timer fires: its job goes to the back of the queue unless Redis fails. */
    method FireTimer(i: nat, fault: bool, now: Time)
      requires Valid() && sys.auth.clock <= now && i < |timers| && timers[i].due <= now
      modifies this, queue
      ensures Valid() && sys == Next(old(sys), Do(now, Fire(i, fault)))
    {
      QueueNameIsNotBlank();
      var job := timers[i].job;
      ghost var items := queue.Items(QUEUE_NAME);
      timers := timers[..i] + timers[i + 1..];
      var err := queue.Enqueue(QUEUE_NAME, job, fault);
      if err.None? {
        DecodableConcat(items, [Json(job)]);
        assert Decodable([Json(job)]) == [job];
      } else {
        assert items + [] == items;
      }
      sys := Next(sys, Do(now, Fire(i, fault)));
    }
  }

  lemma QueueNameIsNotBlank()
    ensures !Blank(QUEUE_NAME)
  {
    assert QUEUE_NAME[0] == 'e';
  }

  // ----- the webhook server -----

  class WebhookServer {
    const pool: Pool

    constructor (pool: Pool)
      ensures this.pool == pool
    {
      this.pool := pool;
    }

    /**
     Normalise the payload, refuse what is not allowed, record the status, and report a newly recorded bounce. A store
     that fails is answered with a server error, and the provider will call again.
     */
    method HandleEmailStatus(c: Callback, now: Time, storeFails: bool) returns (reply: Reply, tracked: bool)
      modifies pool
      ensures HandleCallback(old(pool.tables), c, now).reply == Invalid || !storeFails ==>
        && CallbackOutcome(pool.tables, reply) == HandleCallback(old(pool.tables), c, now)
        && tracked == TracksBounce(old(pool.tables), c, now)
      ensures HandleCallback(old(pool.tables), c, now).reply != Invalid && storeFails ==>
        pool.tables == old(pool.tables) && reply == ServerError && !tracked
    {
      var event := Trim(Lower(c.event));
      var externalId := Trim(c.externalId);
      var eventId := Trim(c.eventId);
      var status := AllowedEvent(event);
      if externalId == "" || eventId == "" || status.None? {
        return Invalid, false;
      }
      TrimIdempotent(c.externalId);
      TrimIdempotent(c.eventId);
      reply := UpsertWebhookStatus(externalId, status.value, c.message, eventId, c.bounceType, now, storeFails);
      tracked := reply == Recorded(true) && status.value == Bounced;
    }

    /** Refuses a blank external id; without an event id every call inserts; a failing statement changes nothing. */
    method UpsertWebhookStatus(
      externalId: string, status: Status, message: string, eventId: string, bounceType: string, now: Time, fails: bool)
      returns (reply: Reply)
      modifies pool
      ensures CallbackOutcome(pool.tables, reply)
        == if Blank(externalId) || fails then CallbackOutcome(old(pool.tables), ServerError)
           else UpsertStatus(old(pool.tables), Trim(externalId), status, message, Trim(eventId), bounceType, now)
    {
      var external, event := Trim(externalId), Trim(eventId);
      if external == "" {
        return ServerError;
      }
      var tx := pool.tables;
      var found := FindLatest(tx.records, external);
      if fails {
        return ServerError;
      }
      if found.None? {
        return NotFound;
      }
      var r := found.value;
      var log := if r in tx.history then tx.history[r] else [];
      var noted := None;
      if event != "" {
        if HasEvent(log, status, event) {
          return Recorded(false);
        }
        noted := Some(event);
      }
      tx := tx.(records := tx.records[r := tx.records[r].(status := status, updatedAt := now)]);
      tx := tx.(history := tx.history[r := log + [HistoryEntry(status, message, noted, bounceType)]]);
      pool.tables := tx;
      return Recorded(true);
    }

    /** order by updated_at desc, created_at desc, id desc limit 1 */
    method FindLatest(records: map<Id, EmailRecord>, externalId: string) returns (found: Option<Id>)
      ensures found == RecordByExternalId(records, externalId)
    {
      var candidates: set<Id> := set r | r in records && records[r].externalId == Some(externalId);
      if candidates == {} {
        assert forall q :: q in records && records[q].externalId == Some(externalId) ==> q in candidates;
        return None;
      }
      ghost var latest := LastOfSome(
        candidates, (a: Id, b: Id) => a in records && b in records && NoLaterThan(records, a, b));
      var r :| r in candidates && forall q | q in candidates :: NoLaterThan(records, q, r);
      LatestIsTheOne(records, externalId, r);
      return Some(r);
    }
  }

  lemma LatestIsTheOne(records: map<Id, EmailRecord>, externalId: string, r: Id)
    requires IsLatestWith(records, externalId, r)
    ensures RecordByExternalId(records, externalId) == Some(r)
  {
    assert forall q | IsLatestWith(records, externalId, q) :: q == r;
  }
}
