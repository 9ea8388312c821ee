/**
 The whole e-mail pipeline: the auth store, the handlers that commit first and enqueue afterwards, the queue,
 the worker, its retry timers and the status callbacks, interleaved in any order.
 A handler's request is two steps: its transaction commits, and later its enqueue succeeds or fails. When the
 enqueue fails the handler compensates: it deletes the pending registration or rolls the resend back.
 */
module Pipeline {
  import opened Base
  import opened Tables
  import opened Transactions
  import opened AuthRuns
  import opened Delivery

  /** A committed request whose enqueue has not happened yet, with what would undo it. */
  datatype Request =
    | Registering(uid: Id, job: Job)
    | Resending(ticket: Ticket, job: Job)
    | Bootstrapping(job: Job)

  /** One call of Send, and whether the mail was accepted. */
  datatype Attempt = Attempt(recordId: Id, to: string, at: Time, accepted: bool)

  /** `requests` is keyed by e-mail record. `sends` logs every call of Send. `lost` are records whose job a fault dropped. */
  datatype Sys = Sys(
    auth: State,
    requests: map<Id, Request>,
    queue: seq<Job>,
    timers: seq<Timer>,
    blacklist: set<string>,
    sends: seq<Attempt>,
    lost: set<Id>)

  /** The texts that a handler puts into the job. */
  datatype Mail = Mail(otp: string, magicLink: string, expiresIn: string)

  datatype Action =
    | Auth(event: Event, mail: Mail)
    | Enqueued(recordId: Id)
    | EnqueueFailed(recordId: Id, compensationFails: bool)
    | HandleNext(send: SendResult, faults: Faults)
    | Fire(index: nat, fault: bool)
    | Webhook(callback: Callback)

  datatype TimedAction = Do(now: Time, action: Action)

  /** The next action can happen. Rollbacks and clean-ups happen only as compensation. */
  ghost predicate Possible(s: Sys, t: TimedAction) {
    && s.auth.clock <= t.now
    && match t.action
       case Auth(e, _) => Admissible(s.auth, At(t.now, e)) && !e.Rollback? && !e.Cleanup?
       case Enqueued(r) => r in s.requests
       case EnqueueFailed(r, _) => r in s.requests
       case HandleNext(_, _) => s.queue != []
       case Fire(i, _) => i < |s.timers| && s.timers[i].due <= t.now
       case Webhook(_) => true
  }

  function JobFor(db: Db, r: Id, mail: Mail): Job {
    Job(Some(r), if r in db.records then db.records[r].toEmail else "", "", "", mail.otp, mail.magicLink, mail.expiresIn, 0)
  }

  /** The record and the request that a committed transaction leaves to be enqueued, if any. */
  ghost function NewRequest(s: State, t: Timed, mail: Mail): Option<(Id, Request)> {
    var out := Apply(s.db, t.now, t.event);
    if out.result.Err? then None
    else
      match t.event
      case Register(_, uid, _, ids) => Some((ids.recordId, Registering(uid, JobFor(out.db, ids.recordId, mail))))
      case Create(_, _, ids) => Some((ids.recordId, Bootstrapping(JobFor(out.db, ids.recordId, mail))))
      case Resend(_, _, ids) =>
        if out.result.value.Resent? then
          Some((ids.recordId, Resending(out.result.value.ticket, JobFor(out.db, ids.recordId, mail))))
        else None
      case _ => None
  }

  function Tick(s: State, db: Db, now: Time): State {
    s.(db := db, clock := now)
  }

  /** What the handler does about a failed enqueue. A bootstrap has no compensation. */
  ghost function Compensate(s: State, request: Request, fails: bool, now: Time): State {
    if fails then Tick(s, s.db, now)
    else
      match request
      case Registering(uid, _) => Step(s, At(now, Cleanup(uid)))
      case Resending(ticket, _) => Step(s, At(now, Rollback(ticket)))
      case Bootstrapping(_) => Tick(s, s.db, now)
  }

  function IdsOf(job: Job): set<Id> {
    if job.recordId.Some? then {job.recordId.value} else {}
  }

  function AttemptOf(job: Job, sent: bool, send: SendResult, now: Time): seq<Attempt> {
    if sent && job.recordId.Some? then [Attempt(job.recordId.value, job.to, now, send.Accepted?)] else []
  }

  ghost function AfterHandling(s: Sys, h: Handled, send: SendResult, now: Time): Sys
    requires s.queue != []
  {
    var job := s.queue[0];
    s.(auth := Tick(s.auth, h.db, now),
    queue := s.queue[1..],
    timers := s.timers + (if h.retry.Some? then [h.retry.value] else []),
    blacklist := h.blacklist,
    sends := s.sends + AttemptOf(job, h.sent, send, now),
    lost := s.lost + if h.settled || h.retry.Some? then {} else IdsOf(job))
  }

  ghost function Next(s: Sys, t: TimedAction): Sys
    requires Possible(s, t)
  {
    match t.action
    case Auth(e, mail) =>
      var request := NewRequest(s.auth, At(t.now, e), mail);
      s.(auth := Step(s.auth, At(t.now, e)),
      requests := if request.Some? then s.requests[request.value.0 := request.value.1] else s.requests)
    case Enqueued(r) =>
      s.(auth := Tick(s.auth, s.auth.db, t.now), requests := s.requests - {r}, queue := s.queue + [s.requests[r].job])
    case EnqueueFailed(r, fails) =>
      var auth' := Compensate(s.auth, s.requests[r], fails, t.now);
      s.(auth := auth', requests := s.requests - {r}, lost := s.lost + if r in auth'.db.records then {r} else {})
    case HandleNext(send, faults) =>
      AfterHandling(s, HandleJob(s.auth.db, s.blacklist, s.queue[0], send, faults, t.now), send, t.now)
    case Fire(i, fault) =>
      var job := s.timers[i].job;
      s.(auth := Tick(s.auth, s.auth.db, t.now),
      timers := s.timers[..i] + s.timers[i + 1..],
      queue := s.queue + (if fault then [] else [job]),
      lost := s.lost + if fault then IdsOf(job) else {})
    case Webhook(c) =>
      s.(auth := Tick(s.auth, HandleCallback(s.auth.db, c, t.now).db, t.now))
  }

  ghost predicate IsRunOf(s: Sys, run: seq<TimedAction>)
    decreases |run|
  {
    run == [] || (Possible(s, run[0]) && IsRunOf(Next(s, run[0]), run[1..]))
  }

  ghost function End(s: Sys, run: seq<TimedAction>): Sys
    requires IsRunOf(s, run)
    decreases |run|
  {
    if run == [] then s else End(Next(s, run[0]), run[1..])
  }

  lemma {:induction false} ExtendRun(s: Sys, run: seq<TimedAction>, t: TimedAction)
    requires IsRunOf(s, run) && Possible(End(s, run), t)
    ensures IsRunOf(s, run + [t]) && End(s, run + [t]) == Next(End(s, run), t)
    decreases |run|
  {
    if run == [] {
      assert (run + [t])[1..] == [];
    } else {
      assert (run + [t])[1..] == run[1..] + [t];
      ExtendRun(Next(s, run[0]), run[1..], t);
    }
  }

  function StartSys(clock: Time): Sys {
    Sys(Start(clock), map[], [], [], {}, [], {})
  }

  // ----- counting jobs -----

  function CountJobs(queue: seq<Job>, r: Id): nat {
    if queue == [] then 0 else (if queue[0].recordId == Some(r) then 1 else 0) + CountJobs(queue[1..], r)
  }

  function Jobs(timers: seq<Timer>): seq<Job> {
    seq(|timers|, i requires 0 <= i < |timers| => timers[i].job)
  }

  lemma {:induction false} CountConcat(a: seq<Job>, b: seq<Job>, r: Id)
    ensures CountJobs(a + b, r) == CountJobs(a, r) + CountJobs(b, r)
  {
    if a == [] {
      assert a + b == b;
    } else {
      assert (a + b)[1..] == a[1..] + b;
      CountConcat(a[1..], b, r);
    }
  }

  lemma CountAppend(a: seq<Job>, job: Job, r: Id)
    ensures CountJobs(a + [job], r) == CountJobs(a, r) + if job.recordId == Some(r) then 1 else 0
  {
    CountConcat(a, [job], r);
  }

  lemma CountRemove(timers: seq<Timer>, i: nat, r: Id)
    requires i < |timers|
    ensures CountJobs(Jobs(timers), r)
      == CountJobs(Jobs(timers[..i] + timers[i + 1..]), r) + if timers[i].job.recordId == Some(r) then 1 else 0
  {
    var before, after := Jobs(timers[..i]), Jobs(timers[i + 1..]);
    assert Jobs(timers) == before + ([timers[i].job] + after);
    assert Jobs(timers[..i] + timers[i + 1..]) == before + after;
    CountConcat(before, [timers[i].job] + after, r);
    CountConcat([timers[i].job], after, r);
    CountConcat(before, after, r);
  }

  lemma JobsAppend(timers: seq<Timer>, timer: Timer)
    ensures Jobs(timers + [timer]) == Jobs(timers) + [timer.job]
  {
  }

  /** A job that is there is counted. */
  lemma {:induction false} PresentJobCounts(queue: seq<Job>, i: nat, r: Id)
    requires i < |queue| && queue[i].recordId == Some(r)
    ensures CountJobs(queue, r) >= 1
  {
    if i > 0 {
      PresentJobCounts(queue[1..], i - 1, r);
    }
  }
}
