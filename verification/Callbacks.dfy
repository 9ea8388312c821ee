/**
 Status callbacks arrive at least once and take effect exactly once: dropping every repetition from a run of the
 whole pipeline leads to the same tables, queue, timers, blacklist and attempts.
 */
module Callbacks {
  import opened Base
  import opened Tables
  import opened AuthRuns
  import opened AuthInvariants
  import opened Delivery
  import opened DeliveryFacts
  import opened Pipeline
  import opened Conservation

  datatype Key = Key(recordId: Id, status: Status, eventId: string)

  /** The record, status and event id that a well-formed callback is about, when its record is known. */
  ghost function KeyOf(db: Db, c: Callback): Option<Key> {
    var status := AllowedEvent(Normal(c.event));
    if Blank(c.externalId) || Blank(c.eventId) || status.None? then None
    else
      match RecordByExternalId(db.records, Trim(c.externalId))
      case None => None
      case Some(r) => Some(Key(r, status.value, Trim(c.eventId)))
  }

  ghost predicate Noted(db: Db, k: Key) {
    HasEvent(Log(db, k.recordId), k.status, k.eventId)
  }

  /**
   A callback changes the tables exactly when its key is known and not yet noted; then it is noted, and the status
   column holds the event under its own name.
   */
  lemma CallbackNotesItsKey(db: Db, c: Callback, now: Time)
    ensures var out, k := HandleCallback(db, c, now), KeyOf(db, c);
      && (out.reply == Recorded(true) <==> k.Some? && !Noted(db, k.value))
      && (out.reply != Recorded(true) ==> out.db == db)
      && (k.Some? ==> Noted(out.db, k.value))
      && (k.Some? && !Noted(db, k.value) ==>
            && k.value.recordId in out.db.records
            && StatusText(out.db.records[k.value.recordId].status) == Normal(c.event))
  {
    var k := KeyOf(db, c);
    if k.Some? {
      EventIsStoredUnderItsName(Normal(c.event), k.value.status);
    }
    if k.Some? && !Noted(db, k.value) {
      var entry := HistoryEntry(k.value.status, c.message, Some(k.value.eventId), c.bounceType);
      AppendTouchesOnly(db, k.value.recordId, entry, None, now);
      var log' := Log(HandleCallback(db, c, now).db, k.value.recordId);
      assert log'[|log'| - 1] == entry;
    }
  }

  /** The text of the status column and of the history. */
  function StatusText(status: Status): string {
    match status
    case Queued => "queued"
    case Sent => "sent"
    case Delivered => "delivered"
    case Opened => "opened"
    case Clicked => "clicked"
    case Bounced => "bounced"
    case Failed => "failed"
  }

  /** An event is stored under its own name, and only the four that a provider may report are. */
  lemma EventIsStoredUnderItsName(event: string, status: Status)
    ensures AllowedEvent(event) == Some(status)
      <==> event == StatusText(status) && (status.Delivered? || status.Opened? || status.Clicked? || status.Bounced?)
  {
    assert "delivered"[0] == 'd' && "opened"[0] == 'o' && "clicked"[0] == 'c' && "bounced"[0] == 'b';
  }

  // ----- logs only grow -----

  /** What was noted stays noted for as long as the record exists. */
  ghost predicate LogsGrow(s: State, s': State) {
    && s.used <= s'.used
    && forall r | r in s'.db.records && r in s.used :: Log(s.db, r) <= Log(s'.db, r)
  }

  lemma AuthGrowsLogs(s: Sys, now: Time, e: Event, mail: Mail)
    requires Inv(s.auth) && Possible(s, Do(now, Auth(e, mail)))
    ensures LogsGrow(s.auth, Next(s, Do(now, Auth(e, mail))).auth)
  {
    NewRequestFits(s, now, e, mail);
  }

  lemma ActionGrowsLogs(s: Sys, t: TimedAction)
    requires Inv(s.auth) && Possible(s, t)
    ensures LogsGrow(s.auth, Next(s, t).auth)
  {
    match t.action
    case Auth(e, mail) => AuthGrowsLogs(s, t.now, e, mail);
    case EnqueueFailed(r, fails) => CompensationRemovesRecords(s.auth, s.requests[r], fails, t.now);
    case HandleNext(send, f) => HandlingGrowsLogs(s, t.now, send, f);
    case Webhook(c) => HandleCallbackEffect(s.auth.db, c, t.now);
    case _ =>
  }

  lemma HandlingGrowsLogs(s: Sys, now: Time, send: SendResult, f: Faults)
    requires Possible(s, Do(now, HandleNext(send, f)))
    ensures LogsGrow(s.auth, Next(s, Do(now, HandleNext(send, f))).auth)
  {
    HandleJobEffect(s.auth.db, s.blacklist, s.queue[0], send, f, now);
  }

  lemma NotedStaysNoted(s: State, s': State, k: Key)
    requires LogsGrow(s, s') && k.recordId in s.used && Noted(s.db, k) && k.recordId in s'.db.records
    ensures Noted(s'.db, k)
  {
    var log, log' := Log(s.db, k.recordId), Log(s'.db, k.recordId);
    var i :| 0 <= i < |log| && log[i].status == k.status && log[i].eventId == Some(k.eventId);
    assert log'[i] == log[i];
  }

  // ----- dropping repetitions -----

  ghost predicate Repeats(s: Sys, t: TimedAction, seen: set<Key>) {
    && t.action.Webhook?
    && KeyOf(s.auth.db, t.action.callback).Some?
    && KeyOf(s.auth.db, t.action.callback).value in seen
  }

  ghost function SeenAfter(s: Sys, t: TimedAction, seen: set<Key>): set<Key> {
    if t.action.Webhook? && KeyOf(s.auth.db, t.action.callback).Some? then
      seen + {KeyOf(s.auth.db, t.action.callback).value}
    else seen
  }

  /** The run without the callbacks whose record, status and event id were already seen. */
  ghost function FirstOnly(s: Sys, run: seq<TimedAction>, seen: set<Key>): seq<TimedAction>
    requires IsRunOf(s, run)
    decreases |run|
  {
    if run == [] then []
    else
      var rest := FirstOnly(Next(s, run[0]), run[1..], SeenAfter(s, run[0], seen));
      if Repeats(s, run[0], seen) then rest else [run[0]] + rest
  }

  /** Every key seen is noted in the log of its record, unless the record has been deleted. */
  ghost predicate SeenIsNoted(s: Sys, seen: set<Key>) {
    forall k | k in seen :: k.recordId in s.auth.used && (k.recordId in s.auth.db.records ==> Noted(s.auth.db, k))
  }

  lemma ActionKeepsSeen(s: Sys, t: TimedAction, seen: set<Key>)
    requires SysInv(s) && Possible(s, t) && SeenIsNoted(s, seen)
    ensures SeenIsNoted(Next(s, t), SeenAfter(s, t, seen))
  {
    var s' := Next(s, t);
    ActionGrowsLogs(s, t);
    RecordsComeFromUsed(s, t);
    forall k | k in SeenAfter(s, t, seen)
      ensures k.recordId in s'.auth.used && (k.recordId in s'.auth.db.records ==> Noted(s'.auth.db, k))
    {
      if k in seen {
        if k.recordId in s'.auth.db.records {
          NotedStaysNoted(s.auth, s'.auth, k);
        }
      } else {
        CallbackNotesItsKey(s.auth.db, t.action.callback, t.now);
      }
    }
  }

  /** A record that exists after an action and whose id was drawn before existed before. */
  lemma RecordsComeFromUsed(s: Sys, t: TimedAction)
    requires Inv(s.auth) && Possible(s, t)
    ensures forall r | r in Next(s, t).auth.db.records && r in s.auth.used :: r in s.auth.db.records
  {
    match t.action
    case Auth(e, mail) => NewRequestFits(s, t.now, e, mail);
    case EnqueueFailed(r, fails) => CompensationRemovesRecords(s.auth, s.requests[r], fails, t.now);
    case HandleNext(send, f) => HandleJobEffect(s.auth.db, s.blacklist, s.queue[0], send, f, t.now);
    case Webhook(c) => HandleCallbackEffect(s.auth.db, c, t.now);
    case _ =>
  }

  /** The two states differ at most in the clock, which the first has moved further. */
  ghost predicate SameButClock(s: Sys, s': Sys) {
    s'.auth.clock <= s.auth.clock && s == s'.(auth := s'.auth.(clock := s.auth.clock))
  }

  lemma RepetitionChangesNothing(s: Sys, t: TimedAction, seen: set<Key>)
    requires Inv(s.auth) && Possible(s, t) && SeenIsNoted(s, seen) && Repeats(s, t, seen)
    ensures Next(s, t) == s.(auth := s.auth.(clock := t.now))
  {
    CallbackNotesItsKey(s.auth.db, t.action.callback, t.now);
  }

  lemma ActionIgnoresClock(s: Sys, s': Sys, t: TimedAction)
    requires SameButClock(s, s') && Possible(s, t)
    ensures Possible(s', t) && Next(s', t) == Next(s, t)
  {
  }

  /** Keeping only the first callback of each key gives a run that ends in the same state. */
  lemma {:induction false} RepetitionsDoNotMatter(s: Sys, s': Sys, run: seq<TimedAction>, seen: set<Key>)
    requires SysInv(s) && IsRunOf(s, run) && SeenIsNoted(s, seen) && SameButClock(s, s')
    ensures IsRunOf(s', FirstOnly(s, run, seen))
    ensures SameButClock(End(s, run), End(s', FirstOnly(s, run, seen)))
    decreases |run|
  {
    if run != [] {
      var t := run[0];
      ActionKeepsSysInv(s, t);
      ActionKeepsSeen(s, t, seen);
      var rest := FirstOnly(Next(s, t), run[1..], SeenAfter(s, t, seen));
      if Repeats(s, t, seen) {
        RepetitionChangesNothing(s, t, seen);
        RepetitionsDoNotMatter(Next(s, t), s', run[1..], SeenAfter(s, t, seen));
      } else {
        ActionIgnoresClock(s, s', t);
        RepetitionsDoNotMatter(Next(s, t), Next(s', t), run[1..], SeenAfter(s, t, seen));
        assert ([t] + rest)[1..] == rest;
      }
    }
  }

  /** From the empty system: same tables, statuses and history, with and without the repetitions. */
  lemma CallbacksTakeEffectOnce(clock: Time, run: seq<TimedAction>)
    requires IsRunOf(StartSys(clock), run)
    ensures IsRunOf(StartSys(clock), FirstOnly(StartSys(clock), run, {}))
    ensures End(StartSys(clock), FirstOnly(StartSys(clock), run, {})).auth.db == End(StartSys(clock), run).auth.db
  {
    StartIsSound(clock);
    RepetitionsDoNotMatter(StartSys(clock), StartSys(clock), run, {});
  }

  // ----- tracking -----

  ghost predicate TracksKey(s: Sys, t: TimedAction, k: Key) {
    && t.action.Webhook? && TracksBounce(s.auth.db, t.action.callback, t.now)
    && KeyOf(s.auth.db, t.action.callback) == Some(k)
  }

  ghost function TimesTracked(s: Sys, run: seq<TimedAction>, k: Key): nat
    requires IsRunOf(s, run)
    decreases |run|
  {
    if run == [] then 0
    else (if TracksKey(s, run[0], k) then 1 else 0) + TimesTracked(Next(s, run[0]), run[1..], k)
  }

  /** The key's record is gone for good, or the key is already noted. */
  ghost predicate Closed(s: Sys, k: Key) {
    k.recordId in s.auth.used && (k.recordId in s.auth.db.records ==> Noted(s.auth.db, k))
  }

  /** One action: a closed key is not tracked and stays closed, and tracking a key closes it. */
  lemma TrackingCloses(s: Sys, t: TimedAction, k: Key)
    requires SysInv(s) && Possible(s, t)
    ensures Closed(s, k) ==> !TracksKey(s, t, k)
    ensures Closed(s, k) || TracksKey(s, t, k) ==> Closed(Next(s, t), k)
  {
    if t.action.Webhook? {
      CallbackNotesItsKey(s.auth.db, t.action.callback, t.now);
    }
    if Closed(s, k) || TracksKey(s, t, k) {
      ActionKeepsSeen(s, t, if Closed(s, k) then {k} else {});
      assert k in SeenAfter(s, t, if Closed(s, k) then {k} else {});
    }
  }

  /** A bounce is reported at most once per record, status and event id, and never once it is noted. */
  lemma {:induction false} BounceIsTrackedOnce(s: Sys, run: seq<TimedAction>, k: Key)
    requires SysInv(s) && IsRunOf(s, run)
    ensures TimesTracked(s, run, k) <= if Closed(s, k) then 0 else 1
    decreases |run|
  {
    if run != [] {
      ActionKeepsSysInv(s, run[0]);
      TrackingCloses(s, run[0], k);
      BounceIsTrackedOnce(Next(s, run[0]), run[1..], k);
    }
  }
}
