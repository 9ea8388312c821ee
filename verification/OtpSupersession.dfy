/**
 When an OTP that a resend has superseded can still verify. Reviving it is not enough, as for a link: an OTP request
 looks only at the newest unverified row, so every newer row must be verified first or deleted by its own rollback.
 */
module OtpSupersession {
  import opened Base
  import opened Tables
  import opened Transactions
  import opened AuthRuns
  import opened AuthInvariants
  import opened RowSteps
  import opened HeldRows
  import opened OtpAttempts
  import opened Supersession

  /** Row `w` would be asked for before row `v`. */
  ghost predicate NewerOtp(db: Db, email: string, w: Id, v: Id) {
    OtpCandidate(db, email, w) && v in db.verifications && !AtMostAsNew(db.verifications, w, v)
  }

  // ----- a ticket's rows belong to its user -----

  ghost predicate MadeForItsUser(rows: map<Id, Verification>, k: Ticket) {
    forall v | v in rows && Creates(k, v) :: rows[v].userId == k.userId
  }

  ghost predicate AllMadeForTheirUsers(s: State) {
    forall k | k in s.tickets :: MadeForItsUser(s.db.verifications, k)
  }

  /** No step gives a row to another user. */
  lemma RowKeepsUser(s: State, t: Timed, v: Id)
    requires OnlyDrawnIds(s) && Admissible(s, t) && v in s.db.verifications
    ensures v in Step(s, t).db.verifications ==> Step(s, t).db.verifications[v].userId == s.db.verifications[v].userId
  {
    match t.event
    case VerifyOtp(email, hash) => OtpStepTouchesComparedRow(s.db, email, hash, t.now, v);
    case VerifyMagic(hash) => MagicStepTouchesLiveRow(s.db, hash, t.now, v);
    case _ => OtherStepsMoveOnlyExpiry(s, t, v);
  }

  lemma OldTicketsFit(s: State, t: Timed, k: Ticket)
    requires OnlyDrawnIds(s) && Admissible(s, t) && k in s.tickets && MadeForItsUser(s.db.verifications, k)
    ensures MadeForItsUser(Step(s, t).db.verifications, k)
  {
    forall v | v in Step(s, t).db.verifications && Creates(k, v)
      ensures Step(s, t).db.verifications[v].userId == k.userId
    {
      assert v in s.used;
      if v in s.db.verifications {
        RowKeepsUser(s, t, v);
      } else {
        GoneStaysGone(s, t, v);
      }
    }
  }

  lemma NewTicketFits(s: State, t: Timed, k: Ticket)
    requires OnlyDrawnIds(s) && Admissible(s, t) && Accepts(s, t, k)
    ensures MadeForItsUser(Step(s, t).db.verifications, k)
  {
    DrawnIdsAreNew(s, t);
  }

  lemma StepKeepsTicketsFitting(s: State, t: Timed)
    requires OnlyDrawnIds(s) && Admissible(s, t) && AllMadeForTheirUsers(s)
    ensures AllMadeForTheirUsers(Step(s, t))
  {
    forall k | k in Step(s, t).tickets ensures MadeForItsUser(Step(s, t).db.verifications, k) {
      if k in s.tickets {
        OldTicketsFit(s, t, k);
      } else {
        NewTicketFits(s, t, k);
      }
    }
  }

  /** What every reachable state has. */
  ghost predicate InOrder(s: State) {
    Inv(s) && OnHold(s) && AllMadeForTheirUsers(s)
  }

  lemma StepKeepsOrder(s: State, t: Timed)
    requires InOrder(s) && Admissible(s, t)
    ensures InOrder(Step(s, t))
  {
    StepKeepsInv(s, t);
    StepKeepsHolds(s, t);
    StepKeepsTicketsFitting(s, t);
  }

  lemma {:induction false} RunKeepsOrder(s: State, run: seq<Timed>)
    requires InOrder(s) && IsRun(s, run)
    ensures InOrder(Final(s, run))
    decreases |run|
  {
    if run != [] {
      StepKeepsOrder(s, run[0]);
      RunKeepsOrder(Step(s, run[0]), run[1..]);
    }
  }

  // ----- the condition -----

  /**
   Row `w` can be got out of the way of row `v` without undoing `ticket`: a resend other than those that made `v` can be
   rolled back that made `w`, or `w` has guesses left and is live or can be made so in the same way.
   */
  ghost predicate Clearable(s: State, ticket: Ticket, v: Id, w: Id)
    requires w in s.db.verifications
  {
    || (exists k :: k in s.tickets && k != ticket && !Creates(k, v) && Creates(k, w))
    || (&& s.db.verifications[w].attempts <= MAX_OTP_ATTEMPTS
        && (|| s.db.verifications[w].expiresAt > s.clock
            || exists k :: k in Wakers(s, w, s.clock) && k != ticket && !Creates(k, v)))
  }

  ghost predicate CanComeBack(s: State, ticket: Ticket, email: string, v: Id)
    requires v in s.db.verifications
  {
    && s.db.verifications[v].attempts <= MAX_OTP_ATTEMPTS
    && (exists k :: k in Wakers(s, v, s.clock) && k != ticket)
    && forall w | NewerOtp(s.db, email, w, v) :: Clearable(s, ticket, v, w)
  }

  // ----- it suffices: first all rollbacks, then the OTPs from the newest down -----

  /** The run continues after the step. */
  lemma ConsRun(s: State, t: Timed, rest: seq<Timed>, ticket: Ticket, v: Id)
    requires Admissible(s, t) && VerifiesAnyway(Step(s, t), rest, ticket, v)
    requires t.event.Rollback? ==> t.event.ticket != ticket
    ensures VerifiesAnyway(s, [t] + rest, ticket, v)
  {
    assert ([t] + rest)[1..] == rest;
  }

  lemma NewestVerifies(s: State, email: string, w: Id)
    requires IsNewestOtp(s.db, email, w) && s.db.verifications[w].attempts <= MAX_OTP_ATTEMPTS
    requires s.db.verifications[w].expiresAt > s.clock
    ensures var t := At(s.clock, VerifyOtp(email, s.db.verifications[w].tokenHash));
      Admissible(s, t) && Step(s, t).db == Activate(s.db, w, s.clock).db
      && Step(s, t).clock == s.clock
  {
    assert forall x | IsNewestOtp(s.db, email, x) :: x == w;
    assert DrawnIds(VerifyOtp(email, s.db.verifications[w].tokenHash)) == [];
  }

  ghost predicate Good(s: State, w: Id)
    requires w in s.db.verifications
  {
    s.db.verifications[w].attempts <= MAX_OTP_ATTEMPTS && s.db.verifications[w].expiresAt > s.clock
  }

  ghost function Newer(s: State, email: string, v: Id): set<Id> {
    set w | w in s.db.verifications && NewerOtp(s.db, email, w, v)
  }

  /** The row and all newer ones are live and have guesses left. */
  ghost predicate AllGood(s: State, email: string, v: Id) {
    && Inv(s) && OtpCandidate(s.db, email, v) && Good(s, v)
    && forall w | NewerOtp(s.db, email, w, v) :: Good(s, w)
  }

  /** Verifying another row takes exactly that row out of the candidates. */
  lemma ActivateLeavesCandidates(db: Db, email: string, w: Id, now: Time, x: Id)
    requires OtpCandidate(db, email, w)
    ensures var db' := Activate(db, w, now).db;
      && (OtpCandidate(db', email, x) <==> OtpCandidate(db, email, x) && x != w)
      && (x in db.verifications && x != w ==> x in db'.verifications && db'.verifications[x] == db.verifications[x])
  {
  }

  lemma NewestIsNewer(s: State, email: string, v: Id) returns (w: Id)
    requires OtpCandidate(s.db, email, v) && Newer(s, email, v) != {}
    ensures IsNewestOtp(s.db, email, w) && w in Newer(s, email, v)
  {
    var rows := s.db.verifications;
    var candidates: set<Id> := set x | x in rows && OtpCandidate(s.db, email, x);
    assert v in candidates;
    w := LastOfSome(candidates, (a: Id, b: Id) => a in rows && b in rows && AtMostAsNew(rows, a, b));
    forall x | OtpCandidate(s.db, email, x) ensures AtMostAsNew(rows, x, w) {
      assert x in candidates;
    }
    var x :| x in Newer(s, email, v);
    assert AtMostAsNew(rows, x, w);
  }

  /** Row `w` is no longer a candidate, and the others are as they were. */
  ghost predicate TakenOut(db: Db, db': Db, email: string, w: Id) {
    && (forall x :: OtpCandidate(db', email, x) <==> OtpCandidate(db, email, x) && x != w)
    && (forall x | x in db.verifications && x != w :: x in db'.verifications && db'.verifications[x] == db.verifications[x])
  }

  lemma ActivateTakesOut(db: Db, email: string, w: Id, now: Time)
    requires OtpCandidate(db, email, w)
    ensures TakenOut(db, Activate(db, w, now).db, email, w)
  {
    forall x
      ensures OtpCandidate(Activate(db, w, now).db, email, x) <==> OtpCandidate(db, email, x) && x != w
      ensures x in db.verifications && x != w ==>
        x in Activate(db, w, now).db.verifications && Activate(db, w, now).db.verifications[x] == db.verifications[x]
    {
      ActivateLeavesCandidates(db, email, w, now, x);
    }
  }

  lemma NewerAfterTakingOut(db: Db, db': Db, email: string, w: Id, v: Id, x: Id)
    requires TakenOut(db, db', email, w) && OtpCandidate(db, email, v) && v != w
    ensures NewerOtp(db', email, x, v) <==> NewerOtp(db, email, x, v) && x != w
  {
    assert OtpCandidate(db', email, x) ==> x in db.verifications && x != w;
  }

  lemma GoodAfterTakingOut(s: State, s': State, email: string, w: Id, v: Id)
    requires AllGood(s, email, v) && Inv(s') && s'.clock == s.clock && TakenOut(s.db, s'.db, email, w) && v != w
    ensures AllGood(s', email, v) && Newer(s', email, v) == Newer(s, email, v) - {w}
  {
    forall x ensures NewerOtp(s'.db, email, x, v) <==> NewerOtp(s.db, email, x, v) && x != w {
      NewerAfterTakingOut(s.db, s'.db, email, w, v, x);
    }
    forall x | NewerOtp(s'.db, email, x, v) ensures Good(s', x) {
      assert Good(s, x);
    }
  }

  lemma StillAllGood(s: State, email: string, v: Id, w: Id)
    requires AllGood(s, email, v) && w in Newer(s, email, v) && IsNewestOtp(s.db, email, w)
    ensures var t := At(s.clock, VerifyOtp(email, s.db.verifications[w].tokenHash));
      && Admissible(s, t) && AllGood(Step(s, t), email, v)
      && Newer(Step(s, t), email, v) == Newer(s, email, v) - {w}
  {
    var t := At(s.clock, VerifyOtp(email, s.db.verifications[w].tokenHash));
    assert Good(s, w);
    NewestVerifies(s, email, w);
    StepKeepsInv(s, t);
    ActivateTakesOut(s.db, email, w, s.clock);
    GoodAfterTakingOut(s, Step(s, t), email, w, v);
  }

  lemma {:induction false} VerifyDown(s: State, email: string, ticket: Ticket, v: Id) returns (run: seq<Timed>)
    requires AllGood(s, email, v)
    ensures VerifiesAnyway(s, run, ticket, v)
    decreases |Newer(s, email, v)|
  {
    if Newer(s, email, v) == {} {
      forall w | OtpCandidate(s.db, email, w) ensures AtMostAsNew(s.db.verifications, w, v) {
        assert w !in Newer(s, email, v);
      }
      var t := At(s.clock, VerifyOtp(email, s.db.verifications[v].tokenHash));
      NewestVerifies(s, email, v);
      assert VerifiesAnyway(Step(s, t), [], ticket, v);
      ConsRun(s, t, [], ticket, v);
      run := [t] + [];
    } else {
      var w := NewestIsNewer(s, email, v);
      var t := At(s.clock, VerifyOtp(email, s.db.verifications[w].tokenHash));
      StillAllGood(s, email, v, w);
      var rest := VerifyDown(Step(s, t), email, ticket, v);
      ConsRun(s, t, rest, ticket, v);
      run := [t] + rest;
    }
  }

  // the rollbacks

  ghost predicate WokenBy(s: State, tickets: set<Ticket>, w: Id) {
    exists k :: k in tickets && k in Wakers(s, w, s.clock)
  }

  ghost predicate MadeBy(tickets: set<Ticket>, w: Id) {
    exists k :: k in tickets && Creates(k, w)
  }

  /** Once the tickets are rolled back, the row is gone or good. */
  ghost predicate ClearedBy(s: State, tickets: set<Ticket>, w: Id)
    requires w in s.db.verifications
  {
    || MadeBy(tickets, w)
    || (&& s.db.verifications[w].attempts <= MAX_OTP_ATTEMPTS
        && (s.db.verifications[w].expiresAt > s.clock || WokenBy(s, tickets, w)))
  }

  ghost predicate Ready(s: State, tickets: set<Ticket>, email: string, v: Id) {
    && InOrder(s) && tickets <= s.tickets
    && OtpCandidate(s.db, email, v) && !MadeBy(tickets, v) && ClearedBy(s, tickets, v)
    && forall w | NewerOtp(s.db, email, w, v) :: ClearedBy(s, tickets, w)
  }

  /** What the rollback of one outstanding ticket does to an unverified row. */
  lemma RollbackOfRow(s: State, j: Ticket, w: Id)
    requires InOrder(s) && j in s.tickets && w in s.db.verifications && s.db.verifications[w].verifiedAt.None?
    ensures var rows, rows' := s.db.verifications, Step(s, At(s.clock, Rollback(j))).db.verifications;
      && (w in rows' <==> !Creates(j, w))
      && (w in rows' ==> rows'[w] == if w in j.revoked then rows[w].(expiresAt := j.revoked[w]) else rows[w])
  {
    assert HoldsFirmly(s, j) && MadeForItsUser(s.db.verifications, j);
  }

  lemma HeldIsExpired(s: State, j: Ticket, w: Id)
    requires OnHold(s) && j in s.tickets && w in j.revoked && w in s.db.verifications
    ensures s.db.verifications[w].expiresAt <= s.clock
  {
    assert HoldsFirmly(s, j);
  }

  lemma RollbackKeepsCleared(s: State, tickets: set<Ticket>, j: Ticket, w: Id)
    requires InOrder(s) && tickets <= s.tickets && j in tickets
    requires w in s.db.verifications && s.db.verifications[w].verifiedAt.None? && ClearedBy(s, tickets, w)
    ensures var s' := Step(s, At(s.clock, Rollback(j)));
      w in s'.db.verifications ==> ClearedBy(s', tickets - {j}, w)
  {
    var s' := Step(s, At(s.clock, Rollback(j)));
    RollbackOfRow(s, j, w);
    if w in s'.db.verifications {
      if MadeBy(tickets, w) {
        var k :| k in tickets && Creates(k, w);
        assert k in tickets - {j};
      } else if s.db.verifications[w].expiresAt > s.clock {
        if w in j.revoked {
          HeldIsExpired(s, j, w);
        }
      } else {
        var k :| k in tickets && k in Wakers(s, w, s.clock);
        if k != j {
          assert k in s'.tickets && k in Wakers(s', w, s'.clock);
          assert HoldApart(s.db.verifications, k, j);
        }
      }
    }
  }

  lemma RollbackKeepsReady(s: State, tickets: set<Ticket>, j: Ticket, email: string, v: Id)
    requires Ready(s, tickets, email, v) && j in tickets
    ensures Admissible(s, At(s.clock, Rollback(j)))
    ensures Ready(Step(s, At(s.clock, Rollback(j))), tickets - {j}, email, v)
  {
    var t := At(s.clock, Rollback(j));
    var s' := Step(s, t);
    assert DrawnIds(t.event) == [];
    StepKeepsOrder(s, t);
    RollbackOfRow(s, j, v);
    RollbackKeepsCleared(s, tickets, j, v);
    forall w | NewerOtp(s'.db, email, w, v) ensures ClearedBy(s', tickets - {j}, w) {
      RollbackAddsNoCandidate(s, j, email, w);
      RollbackOfRow(s, j, w);
      RollbackKeepsCleared(s, tickets, j, w);
    }
  }

  lemma RollbackAddsNoCandidate(s: State, j: Ticket, email: string, w: Id)
    requires OtpCandidate(Step(s, At(s.clock, Rollback(j))).db, email, w)
    ensures OtpCandidate(s.db, email, w)
    ensures Step(s, At(s.clock, Rollback(j))).db.verifications[w].createdAt == s.db.verifications[w].createdAt
  {
  }

  lemma {:induction false} WakeAndVerify(s: State, tickets: set<Ticket>, ticket: Ticket, email: string, v: Id)
    returns (run: seq<Timed>)
    requires Ready(s, tickets, email, v) && ticket !in tickets
    ensures VerifiesAnyway(s, run, ticket, v)
    decreases |tickets|
  {
    if tickets == {} {
      run := VerifyDown(s, email, ticket, v);
    } else {
      var j :| j in tickets;
      var t := At(s.clock, Rollback(j));
      RollbackKeepsReady(s, tickets, j, email, v);
      var rest := WakeAndVerify(Step(s, t), tickets - {j}, ticket, email, v);
      ConsRun(s, t, rest, ticket, v);
      run := [t] + rest;
    }
  }

  lemma ComesBack(s: State, ticket: Ticket, email: string, v: Id) returns (run: seq<Timed>)
    requires InOrder(s) && OtpCandidate(s.db, email, v) && CanComeBack(s, ticket, email, v)
    ensures VerifiesAnyway(s, run, ticket, v)
  {
    var tickets := set k | k in s.tickets && k != ticket && !Creates(k, v);
    var waker :| waker in Wakers(s, v, s.clock) && waker != ticket;
    assert HoldsFirmly(s, waker);
    assert waker in tickets;
    forall w | NewerOtp(s.db, email, w, v) ensures ClearedBy(s, tickets, w) {
      assert Clearable(s, ticket, v, w);
    }
    run := WakeAndVerify(s, tickets, ticket, email, v);
  }

  // ----- it is necessary -----

  /** The tickets that must not be rolled back, or whose rollback deletes `v`. */
  ghost function Barred(s: State, ticket: Ticket, v: Id): set<Ticket> {
    set k | k in s.tickets && (k == ticket || Creates(k, v))
  }

  /** Both rows are unverified OTP rows of one user, and `w` is asked for first. */
  ghost predicate InTheWay(rows: map<Id, Verification>, v: Id, w: Id) {
    && v in rows && w in rows && rows[v].userId == rows[w].userId && !AtMostAsNew(rows, w, v)
    && rows[v].tokenType == Otp && rows[v].verifiedAt.None? && rows[w].tokenType == Otp && rows[w].verifiedAt.None?
  }

  /** No ticket outside `barred` made the row. */
  ghost predicate MadeOnlyBy(s: State, barred: set<Ticket>, v: Id) {
    v in s.used && forall k | k in s.tickets && Creates(k, v) :: k in barred
  }

  /** Row `w` cannot verify: it has no guesses left, or it is asleep. */
  ghost predicate Stuck(s: State, w: Id, at: Time, barred: set<Ticket>) {
    || (w in s.db.verifications && s.db.verifications[w].attempts > MAX_OTP_ATTEMPTS)
    || Asleep(s, w, at, barred)
  }

  /** Row `v` is gone, or `w` is in its way and stuck there. */
  ghost predicate Blocked(s: State, v: Id, w: Id, at: Time, barred: set<Ticket>) {
    && MadeOnlyBy(s, barred, v)
    && (v in s.db.verifications ==>
          InTheWay(s.db.verifications, v, w) && MadeOnlyBy(s, barred, w) && Stuck(s, w, at, barred) && at <= s.clock)
  }

  lemma StepKeepsMakers(s: State, t: Timed, barred: set<Ticket>, v: Id)
    requires OnlyDrawnIds(s) && Admissible(s, t) && MadeOnlyBy(s, barred, v)
    ensures MadeOnlyBy(Step(s, t), barred, v)
  {
    forall k | k in Step(s, t).tickets && Creates(k, v) ensures k in barred {
      if k !in s.tickets {
        DrawnIdsAreNew(s, t);
      }
    }
  }

  /** A row with a newer one in its way is not the one that is asked for. */
  lemma NotAskedFor(db: Db, email: string, now: Time, v: Id, w: Id)
    requires InTheWay(db.verifications, v, w)
    ensures ComparedOtp(db, email, now) != Some(v)
  {
    assert OtpCandidate(db, email, v) ==> OtpCandidate(db, email, w);
  }

  /** Nothing happens to either row but a move of its expiry, unless `v` goes. */
  ghost predicate OnlyExpiriesMove(rows: map<Id, Verification>, rows': map<Id, Verification>, v: Id, w: Id)
    requires v in rows && w in rows
  {
    v in rows' ==>
      && w in rows'
      && rows'[v] == rows[v].(expiresAt := rows'[v].expiresAt) && rows'[w] == rows[w].(expiresAt := rows'[w].expiresAt)
  }

  lemma StuckIsNotAskedFor(s: State, email: string, now: Time, w: Id, at: Time, barred: set<Ticket>)
    requires Stuck(s, w, at, barred) && w in s.db.verifications && s.clock <= now
    ensures ComparedOtp(s.db, email, now) != Some(w)
  {
  }

  lemma OtpLeavesBlocked(s: State, t: Timed, v: Id, w: Id, at: Time, barred: set<Ticket>)
    requires Admissible(s, t) && t.event.VerifyOtp? && InTheWay(s.db.verifications, v, w) && Stuck(s, w, at, barred)
    ensures OnlyExpiriesMove(s.db.verifications, Step(s, t).db.verifications, v, w)
  {
    var e := t.event;
    NotAskedFor(s.db, e.email, t.now, v, w);
    StuckIsNotAskedFor(s, e.email, t.now, w, at, barred);
    OtpStepTouchesComparedRow(s.db, e.email, e.hash, t.now, v);
    OtpStepTouchesComparedRow(s.db, e.email, e.hash, t.now, w);
  }

  lemma MagicLeavesBlocked(s: State, t: Timed, v: Id, w: Id)
    requires t.event.VerifyMagic? && InTheWay(s.db.verifications, v, w)
    ensures OnlyExpiriesMove(s.db.verifications, Step(s, t).db.verifications, v, w)
  {
    MagicStepTouchesLiveRow(s.db, t.event.hash, t.now, v);
    MagicStepTouchesLiveRow(s.db, t.event.hash, t.now, w);
  }

  /** Apart from a rollback, a step that deletes a row deletes all rows of its user. */
  lemma RowsGoTogether(s: State, t: Timed, v: Id, w: Id)
    requires OnlyDrawnIds(s) && Admissible(s, t) && !t.event.Rollback? && !t.event.VerifyOtp? && !t.event.VerifyMagic?
    requires v in s.db.verifications && w in s.db.verifications
    requires s.db.verifications[v].userId == s.db.verifications[w].userId && v in Step(s, t).db.verifications
    ensures w in Step(s, t).db.verifications
  {
    DrawnIdsAreNew(s, t);
    match t.event
    case Register(_, uid, tokens, ids) => NewRowsLeaveTheOthers(s.db.verifications, uid, tokens, t.now, ids, w);
    case Create(uid, tokens, ids) => NewRowsLeaveTheOthers(s.db.verifications, uid, tokens, t.now, ids, w);
    case Resend(email, tokens, ids) => ResendMovesOnlyExpiry(s.db, email, tokens, t.now, ids, w);
    case Cleanup(_) =>
    case _ => SessionEventsKeepRows(s.db, t.now, t.event);
  }

  lemma RollbackLeavesBlocked(s: State, t: Timed, v: Id, w: Id, barred: set<Ticket>, ticket: Ticket)
    requires InOrder(s) && Admissible(s, t) && t.event.Rollback? && t.event.ticket != ticket
    requires InTheWay(s.db.verifications, v, w) && MadeOnlyBy(s, barred, w)
    requires forall k | k in barred :: k == ticket || Creates(k, v)
    ensures OnlyExpiriesMove(s.db.verifications, Step(s, t).db.verifications, v, w)
    ensures t.event.ticket in barred ==> v !in Step(s, t).db.verifications
  {
    var j := t.event.ticket;
    assert HoldsFirmly(s, j) && MadeForItsUser(s.db.verifications, j);
    RollbackMovesOnlyExpiry(s.db, j, t.now, v);
    RollbackMovesOnlyExpiry(s.db, j, t.now, w);
  }

  lemma StepLeavesBlocked(s: State, t: Timed, v: Id, w: Id, at: Time, barred: set<Ticket>, ticket: Ticket)
    requires InOrder(s) && Admissible(s, t) && (t.event.Rollback? ==> t.event.ticket != ticket)
    requires Blocked(s, v, w, at, barred) && v in s.db.verifications
    requires forall k | k in barred :: k == ticket || Creates(k, v)
    ensures OnlyExpiriesMove(s.db.verifications, Step(s, t).db.verifications, v, w)
    ensures t.event.Rollback? && t.event.ticket in barred ==> v !in Step(s, t).db.verifications
  {
    if t.event.Rollback? {
      RollbackLeavesBlocked(s, t, v, w, barred, ticket);
    } else if t.event.VerifyOtp? {
      OtpLeavesBlocked(s, t, v, w, at, barred);
    } else if t.event.VerifyMagic? {
      MagicLeavesBlocked(s, t, v, w);
    } else {
      OtherStepsMoveOnlyExpiry(s, t, v);
      OtherStepsMoveOnlyExpiry(s, t, w);
      if v in Step(s, t).db.verifications {
        RowsGoTogether(s, t, v, w);
      }
    }
  }

  lemma StepKeepsBlocked(s: State, t: Timed, v: Id, w: Id, at: Time, barred: set<Ticket>, ticket: Ticket)
    requires InOrder(s) && Admissible(s, t) && (t.event.Rollback? ==> t.event.ticket != ticket)
    requires Blocked(s, v, w, at, barred) && forall k | k in barred :: k == ticket || Creates(k, v)
    ensures Blocked(Step(s, t), v, w, at, barred)
  {
    StepKeepsMakers(s, t, barred, v);
    if v !in s.db.verifications {
      GoneStaysGone(s, t, v);
    } else {
      StepLeavesBlocked(s, t, v, w, at, barred, ticket);
      if v in Step(s, t).db.verifications {
        StepKeepsMakers(s, t, barred, w);
        if Asleep(s, w, at, barred) {
          StepKeepsAsleep(s, t, w, at, barred);
        }
      }
    }
  }

  lemma {:induction false} RunKeepsBlocked(
    s: State, run: seq<Timed>, v: Id, w: Id, at: Time, barred: set<Ticket>, ticket: Ticket)
    requires InOrder(s) && IsRun(s, run) && NoRollbackOf(run, {ticket})
    requires Blocked(s, v, w, at, barred) && forall k | k in barred :: k == ticket || Creates(k, v)
    ensures Blocked(Final(s, run), v, w, at, barred)
    decreases |run|
  {
    if run != [] {
      StepKeepsOrder(s, run[0]);
      StepKeepsBlocked(s, run[0], v, w, at, barred, ticket);
      RunKeepsBlocked(Step(s, run[0]), run[1..], v, w, at, barred, ticket);
    }
  }

  lemma UnclearableBlocks(s: State, ticket: Ticket, email: string, v: Id, w: Id)
    requires InOrder(s) && OtpCandidate(s.db, email, v) && NewerOtp(s.db, email, w, v) && !Clearable(s, ticket, v, w)
    ensures Blocked(s, v, w, s.clock, Barred(s, ticket, v))
  {
    assert s.db.verifications[v].userId == s.db.verifications[w].userId;
  }

  lemma VerifyingNeedsTheCondition(s: State, ticket: Ticket, email: string, v: Id, run: seq<Timed>)
    requires InOrder(s) && OtpCandidate(s.db, email, v) && Asleep(s, v, s.clock, Wakers(s, v, s.clock))
    requires VerifiesAnyway(s, run, ticket, v)
    ensures CanComeBack(s, ticket, email, v)
  {
    AttemptsOverRuns(s, run, v);
    assert AttemptsInRange(s.db.verifications[v]);
    if Wakers(s, v, s.clock) <= {ticket} {
      OnlyWakersMatter(s, run, s.clock, ticket, v);
    }
    forall w | NewerOtp(s.db, email, w, v) ensures Clearable(s, ticket, v, w) {
      if !Clearable(s, ticket, v, w) {
        UnclearableBlocks(s, ticket, email, v, w);
        RunKeepsBlocked(s, run, v, w, s.clock, Barred(s, ticket, v), ticket);
      }
    }
  }

  lemma SleepingOtpVerifiesExactlyWhen(s: State, ticket: Ticket, email: string, v: Id)
    requires InOrder(s) && OtpCandidate(s.db, email, v) && Asleep(s, v, s.clock, Wakers(s, v, s.clock))
    ensures (exists run :: VerifiesAnyway(s, run, ticket, v)) <==> CanComeBack(s, ticket, email, v)
  {
    if CanComeBack(s, ticket, email, v) {
      var run := ComesBack(s, ticket, email, v);
    } else {
      forall run ensures !VerifiesAnyway(s, run, ticket, v) {
        if VerifiesAnyway(s, run, ticket, v) {
          VerifyingNeedsTheCondition(s, ticket, email, v, run);
        }
      }
    }
  }

  /**
   An OTP superseded by an accepted resend can still verify, without that resend being undone, if and only if it has
   guesses left, another resend is still open to rollback that holds it with an expiry after the new resend, and every
   newer unverified OTP row of the user can be got out of the way.
   */
  lemma SupersededOtpVerifiesExactlyWhen(s: State, t: Timed, ticket: Ticket, v: Id)
    requires InOrder(s) && Admissible(s, t) && Accepts(s, t, ticket)
    requires v in s.db.verifications && s.db.verifications[v].userId == ticket.userId
    requires s.db.verifications[v].verifiedAt.None? && s.db.verifications[v].tokenType == Otp
    ensures v in Step(s, t).db.verifications
    ensures (exists run :: VerifiesAnyway(Step(s, t), run, ticket, v))
      <==> CanComeBack(Step(s, t), ticket, t.event.email, v)
  {
    StepKeepsOrder(s, t);
    ResendPutsToSleep(s, t, ticket, v);
    ResendKeepsRow(s, t, v);
    ResentToItsUser(s, t, ticket);
    SleepingOtpVerifiesExactlyWhen(Step(s, t), ticket, t.event.email, v);
  }

  lemma ResentToItsUser(s: State, t: Timed, ticket: Ticket)
    requires Accepts(s, t, ticket)
    ensures ticket.userId in Step(s, t).db.users && Step(s, t).db.users[ticket.userId].email == t.event.email
  {
  }
}
