/** A committed resend retires every earlier code and link of its user, exactly until a late rollback revives them. */
module Supersession {
  import opened Base
  import opened Tables
  import opened Transactions
  import opened AuthRuns
  import opened AuthInvariants
  import opened RowSteps
  import opened HeldRows

  /** The step is a resend that was accepted, and this is its ticket. */
  ghost predicate Accepts(s: State, t: Timed, ticket: Ticket) {
    t.event.Resend? && Apply(s.db, t.now, t.event).result == Ok(Resent(ticket))
  }

  /** Right after a resend, the live rows of its user are the OTP and the magic link it made, and no others. */
  lemma ResendLeavesOnlyItsOwnRowsLive(s: State, t: Timed, ticket: Ticket)
    requires Inv(s) && Admissible(s, t) && Accepts(s, t, ticket)
    ensures var rows := Step(s, t).db.verifications;
      && ticket.rows == t.event.ids
      && rows.Keys == s.db.verifications.Keys + {ticket.rows.otpId, ticket.rows.magicId}
      && forall v | v in rows ::
           Live(rows[v], ticket.userId, t.now)
           <==> (v == ticket.rows.otpId || v == ticket.rows.magicId) && t.event.tokens.expiresAt > t.now
  {
    DrawnIdsAreNew(s, t);
  }

  // ----- a superseded row sleeps -----

  /** Only the tickets in `barred` could wake row `v`: it is gone, or unverified and expired, and so it would stay. */
  ghost predicate Asleep(s: State, v: Id, at: Time, barred: set<Ticket>) {
    && at <= s.clock && v in s.used
    && (v in s.db.verifications ==>
          s.db.verifications[v].verifiedAt.None? && s.db.verifications[v].expiresAt <= at)
    && forall k | k in s.tickets && v in k.revoked :: k in barred || k.revoked[v] <= at
  }

  /** The outstanding resends whose rollback would put row `v` back into use after `at`. */
  ghost function Wakers(s: State, v: Id, at: Time): set<Ticket> {
    set k | k in s.tickets && v in k.revoked && k.revoked[v] > at
  }

  ghost predicate NoRollbackOf(run: seq<Timed>, barred: set<Ticket>) {
    forall i | 0 <= i < |run| && run[i].event.Rollback? :: run[i].event.ticket !in barred
  }

  lemma ResendExpires(db: Db, email: string, tokens: Tokens, now: Time, ids: NewRows, v: Id)
    requires v in db.verifications && v != ids.otpId && v != ids.magicId && db.verifications[v].verifiedAt.None?
    ensures var out := ResendVerification(db, email, tokens, now, ids);
      out.result.Ok? && out.result.value.Resent? && db.verifications[v].userId == out.result.value.ticket.userId ==>
        && v in out.db.verifications && out.db.verifications[v].verifiedAt.None?
        && out.db.verifications[v].expiresAt <= now
  {
  }

  lemma ResendPutsToSleep(s: State, t: Timed, ticket: Ticket, v: Id)
    requires OnlyDrawnIds(s) && Admissible(s, t) && Accepts(s, t, ticket)
    requires v in s.db.verifications && s.db.verifications[v].userId == ticket.userId
    requires s.db.verifications[v].verifiedAt.None?
    ensures Asleep(Step(s, t), v, t.now, Wakers(Step(s, t), v, t.now))
  {
    DrawnIdsAreNew(s, t);
    ResendExpires(s.db, t.event.email, t.event.tokens, t.now, t.event.ids, v);
  }

  lemma RollbackMovesExpiryToSaved(db: Db, ticket: Ticket, now: Time, v: Id)
    requires v in db.verifications && v in ticket.revoked
    ensures var rows, rows' := db.verifications, RollbackResend(db, ticket, now).verifications;
      v in rows' ==> rows'[v] == rows[v] || rows'[v] == rows[v].(expiresAt := ticket.revoked[v])
  {
  }

  lemma StepKeepsRowAsleep(s: State, t: Timed, v: Id, at: Time, barred: set<Ticket>)
    requires OnlyDrawnIds(s) && Admissible(s, t) && Asleep(s, v, at, barred)
    requires t.event.Rollback? ==> t.event.ticket !in barred
    ensures v in Step(s, t).used
    ensures var rows' := Step(s, t).db.verifications;
      v in rows' ==> rows'[v].verifiedAt.None? && rows'[v].expiresAt <= at
  {
    if v !in s.db.verifications {
      GoneStaysGone(s, t, v);
    } else if t.event.Rollback? && v in t.event.ticket.revoked {
      RollbackMovesExpiryToSaved(s.db, t.event.ticket, t.now, v);
    } else {
      ExpiredRowStays(s, t, v);
    }
  }

  lemma StepKeepsAsleep(s: State, t: Timed, v: Id, at: Time, barred: set<Ticket>)
    requires OnlyDrawnIds(s) && Admissible(s, t) && Asleep(s, v, at, barred)
    requires t.event.Rollback? ==> t.event.ticket !in barred
    ensures Asleep(Step(s, t), v, at, barred)
  {
    StepKeepsRowAsleep(s, t, v, at, barred);
    forall k | k in Step(s, t).tickets && v in k.revoked ensures k in barred || k.revoked[v] <= at {
      if k !in s.tickets {
        NewTicketsHoldLiveRows(s, t, k, v);
      }
    }
  }

  lemma {:induction false} RunKeepsAsleep(s: State, run: seq<Timed>, v: Id, at: Time, barred: set<Ticket>)
    requires Inv(s) && IsRun(s, run) && Asleep(s, v, at, barred) && NoRollbackOf(run, barred)
    ensures Asleep(Final(s, run), v, at, barred)
    decreases |run|
  {
    if run != [] {
      StepKeepsInv(s, run[0]);
      StepKeepsAsleep(s, run[0], v, at, barred);
      RunKeepsAsleep(Step(s, run[0]), run[1..], v, at, barred);
    }
  }

  /**
   After an accepted resend no earlier row of that user, OTP or link, ever verifies, in any continuation that does not
   roll back a resend whose ticket has a still unexpired saved expiry for the row.
   */
  lemma EarlierRowsNeverVerify(s: State, t: Timed, ticket: Ticket, run: seq<Timed>, v: Id)
    requires Inv(s) && Admissible(s, t) && Accepts(s, t, ticket) && IsRun(Step(s, t), run)
    requires v in s.db.verifications && s.db.verifications[v].userId == ticket.userId
    requires s.db.verifications[v].verifiedAt.None?
    requires NoRollbackOf(run, Wakers(Step(s, t), v, t.now))
    ensures var rows := Final(Step(s, t), run).db.verifications;
      v in rows ==> rows[v].verifiedAt.None? && rows[v].expiresAt <= t.now
  {
    StepKeepsInv(s, t);
    ResendPutsToSleep(s, t, ticket, v);
    RunKeepsAsleep(Step(s, t), run, v, t.now, Wakers(Step(s, t), v, t.now));
  }

  // ----- and the condition is exact -----

  /** In any state of any run, rolling a ticket back puts the saved expiry of each row it holds back. */
  lemma RollbackWakes(s: State, now: Time, k: Ticket, v: Id)
    requires OnHold(s) && k in s.tickets && v in k.revoked && v in s.db.verifications
    ensures var rows' := Step(s, At(now, Rollback(k))).db.verifications;
      v in rows' && rows'[v] == s.db.verifications[v].(expiresAt := k.revoked[v])
  {
    assert HoldsFirmly(s, k);
  }

  lemma OpenLinkVerifies(db: Db, v: Id, now: Time)
    requires UniqueMagicHashes(db.verifications) && v in db.verifications && db.verifications[v].tokenType == MagicLink
    requires db.verifications[v].verifiedAt.None? && db.verifications[v].expiresAt > now
    ensures var out := VerifyMagicLink(db, db.verifications[v].tokenHash, now);
      out.result.Ok? && v in out.db.verifications && out.db.verifications[v].verifiedAt == Some(now)
  {
    assert IsOpenMagicLink(db.verifications, db.verifications[v].tokenHash, v);
    assert forall w | IsOpenMagicLink(db.verifications, db.verifications[v].tokenHash, w) :: w == v;
  }

  /** The run does not undo `ticket` and ends with row `v` verified. */
  ghost predicate VerifiesAnyway(s: State, run: seq<Timed>, ticket: Ticket, v: Id) {
    && IsRun(s, run) && NoRollbackOf(run, {ticket})
    && v in Final(s, run).db.verifications && Final(s, run).db.verifications[v].verifiedAt.Some?
  }

  /** After the rollback of a waker, presenting the old link verifies it. */
  lemma AwakeLinkVerifies(s: State, t: Timed, v: Id)
    requires UniqueMagicHashes(s.db.verifications) && v in s.db.verifications
    requires s.db.verifications[v].tokenType == MagicLink && s.db.verifications[v].verifiedAt.None?
    requires s.db.verifications[v].expiresAt > t.now && t.event == VerifyMagic(s.db.verifications[v].tokenHash)
    ensures v in Step(s, t).db.verifications && Step(s, t).db.verifications[v].verifiedAt.Some?
  {
    OpenLinkVerifies(s.db, v, t.now);
  }

  lemma WokenLinkVerifies(s: State, now: Time, k: Ticket, v: Id) returns (run: seq<Timed>)
    requires Inv(s) && OnHold(s) && s.clock <= now && k in Wakers(s, v, now)
    requires v in s.db.verifications && s.db.verifications[v].tokenType == MagicLink
    ensures |run| == 2 && run[0] == At(now, Rollback(k)) && run[1].event.VerifyMagic? && IsRun(s, run)
    ensures v in Final(s, run).db.verifications && Final(s, run).db.verifications[v].verifiedAt.Some?
  {
    var t1 := At(now, Rollback(k));
    var t2 := At(now, VerifyMagic(s.db.verifications[v].tokenHash));
    assert HoldsFirmly(s, k);
    StepKeepsUnique(s, t1);
    RollbackWakes(s, now, k, v);
    AwakeLinkVerifies(Step(s, t1), t2, v);
    RunAppend(s, [], t1);
    assert [] + [t1] == [t1];
    RunAppend(s, [t1], t2);
    run := [t1] + [t2];
  }

  lemma OnlyWakersMatter(s: State, run: seq<Timed>, at: Time, ticket: Ticket, v: Id)
    requires Inv(s) && Asleep(s, v, at, Wakers(s, v, at)) && Wakers(s, v, at) <= {ticket}
    ensures !VerifiesAnyway(s, run, ticket, v)
  {
    if IsRun(s, run) && NoRollbackOf(run, {ticket}) {
      RunKeepsAsleep(s, run, v, at, Wakers(s, v, at));
    }
  }

  lemma SleepingLinkVerifiesExactlyWhen(s: State, ticket: Ticket, v: Id)
    requires Inv(s) && OnHold(s) && Asleep(s, v, s.clock, Wakers(s, v, s.clock))
    requires v in s.db.verifications && s.db.verifications[v].tokenType == MagicLink
    ensures (exists run :: VerifiesAnyway(s, run, ticket, v))
      <==> exists k :: k in Wakers(s, v, s.clock) && k != ticket
  {
    if k :| k in Wakers(s, v, s.clock) && k != ticket {
      var run := WokenLinkVerifies(s, s.clock, k, v);
      assert VerifiesAnyway(s, run, ticket, v);
    } else {
      assert Wakers(s, v, s.clock) <= {ticket};
      forall run ensures !VerifiesAnyway(s, run, ticket, v) {
        OnlyWakersMatter(s, run, s.clock, ticket, v);
      }
    }
  }

  /**
   A link superseded by an accepted resend can still verify, without that resend being undone, if and only if another
   resend is still open to rollback that holds the link with an expiry after the new resend.
   */
  lemma SupersededLinkVerifiesExactlyWhen(s: State, t: Timed, ticket: Ticket, v: Id)
    requires Inv(s) && OnHold(s) && Admissible(s, t) && Accepts(s, t, ticket)
    requires v in s.db.verifications && s.db.verifications[v].userId == ticket.userId
    requires s.db.verifications[v].verifiedAt.None? && s.db.verifications[v].tokenType == MagicLink
    ensures (exists run :: VerifiesAnyway(Step(s, t), run, ticket, v))
      <==> exists k :: k in Wakers(Step(s, t), v, t.now) && k != ticket
  {
    StepKeepsInv(s, t);
    StepKeepsHolds(s, t);
    ResendPutsToSleep(s, t, ticket, v);
    ResendKeepsRow(s, t, v);
    SleepingLinkVerifiesExactlyWhen(Step(s, t), ticket, v);
  }

  lemma ResendKeepsRow(s: State, t: Timed, v: Id)
    requires OnlyDrawnIds(s) && Admissible(s, t) && t.event.Resend? && v in s.db.verifications
    ensures v in Step(s, t).db.verifications
    ensures OnlyExpiryMoves(s.db.verifications, Step(s, t).db.verifications, v)
  {
    DrawnIdsAreNew(s, t);
    ResendMovesOnlyExpiry(s.db, t.event.email, t.event.tokens, t.now, t.event.ids, v);
  }

  /** When every earlier resend of the user was settled before the next, supersession is unconditional. */
  lemma SettledResendsSupersede(s: State, t: Timed, ticket: Ticket, run: seq<Timed>, v: Id)
    requires Inv(s) && OnHold(s) && Admissible(s, t) && Accepts(s, t, ticket) && IsRun(Step(s, t), run)
    requires forall k | k in s.tickets :: k.userId == ticket.userId ==> NoRollbackOf(run, {k})
    requires NoRollbackOf(run, {ticket})
    requires v in s.db.verifications && s.db.verifications[v].userId == ticket.userId
    requires s.db.verifications[v].verifiedAt.None?
    ensures var rows := Final(Step(s, t), run).db.verifications;
      v in rows ==> rows[v].verifiedAt.None? && rows[v].expiresAt <= t.now
  {
    WakersAreTheUsers(s, t, ticket, v);
    EarlierRowsNeverVerify(s, t, ticket, run, v);
  }

  lemma WakersAreTheUsers(s: State, t: Timed, ticket: Ticket, v: Id)
    requires OnHold(s) && Accepts(s, t, ticket)
    requires v in s.db.verifications && s.db.verifications[v].userId == ticket.userId
    ensures forall k | k in Wakers(Step(s, t), v, t.now) :: k == ticket || (k in s.tickets && k.userId == ticket.userId)
  {
    forall k | k in Wakers(Step(s, t), v, t.now) && k in s.tickets ensures k.userId == ticket.userId {
      assert HoldsFirmly(s, k);
    }
  }
}
