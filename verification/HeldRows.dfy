/**
 What an outstanding resend knows about the rows it revoked, in every run: each is held by that one ticket only, and
 until the ticket is rolled back it stays unverified and expired at the instant of the resend.
 */
module HeldRows {
  import opened Base
  import opened Tables
  import opened Transactions
  import opened AuthRuns
  import opened AuthInvariants
  import opened RowSteps

  /** Row `v` was created by the resend behind this ticket. */
  predicate Creates(t: Ticket, v: Id) {
    v == t.rows.otpId || v == t.rows.magicId
  }

  /** A held row is still unverified, still its owner's, and expired at the instant of the resend that holds it. */
  ghost predicate Holds(rows: map<Id, Verification>, t: Ticket) {
    && t.revokedAt.Some?
    && forall v | v in t.revoked && v in rows ::
         && rows[v].userId == t.userId && rows[v].verifiedAt.None?
         && rows[v].expiresAt == t.revokedAt.value
  }

  ghost predicate HoldsFirmly(s: State, t: Ticket) {
    && Holds(s.db.verifications, t) && t.revokedAt.value <= s.clock
    && forall v | v in t.revoked :: !Creates(t, v)
  }

  ghost predicate NoneInCommon(t1: Ticket, t2: Ticket) {
    forall v | v in t1.revoked :: v !in t2.revoked
  }

  /** No row of the table is held twice. */
  ghost predicate HoldApart(rows: map<Id, Verification>, t1: Ticket, t2: Ticket) {
    forall v | v in rows && v in t1.revoked :: v !in t2.revoked
  }

  ghost predicate OnHold(s: State) {
    && (forall t | t in s.tickets :: HoldsFirmly(s, t))
    && (forall t1, t2 | t1 in s.tickets && t2 in s.tickets && t1 != t2 :: HoldApart(s.db.verifications, t1, t2))
  }

  // ----- one step -----

  /** A row held by an outstanding ticket is not touched, except by that ticket's own rollback. */
  lemma HeldRowStays(s: State, t: Timed, k: Ticket, v: Id)
    requires OnlyDrawnIds(s) && OnHold(s) && Admissible(s, t) && k in s.tickets && v in k.revoked
    requires t.event.Rollback? ==> t.event.ticket != k
    ensures v in Step(s, t).db.verifications ==>
      v in s.db.verifications && Step(s, t).db.verifications[v] == s.db.verifications[v]
  {
    assert HoldsFirmly(s, k);
    assert v in s.used;
    if v in s.db.verifications {
      assert t.event.Rollback? ==> HoldApart(s.db.verifications, k, t.event.ticket);
      ExpiredRowStays(s, t, v);
    } else {
      GoneStaysGone(s, t, v);
    }
  }

  lemma OldTicketHoldsFirmly(s: State, t: Timed, k: Ticket)
    requires OnlyDrawnIds(s) && OnHold(s) && Admissible(s, t) && k in s.tickets
    requires t.event.Rollback? ==> t.event.ticket != k
    ensures HoldsFirmly(Step(s, t), k)
  {
    assert HoldsFirmly(s, k);
    forall v | v in k.revoked && v in Step(s, t).db.verifications
      ensures v in s.db.verifications && Step(s, t).db.verifications[v] == s.db.verifications[v]
    {
      HeldRowStays(s, t, k, v);
    }
  }

  lemma NewTicketHoldsFirmly(s: State, t: Timed, k: Ticket)
    requires OnlyDrawnIds(s) && Admissible(s, t) && t.event.Resend?
    requires Apply(s.db, t.now, t.event).result == Ok(Resent(k))
    ensures HoldsFirmly(Step(s, t), k)
  {
    DrawnIdsAreNew(s, t);
  }

  /** Held rows are expired and so not live: a resend takes none of them. */
  lemma NewTicketTakesFreeRows(s: State, t: Timed, k: Ticket, old': Ticket)
    requires OnHold(s) && Admissible(s, t) && old' in s.tickets && k in NextTickets(s, t) && k !in s.tickets
    ensures NoneInCommon(k, old') && NoneInCommon(old', k)
  {
    assert HoldsFirmly(s, old');
    forall v | v in k.revoked ensures v !in old'.revoked {
      NewTicketsHoldLiveRows(s, t, k, v);
    }
  }

  lemma TicketsStayApart(s: State, t: Timed, t1: Ticket, t2: Ticket)
    requires OnlyDrawnIds(s) && OnHold(s) && Admissible(s, t) && t1 != t2
    requires t1 in NextTickets(s, t) && t2 in NextTickets(s, t)
    ensures HoldApart(Step(s, t).db.verifications, t1, t2)
  {
    if t1 in s.tickets && t2 in s.tickets {
      assert HoldApart(s.db.verifications, t1, t2);
      forall v | v in Step(s, t).db.verifications && v in t1.revoked ensures v !in t2.revoked {
        HeldRowStays(s, t, t1, v);
      }
    } else if t1 in s.tickets {
      NewTicketTakesFreeRows(s, t, t2, t1);
    } else {
      assert t2 in s.tickets;
      NewTicketTakesFreeRows(s, t, t1, t2);
    }
  }

  /** Every transaction keeps the holds of the outstanding tickets. */
  lemma StepKeepsHolds(s: State, t: Timed)
    requires OnlyDrawnIds(s) && OnHold(s) && Admissible(s, t)
    ensures OnHold(Step(s, t))
  {
    var s' := Step(s, t);
    forall k | k in s'.tickets ensures HoldsFirmly(s', k) {
      if k in s.tickets {
        OldTicketHoldsFirmly(s, t, k);
      } else {
        NewTicketHoldsFirmly(s, t, k);
      }
    }
    forall t1, t2 | t1 in s'.tickets && t2 in s'.tickets && t1 != t2 ensures HoldApart(s'.db.verifications, t1, t2) {
      TicketsStayApart(s, t, t1, t2);
    }
  }

  lemma {:induction false} RunKeepsHolds(s: State, run: seq<Timed>)
    requires Inv(s) && OnHold(s) && IsRun(s, run)
    ensures OnHold(Final(s, run))
    decreases |run|
  {
    if run != [] {
      StepKeepsInv(s, run[0]);
      StepKeepsHolds(s, run[0]);
      RunKeepsHolds(Step(s, run[0]), run[1..]);
    }
  }
}
