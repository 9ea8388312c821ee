/** Activation over whole runs: the columns agree, and each user is activated at most once. */
module Activation {
  import opened Base
  import opened Tables
  import opened Transactions
  import opened AuthRuns
  import opened AuthInvariants

  /** From an empty database, every reachable state tells one story about each user's verification. */
  lemma ReachableStatesAgree(clock: Time, run: seq<Timed>)
    requires IsRun(Start(clock), run)
    ensures var db := Final(Start(clock), run).db;
      && (forall u | u in db.users ::
            && (db.users[u].status == 1 <==> db.users[u].emailVerifiedAt.Some?)
            && (db.users[u].emailVerifiedAt.Some? <==>
                exists v :: v in db.verifications && db.verifications[v].userId == u
                            && db.verifications[v].verifiedAt.Some?))
      && (forall x | x in db.sessions ::
            db.sessions[x].userId in db.users && db.users[db.sessions[x].userId].emailVerifiedAt.Some?)
  {
    RunKeepsInv(Start(clock), run);
    var db := Final(Start(clock), run).db;
    forall u | u in db.users
      ensures db.users[u].emailVerifiedAt.Some? <==>
        exists v :: v in db.verifications && db.verifications[v].userId == u && db.verifications[v].verifiedAt.Some?
    {
      assert Agrees(db.users[u], u in VerifiedOwners(db.verifications));
    }
  }

  ghost predicate Pending(db: Db, u: Id) {
    u in db.users && db.users[u].emailVerifiedAt.None?
  }

  ghost predicate Active(db: Db, u: Id) {
    u in db.users && db.users[u].emailVerifiedAt.Some?
  }

  /** The answer `activatedNow` was true and it was about user `u`. */
  ghost predicate ActivatedNow(s: State, t: Timed, u: Id) {
    && Apply(s.db, t.now, t.event).result == Ok(Verified(true))
    && Pending(s.db, u)
    && Active(Step(s, t).db, u)
  }

  /** An answer of true is about exactly one user; any other answer activates nobody. */
  lemma AnswerNamesOneUser(s: State, t: Timed)
    requires Inv(s) && Admissible(s, t)
    ensures Apply(s.db, t.now, t.event).result == Ok(Verified(true)) <==> exists u :: ActivatedNow(s, t, u)
    ensures forall u, w | ActivatedNow(s, t, u) && ActivatedNow(s, t, w) :: u == w
    ensures forall u | Pending(s.db, u) && Active(Step(s, t).db, u) :: ActivatedNow(s, t, u)
  {
    if t.event.VerifyOtp? {
      var compared := ComparedOtp(s.db, t.event.email, t.now);
      if compared.Some? && Apply(s.db, t.now, t.event).result == Ok(Verified(true)) {
        assert ActivatedNow(s, t, s.db.verifications[compared.value].userId);
      }
    } else if t.event.VerifyMagic? {
      if Apply(s.db, t.now, t.event).result == Ok(Verified(true)) {
        var v :| IsOpenMagicLink(s.db.verifications, t.event.hash, v) && Apply(s.db, t.now, t.event) == Activate(s.db, v, t.now);
        assert ActivatedNow(s, t, s.db.verifications[v].userId);
      }
    } else {
      OtherStepsActivateNobody(s, t);
    }
  }

  lemma OtherStepsActivateNobody(s: State, t: Timed)
    requires OnlyDrawnIds(s) && Admissible(s, t) && !t.event.VerifyOtp? && !t.event.VerifyMagic?
    ensures Apply(s.db, t.now, t.event).result != Ok(Verified(true))
    ensures forall u | Pending(s.db, u) :: !Active(Step(s, t).db, u)
  {
    DrawnIdsAreNew(s, t);
  }

  lemma VerifyingKeepsActive(db: Db, now: Time, e: Event, u: Id)
    requires (e.VerifyOtp? || e.VerifyMagic?) && Active(db, u)
    ensures Active(Apply(db, now, e).db, u)
  {
    if e.VerifyOtp? {
      var newest := NewestOtp(db, e.email);
      assert newest.Some? ==> Active(Activate(db, newest.value, now).db, u);
    } else {
      assert forall v | IsOpenMagicLink(db.verifications, e.hash, v) :: Active(Activate(db, v, now).db, u);
    }
  }

  /** An active user is never deleted and never becomes pending again. */
  lemma ActiveStaysActive(s: State, t: Timed, u: Id)
    requires OnlyDrawnIds(s) && Admissible(s, t) && Active(s.db, u)
    ensures Active(Step(s, t).db, u)
  {
    DrawnIdsAreNew(s, t);
    if t.event.VerifyOtp? || t.event.VerifyMagic? {
      VerifyingKeepsActive(s.db, t.now, t.event, u);
    }
  }

  ghost function Activations(s: State, run: seq<Timed>, u: Id): nat
    decreases |run|
  {
    if run == [] then 0
    else (if ActivatedNow(s, run[0], u) then 1 else 0) + Activations(Step(s, run[0]), run[1..], u)
  }

  /** In any run from any consistent state, activatedNow is true at most once per user, never for an active one. */
  lemma {:induction false} ActivatedAtMostOnce(s: State, run: seq<Timed>, u: Id)
    requires Inv(s) && IsRun(s, run)
    ensures Activations(s, run, u) <= if Active(s.db, u) then 0 else 1
    decreases |run|
  {
    if run != [] {
      StepKeepsInv(s, run[0]);
      if Active(s.db, u) {
        ActiveStaysActive(s, run[0], u);
      }
      ActivatedAtMostOnce(Step(s, run[0]), run[1..], u);
    }
  }
}
