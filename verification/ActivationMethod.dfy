/** The KPI report counts each user under the kind of token that activated the account. */
module ActivationMethod {
  import opened Base
  import opened Tables
  import opened Transactions
  import opened AuthRuns
  import opened AuthInvariants
  import opened Activation
  import opened RowSteps
  import opened TokenRoundTrips
  import opened KpiReport

  /** Row `v` verified the user at `at`, and every other verified row of the user is from `since` or later. */
  ghost predicate Leads(rows: map<Id, Verification>, u: Id, v: Id, kind: TokenType, at: Time, since: Time) {
    && v in rows && rows[v].userId == u && rows[v].tokenType == kind && rows[v].verifiedAt == Some(at)
    && (forall w | VerifiedRowOf(rows, u, w) && w != v :: since <= rows[w].verifiedAt.value)
  }

  // ----- the activation -----

  /** The row that answered the request. */
  ghost predicate Answers(s: State, t: Timed, v: Id) {
    match t.event
    case VerifyOtp(email, _) => ComparedOtp(s.db, email, t.now) == Some(v)
    case VerifyMagic(hash) => IsOpenMagicLink(s.db.verifications, hash, v)
    case _ => false
  }

  function KindOf(e: Event): TokenType {
    if e.VerifyOtp? then Otp else MagicLink
  }

  lemma ActivationHasRow(s: State, t: Timed, u: Id) returns (v: Id)
    requires OnlyDrawnIds(s) && Admissible(s, t) && ActivatedNow(s, t, u)
    ensures Answers(s, t, v) && v in s.db.verifications
    ensures s.db.verifications[v].userId == u && s.db.verifications[v].tokenType == KindOf(t.event)
    ensures Apply(s.db, t.now, t.event) == Activate(s.db, v, t.now)
  {
    if t.event.VerifyOtp? {
      v := ComparedOtp(s.db, t.event.email, t.now).value;
      ActivateNamesOwner(s.db, v, t.now, u);
    } else if t.event.VerifyMagic? {
      v :| IsOpenMagicLink(s.db.verifications, t.event.hash, v) && Apply(s.db, t.now, t.event) == Activate(s.db, v, t.now);
      ActivateNamesOwner(s.db, v, t.now, u);
    } else {
      OtherStepsActivateNobody(s, t);
    }
  }

  lemma PendingHasNoVerifiedRow(db: Db, u: Id, w: Id)
    requires Consistent(db) && Pending(db, u)
    ensures !VerifiedRowOf(db.verifications, u, w)
  {
    assert Agrees(db.users[u], u in VerifiedOwners(db.verifications));
  }

  lemma ActivateNamesOwner(db: Db, v: Id, now: Time, u: Id)
    requires v in db.verifications && Pending(db, u) && Active(Activate(db, v, now).db, u)
    ensures db.verifications[v].userId == u
  {
  }

  /** A user who was pending had no verified row before, so this one is the only one. */
  lemma ActivatingRowLeads(s: State, t: Timed, u: Id, since: Time) returns (v: Id)
    requires Inv(s) && Admissible(s, t) && ActivatedNow(s, t, u)
    ensures Answers(s, t, v) && Leads(Step(s, t).db.verifications, u, v, KindOf(t.event), t.now, since)
  {
    v := ActivationHasRow(s, t, u);
    forall w | VerifiedRowOf(Step(s, t).db.verifications, u, w) ensures w == v {
      PendingHasNoVerifiedRow(s.db, u, w);
    }
  }

  // ----- afterwards -----

  /** Rows are only ever verified at the current instant. */
  ghost predicate VerifiedNowOrBefore(rows: map<Id, Verification>, rows': map<Id, Verification>, now: Time) {
    forall w | w in rows' && rows'[w].verifiedAt.Some? ::
      || rows'[w].verifiedAt == Some(now)
      || (w in rows && rows[w].verifiedAt == rows'[w].verifiedAt && rows[w].userId == rows'[w].userId)
  }

  lemma NewRowsAreUnverified(rows: map<Id, Verification>, uid: Id, tokens: Tokens, now: Time, ids: NewRows)
    ensures VerifiedNowOrBefore(rows, WithVerification(rows, uid, tokens, now, ids), now)
  {
  }

  lemma ResendVerifiesNothing(db: Db, email: string, tokens: Tokens, now: Time, ids: NewRows)
    ensures VerifiedNowOrBefore(db.verifications, ResendVerification(db, email, tokens, now, ids).db.verifications, now)
  {
    var found := UserByEmail(db.users, email);
    if found.Some? {
      NewRowsAreUnverified(Revoke(db.verifications, found.value, now), found.value, tokens, now, ids);
    }
  }

  lemma OldRowsVerifyNow(s: State, t: Timed)
    requires OnlyDrawnIds(s) && Admissible(s, t) && DrawnIds(t.event) == []
    ensures VerifiedNowOrBefore(s.db.verifications, Step(s, t).db.verifications, t.now)
  {
    var rows, rows' := s.db.verifications, Step(s, t).db.verifications;
    TablesGrowByDrawnIds(s.db, t.now, t.event);
    forall w | w in rows' && rows'[w].verifiedAt.Some?
      ensures w in rows && rows'[w].userId == rows[w].userId
      ensures rows'[w].verifiedAt == Some(t.now) || rows'[w].verifiedAt == rows[w].verifiedAt
    {
      if t.event.VerifyOtp? {
        OtpStepTouchesComparedRow(s.db, t.event.email, t.event.hash, t.now, w);
      } else if t.event.VerifyMagic? {
        MagicStepTouchesLiveRow(s.db, t.event.hash, t.now, w);
      } else {
        OtherStepsMoveOnlyExpiry(s, t, w);
      }
    }
  }

  lemma StepVerifiesNow(s: State, t: Timed)
    requires OnlyDrawnIds(s) && Admissible(s, t)
    ensures VerifiedNowOrBefore(s.db.verifications, Step(s, t).db.verifications, t.now)
  {
    match t.event
    case Register(_, uid, tokens, ids) => NewRowsAreUnverified(s.db.verifications, uid, tokens, t.now, ids);
    case Create(uid, tokens, ids) => NewRowsAreUnverified(s.db.verifications, uid, tokens, t.now, ids);
    case Resend(email, tokens, ids) => ResendVerifiesNothing(s.db, email, tokens, t.now, ids);
    case _ =>
      if DrawnIds(t.event) == [] {
        OldRowsVerifyNow(s, t);
      } else {
        SessionEventsKeepRows(s.db, t.now, t.event);
      }
  }

  /** The verified row of an active user is never deleted and keeps its mark. */
  lemma VerifiedRowStays(s: State, t: Timed, u: Id, v: Id)
    requires OnlyDrawnIds(s) && Admissible(s, t) && Active(s.db, u) && VerifiedRowOf(s.db.verifications, u, v)
    ensures v in Step(s, t).db.verifications
    ensures OnlyExpiryMoves(s.db.verifications, Step(s, t).db.verifications, v)
  {
    DrawnIdsAreNew(s, t);
    match t.event
    case VerifyOtp(email, hash) => OtpStepTouchesComparedRow(s.db, email, hash, t.now, v);
    case VerifyMagic(hash) => MagicStepTouchesLiveRow(s.db, hash, t.now, v);
    case Resend(email, tokens, ids) => ResendMovesOnlyExpiry(s.db, email, tokens, t.now, ids, v);
    case _ => OtherStepsMoveOnlyExpiry(s, t, v);
  }

  lemma {:induction false} RunKeepsLead(
    s: State, run: seq<Timed>, u: Id, v: Id, kind: TokenType, at: Time, since: Time)
    requires OnlyDrawnIds(s) && IsRun(s, run) && Active(s.db, u) && Leads(s.db.verifications, u, v, kind, at, since)
    requires forall i | 0 <= i < |run| :: since <= run[i].now
    ensures Leads(Final(s, run).db.verifications, u, v, kind, at, since)
    decreases |run|
  {
    if run != [] {
      VerifiedRowStays(s, run[0], u, v);
      StepVerifiesNow(s, run[0]);
      StepKeepsDrawnIds(s, run[0]);
      ActiveStaysActive(s, run[0], u);
      RunKeepsLead(Step(s, run[0]), run[1..], u, v, kind, at, since);
    }
  }

  // ----- the time of the activation -----

  lemma VerifyingKeepsTime(db: Db, now: Time, e: Event, u: Id)
    requires (e.VerifyOtp? || e.VerifyMagic?) && Active(db, u)
    ensures u in Apply(db, now, e).db.users && Apply(db, now, e).db.users[u] == db.users[u]
  {
    if e.VerifyOtp? {
      var newest := NewestOtp(db, e.email);
      assert newest.Some? ==> Activate(db, newest.value, now).db.users[u] == db.users[u];
    } else {
      assert forall v | IsOpenMagicLink(db.verifications, e.hash, v) ::
        Activate(db, v, now).db.users[u] == db.users[u];
    }
  }

  lemma StepKeepsTime(s: State, t: Timed, u: Id)
    requires OnlyDrawnIds(s) && Admissible(s, t) && Active(s.db, u)
    ensures u in Step(s, t).db.users
    ensures Step(s, t).db.users[u].emailVerifiedAt == s.db.users[u].emailVerifiedAt
  {
    DrawnIdsAreNew(s, t);
    if t.event.VerifyOtp? || t.event.VerifyMagic? {
      VerifyingKeepsTime(s.db, t.now, t.event, u);
    }
  }

  lemma {:induction false} RunKeepsTime(s: State, run: seq<Timed>, u: Id)
    requires OnlyDrawnIds(s) && IsRun(s, run) && Active(s.db, u)
    ensures u in Final(s, run).db.users
    ensures Final(s, run).db.users[u].emailVerifiedAt == s.db.users[u].emailVerifiedAt
    decreases |run|
  {
    if run != [] {
      StepKeepsTime(s, run[0], u);
      StepKeepsDrawnIds(s, run[0]);
      RunKeepsTime(Step(s, run[0]), run[1..], u);
    }
  }

  /** In every continuation, the user counts as verified since the instant of the activation. */
  lemma VerifiedSinceActivation(s: State, t: Timed, run: seq<Timed>, u: Id)
    requires Inv(s) && Admissible(s, t) && ActivatedNow(s, t, u) && IsRun(Step(s, t), run)
    ensures u in Final(Step(s, t), run).db.users
    ensures Final(Step(s, t), run).db.users[u].emailVerifiedAt == Some(t.now)
  {
    var _ := ActivationHasRow(s, t, u);
    StepKeepsDrawnIds(s, t);
    RunKeepsTime(Step(s, t), run, u);
  }

  // ----- the row of the activation -----

  lemma {:induction false} RunIsLater(s: State, run: seq<Timed>, i: nat)
    requires IsRun(s, run) && i < |run|
    ensures s.clock <= run[i].now
    decreases i
  {
    if i > 0 {
      RunIsLater(Step(s, run[0]), run[1..], i - 1);
    }
  }

  lemma LeaderIsFirstExactlyWhen(rows: map<Id, Verification>, u: Id, v: Id, kind: TokenType, at: Time)
    requires Leads(rows, u, v, kind, at, at)
    ensures forall w | VerifiedRowOf(rows, u, w) :: at <= rows[w].verifiedAt.value
    ensures IsFirstVerified(rows, u, v)
      <==> forall w: Id | VerifiedRowOf(rows, u, w) && rows[w].verifiedAt == Some(at) :: v <= w
    ensures IsFirstVerified(rows, u, v) ==> u in ActivatedBy(rows, kind)
  {
    assert VerifiedRowOf(rows, u, v);
    if forall w: Id | VerifiedRowOf(rows, u, w) && rows[w].verifiedAt == Some(at) :: v <= w {
      assert IsFirstVerified(rows, u, v);
    }
  }

  /**
   From the activation on, the user's first verified row is the one that answered it, in every run, unless another row
   of the user is verified at the very same instant and has a smaller id.
   */
  lemma FirstRowIsTheActivatingOneExactlyWhen(s: State, t: Timed, run: seq<Timed>, u: Id) returns (v: Id)
    requires Inv(s) && Admissible(s, t) && ActivatedNow(s, t, u) && IsRun(Step(s, t), run)
    ensures Answers(s, t, v)
    ensures var rows := Final(Step(s, t), run).db.verifications;
      && (forall w | VerifiedRowOf(rows, u, w) :: t.now <= rows[w].verifiedAt.value)
      && (IsFirstVerified(rows, u, v)
          <==> forall w: Id | VerifiedRowOf(rows, u, w) && rows[w].verifiedAt == Some(t.now) :: v <= w)
      && (IsFirstVerified(rows, u, v) ==> u in ActivatedBy(rows, KindOf(t.event)))
  {
    v := ActivatingRowLeads(s, t, u, t.now);
    StepKeepsInv(s, t);
    forall i | 0 <= i < |run| ensures t.now <= run[i].now {
      RunIsLater(Step(s, t), run, i);
    }
    RunKeepsLead(Step(s, t), run, u, v, KindOf(t.event), t.now, t.now);
    LeaderIsFirstExactlyWhen(Final(Step(s, t), run).db.verifications, u, v, KindOf(t.event), t.now);
  }

  /** Once the clock has moved on, the report counts the user under the kind of token that activated the account. */
  lemma CountedUnderActivatingKind(s: State, t: Timed, run: seq<Timed>, u: Id)
    requires Inv(s) && Admissible(s, t) && ActivatedNow(s, t, u) && IsRun(Step(s, t), run)
    requires forall i | 0 <= i < |run| :: t.now < run[i].now
    ensures var rows := Final(Step(s, t), run).db.verifications;
      forall kind :: u in ActivatedBy(rows, kind) <==> kind == KindOf(t.event)
  {
    var v := ActivatingRowLeads(s, t, u, t.now + 1);
    StepKeepsInv(s, t);
    RunKeepsLead(Step(s, t), run, u, v, KindOf(t.event), t.now, t.now + 1);
    LeaderIsFirstExactlyWhen(Final(Step(s, t), run).db.verifications, u, v, KindOf(t.event), t.now);
    FirstRowCounts(Final(Step(s, t), run).db.verifications, u, v);
  }

  // ----- both tokens at the same instant -----

  lemma UniqueAfterMark(rows: map<Id, Verification>, v: Id, now: Time)
    requires v in rows && UniqueMagicHashes(rows)
    ensures UniqueMagicHashes(rows[v := rows[v].(verifiedAt := Some(now))])
  {
    var rows' := rows[v := rows[v].(verifiedAt := Some(now))];
    assert forall a | a in rows' ::
      a in rows && rows'[a].tokenType == rows[a].tokenType && rows'[a].tokenHash == rows[a].tokenHash;
  }

  lemma BothTokensAtOnce(
    db: Db, email: string, u: Id, v: Id, w: Id, otpHash: string, magicHash: string, expiresAt: Time, now: Time)
    requires Consistent(db) && UniqueMagicHashes(db.verifications) && IsNewestOtp(db, email, v) && w < v && now < expiresAt
    requires Issued(db, v, otpHash, Otp, expiresAt) && Issued(db, w, magicHash, MagicLink, expiresAt)
    requires db.verifications[v].userId == u && db.verifications[w].userId == u
    ensures VerifyEmailOtp(db, email, otpHash, now) == Activate(db, v, now)
    ensures VerifyMagicLink(Activate(db, v, now).db, magicHash, now) == Activate(Activate(db, v, now).db, w, now)
    ensures IsFirstVerified(Activate(Activate(db, v, now).db, w, now).db.verifications, u, w)
  {
    NewestDecides(db, email, v);
    var db1 := Activate(db, v, now).db;
    UniqueAfterMark(db.verifications, v, now);
    OpenLinkDecides(db1, w, magicHash, now);
    var rows := Activate(db1, w, now).db.verifications;
    forall x: Id | VerifiedRowOf(rows, u, x) ensures x == v || x == w {
      PendingHasNoVerifiedRow(db, u, x);
    }
  }

  /**
   A registration whose link row draws the smaller id: when OTP and link are presented at one instant, in this order,
   the OTP activates the account and the report counts the link.
   */
  lemma SameInstantLinkTakesTheCount(s: State, t: Timed, now: Time)
    requires Inv(s) && Admissible(s, t) && t.event.Register? && Apply(s.db, t.now, t.event).result.Ok?
    requires t.event.ids.magicId < t.event.ids.otpId && t.now <= now < t.event.tokens.expiresAt
    ensures var e, s1 := t.event, Step(s, t);
      var t1, t2 := At(now, VerifyOtp(e.email, e.tokens.otpHash)), At(now, VerifyMagic(e.tokens.magicHash));
      && Admissible(s1, t1) && Admissible(Step(s1, t1), t2) && ActivatedNow(s1, t1, e.uid)
      && (forall kind :: e.uid in ActivatedBy(Step(Step(s1, t1), t2).db.verifications, kind) <==> kind == MagicLink)
  {
    var e, s1 := t.event, Step(s, t);
    var s2 := Step(s1, At(now, VerifyOtp(e.email, e.tokens.otpHash)));
    var rows := Step(s2, At(now, VerifyMagic(e.tokens.magicHash))).db.verifications;
    StepKeepsInv(s, t);
    RegistrationIssues(s, t);
    RegisteredIsWaiting(s, t);
    BothTokensAtOnce(
      s1.db, e.email, e.uid, e.ids.otpId, e.ids.magicId, e.tokens.otpHash, e.tokens.magicHash, e.tokens.expiresAt, now);
    FirstRowCounts(rows, e.uid, e.ids.magicId);
  }

  lemma FirstRowCounts(rows: map<Id, Verification>, u: Id, v: Id)
    requires IsFirstVerified(rows, u, v)
    ensures forall kind :: u in ActivatedBy(rows, kind) <==> kind == rows[v].tokenType
  {
    assert VerifiedRowOf(rows, u, v);
    KindsPartitionOwners(rows);
  }
}
