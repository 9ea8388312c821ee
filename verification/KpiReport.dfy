/** The counts of the KPI report, and that they partition the cohort on every reachable database. */
module KpiReport {
  import opened Base
  import opened Tables
  import opened AuthInvariants
  import opened Pipeline
  import opened Conservation

  // ----- the queries -----

  /** Users with at least one verification row. */
  ghost function Cohort(db: Db): set<Id> {
    set u | u in db.users && exists v :: v in db.verifications && db.verifications[v].userId == u
  }

  ghost function VerifiedUsers(db: Db): set<Id> {
    set u | u in Cohort(db) && db.users[u].emailVerifiedAt.Some?
  }

  /** The user has a verification e-mail whose history holds the status. */
  ghost predicate Reached(db: Db, u: Id, status: Status) {
    exists r, i :: r in db.records && db.records[r].userId == Some(u)
                   && 0 <= i < |Log(db, r)| && Log(db, r)[i].status == status
  }

  ghost predicate HasRecord(db: Db, u: Id) {
    exists r :: r in db.records && db.records[r].userId == Some(u)
  }

  ghost function UnverifiedWithoutSent(db: Db): set<Id> {
    set u | u in Cohort(db) && db.users[u].emailVerifiedAt.None? && HasRecord(db, u) && !Reached(db, u, Sent)
  }

  ghost function UnverifiedWithoutClick(db: Db): set<Id> {
    set u | u in Cohort(db) && db.users[u].emailVerifiedAt.None? && Reached(db, u, Sent) && !Reached(db, u, Clicked)
  }

  predicate VerifiedRowOf(rows: map<Id, Verification>, u: Id, v: Id) {
    v in rows && rows[v].userId == u && rows[v].verifiedAt.Some?
  }

  /** order by verified_at, id */
  predicate NotAfter(rows: map<Id, Verification>, v: Id, w: Id) {
    && v in rows && w in rows && rows[v].verifiedAt.Some? && rows[w].verifiedAt.Some?
    && (|| rows[v].verifiedAt.value < rows[w].verifiedAt.value
        || (rows[v].verifiedAt.value == rows[w].verifiedAt.value && v <= w))
  }

  /** distinct on (user_id): the user's first verified row. */
  ghost predicate IsFirstVerified(rows: map<Id, Verification>, u: Id, v: Id) {
    VerifiedRowOf(rows, u, v) && forall w | VerifiedRowOf(rows, u, w) :: NotAfter(rows, v, w)
  }

  /** The users whose first verified row is of this kind. */
  ghost function ActivatedBy(rows: map<Id, Verification>, kind: TokenType): set<Id> {
    set u | u in VerifiedOwners(rows) && exists v :: IsFirstVerified(rows, u, v) && rows[v].tokenType == kind
  }

  // ----- the first verified row -----

  /** A user with a verified row has exactly one first verified row. */
  lemma OneFirstRow(rows: map<Id, Verification>, u: Id) returns (v: Id)
    requires u in VerifiedOwners(rows)
    ensures IsFirstVerified(rows, u, v)
    ensures forall w | IsFirstVerified(rows, u, w) :: w == v
  {
    var own: set<Id> := set w | w in rows && VerifiedRowOf(rows, u, w);
    var w0 :| w0 in rows && rows[w0].verifiedAt.Some? && rows[w0].userId == u;
    assert w0 in own;
    v := LastOfSome(own, (a: Id, b: Id) => NotAfter(rows, b, a));
    assert forall w | VerifiedRowOf(rows, u, w) :: w in own;
    assert IsFirstVerified(rows, u, v);
    forall w | IsFirstVerified(rows, u, w) ensures w == v {
      assert NotAfter(rows, v, w) && NotAfter(rows, w, v);
    }
  }

  /** No verified row of the user is earlier, and of those at the same instant none has a smaller id. */
  lemma FirstRowIsEarliest(rows: map<Id, Verification>, u: Id, v: Id)
    requires IsFirstVerified(rows, u, v)
    ensures forall w: Id | w in rows && rows[w].userId == u && rows[w].verifiedAt.Some? ::
      && rows[v].verifiedAt.value <= rows[w].verifiedAt.value
      && (rows[w].verifiedAt == rows[v].verifiedAt ==> v <= w)
  {
    forall w: Id | w in rows && rows[w].userId == u && rows[w].verifiedAt.Some?
      ensures rows[v].verifiedAt.value <= rows[w].verifiedAt.value && (rows[w].verifiedAt == rows[v].verifiedAt ==> v <= w)
    {
      assert VerifiedRowOf(rows, u, w);
    }
  }

  /** Every verified owner is counted under exactly one kind. */
  lemma KindsPartitionOwners(rows: map<Id, Verification>)
    ensures ActivatedBy(rows, Otp) + ActivatedBy(rows, MagicLink) == VerifiedOwners(rows)
    ensures ActivatedBy(rows, Otp) !! ActivatedBy(rows, MagicLink)
  {
    forall u | u in VerifiedOwners(rows)
      ensures (u in ActivatedBy(rows, Otp)) != (u in ActivatedBy(rows, MagicLink))
    {
      var v := OneFirstRow(rows, u);
      assert u in ActivatedBy(rows, rows[v].tokenType);
    }
  }

  /** In a consistent database the owners of verified rows are the verified users of the cohort. */
  lemma OwnersAreVerifiedUsers(db: Db)
    requires Consistent(db)
    ensures VerifiedOwners(db.verifications) == VerifiedUsers(db)
  {
    forall u ensures u in VerifiedOwners(db.verifications) <==> u in VerifiedUsers(db) {
      assert u in db.users ==> Agrees(db.users[u], u in VerifiedOwners(db.verifications));
      if u in VerifiedOwners(db.verifications) {
        var v :| v in db.verifications && db.verifications[v].verifiedAt.Some? && db.verifications[v].userId == u;
        assert u in Cohort(db);
      }
    }
  }

  /** The per-method counts add up to the verified users. */
  lemma MethodsAddUp(db: Db)
    requires Consistent(db)
    ensures |ActivatedBy(db.verifications, Otp)| + |ActivatedBy(db.verifications, MagicLink)| == |VerifiedUsers(db)|
  {
    KindsPartitionOwners(db.verifications);
    OwnersAreVerifiedUsers(db);
    var otp, magic := ActivatedBy(db.verifications, Otp), ActivatedBy(db.verifications, MagicLink);
    assert |otp + magic| == |otp| + |magic|;
  }

  lemma DisjointPartsFit(a: set<Id>, b: set<Id>, whole: set<Id>)
    requires a !! b && a <= whole && b <= whole
    ensures |a| + |b| <= |whole|
  {
    assert |a + b| == |a| + |b|;
    assert whole == (a + b) + (whole - (a + b));
  }

  /** The two bottlenecks are disjoint sets of unverified users. */
  lemma BottlenecksAreDisjoint(db: Db)
    ensures UnverifiedWithoutSent(db) !! UnverifiedWithoutClick(db)
    ensures |UnverifiedWithoutSent(db)| + |UnverifiedWithoutClick(db)| <= |Cohort(db)| - |VerifiedUsers(db)|
  {
    var unverified := Cohort(db) - VerifiedUsers(db);
    DisjointPartsFit(UnverifiedWithoutSent(db), UnverifiedWithoutClick(db), unverified);
    assert Cohort(db) == VerifiedUsers(db) + unverified;
  }

  /** On every database that a run of the whole system can reach. */
  lemma ReportOnReachableDatabase(clock: Time, run: seq<TimedAction>)
    requires IsRunOf(StartSys(clock), run)
    ensures var db := End(StartSys(clock), run).auth.db;
      && |ActivatedBy(db.verifications, Otp)| + |ActivatedBy(db.verifications, MagicLink)| == |VerifiedUsers(db)|
      && |UnverifiedWithoutSent(db)| + |UnverifiedWithoutClick(db)| <= |Cohort(db)| - |VerifiedUsers(db)|
  {
    StartIsSound(clock);
    RunKeepsSysInv(StartSys(clock), run);
    MethodsAddUp(End(StartSys(clock), run).auth.db);
    BottlenecksAreDisjoint(End(StartSys(clock), run).auth.db);
  }
}
