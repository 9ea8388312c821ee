/**
 Refresh sessions over whole runs. The table is shown to be, at every moment, a set of rotation chains:
 one chain per login, each session on exactly one chain, `replaced_by` pointing to the next on the chain.
 */
module SessionChains {
  import opened Base
  import opened Tables
  import opened Transactions
  import opened AuthRuns
  import opened AuthInvariants

  // ----- the table as a set of chains -----

  /** Where a session sits: on which chain, and how many rotations after its login. */
  datatype Place = Place(chain: nat, index: nat)

  /** The link out of `x` leads to the next place of its chain; without a link, `x` is the last there. */
  ghost predicate LinkFits(places: map<Id, Place>, sessions: map<Id, Session>, x: Id)
    requires x in places && x in sessions && places.Keys == sessions.Keys
  {
    match sessions[x].replacedBy
    case Some(y) =>
      y in sessions && places[y] == Place(places[x].chain, places[x].index + 1) && sessions[x].revokedAt.Some?
    case None =>
      forall y | y in places && places[y].chain == places[x].chain :: places[y].index <= places[x].index
  }

  ghost predicate OneUserPerChain(places: map<Id, Place>, sessions: map<Id, Session>)
    requires places.Keys == sessions.Keys
  {
    forall x, y | x in places && y in places && places[x].chain == places[y].chain ::
      sessions[x].userId == sessions[y].userId
  }

  ghost predicate NoSharing(places: map<Id, Place>) {
    forall x, y | x in places && y in places && places[x] == places[y] :: x == y
  }

  /** A session that is not the first of its chain was put there by a rotation. */
  ghost predicate HasPredecessor(places: map<Id, Place>, sessions: map<Id, Session>, x: Id)
    requires x in places
  {
    places[x].index > 0 ==> exists w :: w in sessions && sessions[w].replacedBy == Some(x)
  }

  ghost predicate Begins(places: map<Id, Place>, chain: nat) {
    exists x :: x in places && places[x] == Place(chain, 0)
  }

  ghost predicate AllBegin(places: map<Id, Place>, chains: nat) {
    forall c: nat | c < chains :: Begins(places, c)
  }

  ghost predicate OnChains(places: map<Id, Place>, chains: nat) {
    forall x | x in places :: places[x].chain < chains
  }

  ghost predicate AllFit(places: map<Id, Place>, sessions: map<Id, Session>)
    requires places.Keys == sessions.Keys
  {
    && (forall x {:trigger LinkFits(places, sessions, x)} | x in places :: LinkFits(places, sessions, x))
    && (forall x {:trigger HasPredecessor(places, sessions, x)} | x in places :: HasPredecessor(places, sessions, x))
  }

  ghost predicate Represents(places: map<Id, Place>, chains: nat, sessions: map<Id, Session>) {
    && places.Keys == sessions.Keys
    && OnChains(places, chains)
    && AllBegin(places, chains)
    && NoSharing(places)
    && OneUserPerChain(places, sessions)
    && AllFit(places, sessions)
  }

  /** The sessions form exactly `chains` disjoint simple chains. */
  ghost predicate InChains(sessions: map<Id, Session>, chains: nat) {
    exists places :: Represents(places, chains, sessions)
  }

  // ----- each operation keeps the chains -----

  lemma LoginKeepsLinks(sessions: map<Id, Session>, places: map<Id, Place>, chains: nat, x: Id, session: Session, y: Id)
    requires Represents(places, chains, sessions) && x !in sessions && session.replacedBy.None? && y in places
    ensures LinkFits(places[x := Place(chains, 0)], sessions[x := session], y)
    ensures HasPredecessor(places[x := Place(chains, 0)], sessions[x := session], y)
  {
    assert LinkFits(places, sessions, y) && HasPredecessor(places, sessions, y);
    PredecessorStays(places, sessions, sessions[x := session], y);
  }

  lemma ChainsStillBegin(places: map<Id, Place>, places': map<Id, Place>, chains: nat)
    requires AllBegin(places, chains) && forall y | y in places :: y in places' && places'[y] == places[y]
    ensures AllBegin(places', chains)
  {
    forall c: nat | c < chains ensures Begins(places', c) {
      assert Begins(places, c);
    }
  }

  lemma LoginSharesNothing(sessions: map<Id, Session>, places: map<Id, Place>, chains: nat, x: Id, session: Session)
    requires Represents(places, chains, sessions) && x !in sessions
    ensures var places' := places[x := Place(chains, 0)];
      NoSharing(places') && OneUserPerChain(places', sessions[x := session]) && AllBegin(places', chains + 1)
  {
    var places' := places[x := Place(chains, 0)];
    ChainsStillBegin(places, places', chains);
    assert places'[x] == Place(chains, 0);
    assert Begins(places', chains);
  }

  /** A session without a link that sits highest on its chain fits there. */
  lemma LastFits(places: map<Id, Place>, sessions: map<Id, Session>, x: Id)
    requires places.Keys == sessions.Keys && x in places && sessions[x].replacedBy.None?
    requires forall y | y in places && places[y].chain == places[x].chain :: places[y].index <= places[x].index
    ensures LinkFits(places, sessions, x)
  {
  }

  /** A login starts a chain of its own. */
  lemma LoginStartsChain(sessions: map<Id, Session>, places: map<Id, Place>, chains: nat, x: Id, session: Session)
    requires Represents(places, chains, sessions) && x !in sessions && session.replacedBy.None?
    ensures Represents(places[x := Place(chains, 0)], chains + 1, sessions[x := session])
  {
    var places', sessions' := places[x := Place(chains, 0)], sessions[x := session];
    LastFits(places', sessions', x);
    forall y | y in places' ensures LinkFits(places', sessions', y) && HasPredecessor(places', sessions', y) {
      if y != x {
        LoginKeepsLinks(sessions, places, chains, x, session, y);
      }
    }
    LoginSharesNothing(sessions, places, chains, x, session);
  }

  lemma PredecessorStays(places: map<Id, Place>, sessions: map<Id, Session>, sessions': map<Id, Session>, y: Id)
    requires y in places && HasPredecessor(places, sessions, y)
    requires forall w | w in sessions && sessions[w].replacedBy == Some(y) :: w in sessions' && sessions'[w].replacedBy == Some(y)
    ensures HasPredecessor(places, sessions', y)
  {
    if places[y].index > 0 {
      var w :| w in sessions && sessions[w].replacedBy == Some(y);
      assert w in sessions' && sessions'[w].replacedBy == Some(y);
    }
  }

  lemma RotationKeepsLinks(
    sessions: map<Id, Session>, places: map<Id, Place>, chains: nat, o: Id, old': Session, x: Id, session: Session, y: Id)
    requires Represents(places, chains, sessions) && x !in sessions && o in sessions && y in places
    requires sessions[o].replacedBy.None? && old'.revokedAt.Some? && old'.replacedBy == Some(x)
    ensures var places' := places[x := Place(places[o].chain, places[o].index + 1)];
      LinkFits(places', sessions[x := session][o := old'], y)
      && HasPredecessor(places', sessions[x := session][o := old'], y)
  {
    assert LinkFits(places, sessions, o);
    assert LinkFits(places, sessions, y) && HasPredecessor(places, sessions, y);
    PredecessorStays(places, sessions, sessions[x := session][o := old'], y);
  }

  lemma RotationSharesNothing(
    sessions: map<Id, Session>, places: map<Id, Place>, chains: nat, o: Id, old': Session, x: Id, session: Session)
    requires Represents(places, chains, sessions) && x !in sessions && o in sessions && sessions[o].replacedBy.None?
    requires old'.userId == sessions[o].userId && session.userId == sessions[o].userId
    ensures var places' := places[x := Place(places[o].chain, places[o].index + 1)];
      NoSharing(places') && OneUserPerChain(places', sessions[x := session][o := old'])
  {
    assert LinkFits(places, sessions, o);
  }

  /** The new session ends the chain of the old one. */
  lemma RotationEndsChain(
    sessions: map<Id, Session>, places: map<Id, Place>, chains: nat, o: Id, old': Session, x: Id, session: Session)
    requires Represents(places, chains, sessions) && x !in sessions && o in sessions && sessions[o].replacedBy.None?
    requires old'.replacedBy == Some(x) && session.replacedBy.None?
    ensures var places' := places[x := Place(places[o].chain, places[o].index + 1)];
      LinkFits(places', sessions[x := session][o := old'], x)
      && HasPredecessor(places', sessions[x := session][o := old'], x)
  {
    assert LinkFits(places, sessions, o);
    assert sessions[x := session][o := old'][o].replacedBy == Some(x);
  }

  lemma RotationLinksFit(
    sessions: map<Id, Session>, places: map<Id, Place>, chains: nat, o: Id, old': Session, x: Id, session: Session)
    requires Represents(places, chains, sessions) && x !in sessions && o in sessions && sessions[o].replacedBy.None?
    requires old'.revokedAt.Some? && old'.replacedBy == Some(x) && session.replacedBy.None?
    ensures AllFit(places[x := Place(places[o].chain, places[o].index + 1)], sessions[x := session][o := old'])
  {
    var places' := places[x := Place(places[o].chain, places[o].index + 1)];
    var sessions' := sessions[x := session][o := old'];
    RotationEndsChain(sessions, places, chains, o, old', x, session);
    forall y | y in places' && y != x ensures LinkFits(places', sessions', y) && HasPredecessor(places', sessions', y) {
      RotationKeepsLinks(sessions, places, chains, o, old', x, session, y);
    }
  }

  /** A rotation lengthens the chain that ends in the old session. */
  lemma RotationExtendsChain(
    sessions: map<Id, Session>, places: map<Id, Place>, chains: nat, o: Id, old': Session, x: Id, session: Session)
    requires Represents(places, chains, sessions) && x !in sessions && o in sessions
    requires sessions[o].replacedBy.None?
    requires old'.userId == sessions[o].userId && old'.revokedAt.Some? && old'.replacedBy == Some(x)
    requires session.userId == sessions[o].userId && session.replacedBy.None?
    ensures Represents(
      places[x := Place(places[o].chain, places[o].index + 1)], chains, sessions[x := session][o := old'])
  {
    var places' := places[x := Place(places[o].chain, places[o].index + 1)];
    RotationLinksFit(sessions, places, chains, o, old', x, session);
    RotationSharesNothing(sessions, places, chains, o, old', x, session);
    ChainsStillBegin(places, places', chains);
    assert OnChains(places', chains);
  }

  /** Revoking sessions leaves every chain as it is. */
  lemma RevokingKeepsChains(
    sessions: map<Id, Session>, sessions': map<Id, Session>, places: map<Id, Place>, chains: nat)
    requires Represents(places, chains, sessions) && sessions'.Keys == sessions.Keys
    requires forall x | x in sessions ::
      && sessions'[x].userId == sessions[x].userId && sessions'[x].replacedBy == sessions[x].replacedBy
      && (sessions[x].revokedAt.Some? ==> sessions'[x].revokedAt.Some?)
    ensures Represents(places, chains, sessions')
  {
    forall y | y in places ensures LinkFits(places, sessions', y) && HasPredecessor(places, sessions', y) {
      assert LinkFits(places, sessions, y) && HasPredecessor(places, sessions, y);
      PredecessorStays(places, sessions, sessions', y);
    }
  }

  /** A rotation that is accepted replaces one unrevoked session; any other leaves the table alone. */
  lemma RotateShape(db: Db, oldHash: string, newHash: string, expiresAt: Time, now: Time, x: Id)
    returns (o: Id, old': Session, session: Session)
    ensures var out := RotateRefreshToken(db, oldHash, newHash, expiresAt, now, x);
      if out.result.Ok? then
        && o in db.sessions && db.sessions[o].revokedAt.None? && db.sessions[o].tokenHash == oldHash
        && old' == db.sessions[o].(revokedAt := Some(now), replacedBy := Some(x))
        && session == Session(db.sessions[o].userId, newHash, expiresAt, None, None)
        && out.db.sessions == db.sessions[x := session][o := old']
      else out.db.sessions == db.sessions
  {
    if RotateRefreshToken(db, oldHash, newHash, expiresAt, now, x).result.Ok? {
      o := SessionByHash(db.sessions, oldHash).value;
      old' := db.sessions[o].(revokedAt := Some(now), replacedBy := Some(x));
      session := Session(db.sessions[o].userId, newHash, expiresAt, None, None);
    } else {
      o, old', session := 0, Session(0, "", 0, None, None), Session(0, "", 0, None, None);
    }
  }

  lemma RotateKeepsChains(
    db: Db, oldHash: string, newHash: string, expiresAt: Time, now: Time, x: Id, places: map<Id, Place>, chains: nat)
    returns (places': map<Id, Place>)
    requires Represents(places, chains, db.sessions) && x !in db.sessions
    ensures Represents(places', chains, RotateRefreshToken(db, oldHash, newHash, expiresAt, now, x).db.sessions)
  {
    var o, old', session := RotateShape(db, oldHash, newHash, expiresAt, now, x);
    if RotateRefreshToken(db, oldHash, newHash, expiresAt, now, x).result.Ok? {
      assert LinkFits(places, db.sessions, o);
      RotationExtendsChain(db.sessions, places, chains, o, old', x, session);
      places' := places[x := Place(places[o].chain, places[o].index + 1)];
    } else {
      places' := places;
    }
  }

  lemma LoginKeepsChains(
    db: Db, email: string, passwordOk: bool, hash: string, expiresAt: Time, x: Id, places: map<Id, Place>, chains: nat)
    returns (places': map<Id, Place>)
    requires Represents(places, chains, db.sessions) && x !in db.sessions
    ensures var out := Login(db, email, passwordOk, hash, expiresAt, x);
      Represents(places', chains + if out.result.Ok? then 1 else 0, out.db.sessions)
  {
    if Login(db, email, passwordOk, hash, expiresAt, x).result.Ok? {
      var u := UserByEmail(db.users, email).value;
      LoginStartsChain(db.sessions, places, chains, x, Session(u, hash, expiresAt, None, None));
      places' := places[x := Place(chains, 0)];
    } else {
      places' := places;
    }
  }

  lemma LogoutKeepsChains(sessions: map<Id, Session>, hash: string, now: Time, places: map<Id, Place>, chains: nat)
    requires Represents(places, chains, sessions)
    ensures Represents(places, chains, RevokeToken(sessions, hash, now))
  {
    RevokingKeepsChains(sessions, RevokeToken(sessions, hash, now), places, chains);
  }

  lemma LogoutAllKeepsChains(sessions: map<Id, Session>, u: Id, now: Time, places: map<Id, Place>, chains: nat)
    requires Represents(places, chains, sessions)
    ensures Represents(places, chains, RevokeUser(sessions, u, now))
  {
    RevokingKeepsChains(sessions, RevokeUser(sessions, u, now), places, chains);
  }

  lemma OtherTransactionsKeepSessions(db: Db, now: Time, e: Event)
    requires !e.LogIn? && !e.Rotate? && !e.Logout? && !e.LogoutAll? && !e.Cleanup?
    ensures Apply(db, now, e).db.sessions == db.sessions
  {
    match e
    case VerifyOtp(_, _) =>
    case VerifyMagic(_) =>
    case _ =>
  }

  lemma OtherStepsKeepSessions(s: State, t: Timed)
    requires Consistent(s.db) && !t.event.LogIn? && !t.event.Rotate? && !t.event.Logout? && !t.event.LogoutAll?
    ensures Step(s, t).db.sessions == s.db.sessions
  {
    if t.event.Cleanup? {
      CleanupKeepsConsistent(s.db, t.event.uid);
    } else {
      OtherTransactionsKeepSessions(s.db, t.now, t.event);
    }
  }

  ghost predicate SomeLogin(s: State, t: Timed) {
    t.event.LogIn? && Apply(s.db, t.now, t.event).result.Ok?
  }

  lemma StepKeepsChains(s: State, t: Timed, places: map<Id, Place>, chains: nat) returns (places': map<Id, Place>)
    requires Inv(s) && Admissible(s, t) && Represents(places, chains, s.db.sessions)
    ensures Represents(places', chains + if SomeLogin(s, t) then 1 else 0, Step(s, t).db.sessions)
  {
    DrawnIdsAreNew(s, t);
    places' := places;
    match t.event
    case LogIn(email, ok, hash, expiresAt, x) =>
      places' := LoginKeepsChains(s.db, email, ok, hash, expiresAt, x, places, chains);
    case Rotate(oldHash, newHash, expiresAt, x) =>
      places' := RotateKeepsChains(s.db, oldHash, newHash, expiresAt, t.now, x, places, chains);
    case Logout(hash) => LogoutKeepsChains(s.db.sessions, hash, t.now, places, chains);
    case LogoutAll(uid) => LogoutAllKeepsChains(s.db.sessions, uid, t.now, places, chains);
    case _ => OtherStepsKeepSessions(s, t);
  }

  ghost function AllLogins(s: State, run: seq<Timed>): nat
    decreases |run|
  {
    if run == [] then 0 else (if SomeLogin(s, run[0]) then 1 else 0) + AllLogins(Step(s, run[0]), run[1..])
  }

  lemma {:induction false} RunKeepsChains(s: State, run: seq<Timed>, places: map<Id, Place>, chains: nat)
    returns (places': map<Id, Place>)
    requires Inv(s) && Represents(places, chains, s.db.sessions) && IsRun(s, run)
    ensures Represents(places', chains + AllLogins(s, run), Final(s, run).db.sessions)
    decreases |run|
  {
    if run == [] {
      places' := places;
    } else {
      StepKeepsInv(s, run[0]);
      places' := StepKeepsChains(s, run[0], places, chains);
      places' := RunKeepsChains(Step(s, run[0]), run[1..], places', chains + if SomeLogin(s, run[0]) then 1 else 0);
    }
  }

  /** In every state reachable from the empty database, the sessions form one chain per login. */
  lemma ReachableSessionsFormChains(clock: Time, run: seq<Timed>)
    requires IsRun(Start(clock), run)
    ensures InChains(Final(Start(clock), run).db.sessions, AllLogins(Start(clock), run))
  {
    var places := RunKeepsChains(Start(clock), run, map[], 0);
    assert Represents(places, AllLogins(Start(clock), run), Final(Start(clock), run).db.sessions);
  }

  // ----- what the chains mean for anyone following replaced_by -----

  /** A walk along replaced_by. */
  ghost predicate IsWalk(sessions: map<Id, Session>, walk: seq<Id>) {
    && (forall n | 0 <= n < |walk| :: walk[n] in sessions)
    && forall n | 0 <= n < |walk| - 1 :: sessions[walk[n]].replacedBy == Some(walk[n + 1])
  }

  /** Each step of a walk leads one place further on the same chain. */
  lemma {:induction false} WalkStaysOnChain(
    sessions: map<Id, Session>, places: map<Id, Place>, chains: nat, walk: seq<Id>, m: nat, n: nat)
    requires Represents(places, chains, sessions) && IsWalk(sessions, walk) && m <= n < |walk|
    ensures places[walk[n]] == Place(places[walk[m]].chain, places[walk[m]].index + n - m)
    ensures m < n ==> sessions[walk[m]].revokedAt.Some?
    decreases n - m
  {
    if m < n {
      assert LinkFits(places, sessions, walk[m]);
      assert sessions[walk[m]].replacedBy == Some(walk[m + 1]);
      WalkStaysOnChain(sessions, places, chains, walk, m + 1, n);
    }
  }

  /**
   Following replaced_by never comes back to a session already seen, never changes the user, and meets an
   unrevoked session only at its very end.
   */
  lemma WalksAreSimple(sessions: map<Id, Session>, chains: nat, walk: seq<Id>)
    requires InChains(sessions, chains) && IsWalk(sessions, walk)
    ensures forall m, n | 0 <= m < n < |walk| ::
      && walk[m] != walk[n]
      && sessions[walk[m]].userId == sessions[walk[n]].userId
      && sessions[walk[m]].revokedAt.Some?
  {
    var places :| Represents(places, chains, sessions);
    forall m, n | 0 <= m < n < |walk|
      ensures walk[m] != walk[n] && sessions[walk[m]].userId == sessions[walk[n]].userId
      ensures sessions[walk[m]].revokedAt.Some?
    {
      WalkStaysOnChain(sessions, places, chains, walk, m, n);
    }
  }

  /** No two sessions were replaced by the same one. */
  lemma OnePredecessor(sessions: map<Id, Session>, chains: nat, a: Id, b: Id)
    requires InChains(sessions, chains) && a in sessions && b in sessions
    requires sessions[a].replacedBy.Some? && sessions[a].replacedBy == sessions[b].replacedBy
    ensures a == b
  {
    var places :| Represents(places, chains, sessions);
    assert LinkFits(places, sessions, a) && LinkFits(places, sessions, b);
    assert places[a] == places[b];
  }

  // ----- counting over runs -----

  ghost predicate LogsIn(s: State, t: Timed, u: Id) {
    t.event.LogIn? && Apply(s.db, t.now, t.event).result == Ok(LoggedIn(u))
  }

  ghost predicate RotatesFor(s: State, t: Timed, u: Id) {
    t.event.Rotate? && Apply(s.db, t.now, t.event).result == Ok(Rotated(u))
  }

  ghost function Logins(s: State, run: seq<Timed>, u: Id): nat
    decreases |run|
  {
    if run == [] then 0
    else (if LogsIn(s, run[0], u) then 1 else 0) + Logins(Step(s, run[0]), run[1..], u)
  }

  lemma ReplacementConserves(sessions: map<Id, Session>, o: Id, old': Session, x: Id, session: Session, u: Id)
    requires o in sessions && x !in sessions && sessions[o].revokedAt.None?
    requires old'.userId == session.userId == sessions[o].userId && old'.revokedAt.Some? && session.revokedAt.None?
    ensures |Unrevoked(sessions[x := session][o := old'], u)| == |Unrevoked(sessions, u)|
  {
    var sessions' := sessions[x := session][o := old'];
    if session.userId == u {
      assert Unrevoked(sessions', u) == Unrevoked(sessions, u) - {o} + {x};
    } else {
      assert Unrevoked(sessions', u) == Unrevoked(sessions, u);
    }
  }

  /** A rotation replaces one unrevoked session of the user by another. */
  lemma RotationConserves(db: Db, oldHash: string, newHash: string, expiresAt: Time, now: Time, x: Id, u: Id)
    requires x !in db.sessions
    ensures var sessions' := RotateRefreshToken(db, oldHash, newHash, expiresAt, now, x).db.sessions;
      |Unrevoked(sessions', u)| == |Unrevoked(db.sessions, u)|
  {
    var o, old', session := RotateShape(db, oldHash, newHash, expiresAt, now, x);
    if RotateRefreshToken(db, oldHash, newHash, expiresAt, now, x).result.Ok? {
      ReplacementConserves(db.sessions, o, old', x, session, u);
    }
  }

  lemma LoginAddsOne(db: Db, email: string, passwordOk: bool, hash: string, expiresAt: Time, x: Id, u: Id)
    requires x !in db.sessions
    ensures var out := Login(db, email, passwordOk, hash, expiresAt, x);
      |Unrevoked(out.db.sessions, u)| == |Unrevoked(db.sessions, u)| + if out.result == Ok(LoggedIn(u)) then 1 else 0
  {
    var out := Login(db, email, passwordOk, hash, expiresAt, x);
    if out.result == Ok(LoggedIn(u)) {
      assert Unrevoked(out.db.sessions, u) == Unrevoked(db.sessions, u) + {x};
    } else {
      assert Unrevoked(out.db.sessions, u) == Unrevoked(db.sessions, u);
    }
  }

  lemma SubsetIsNoLarger(a: set<Id>, b: set<Id>)
    requires a <= b
    ensures |a| <= |b|
  {
    assert b == a + (b - a);
  }

  lemma StepAddsAtMostItsLogin(s: State, t: Timed, u: Id)
    requires Inv(s) && Admissible(s, t)
    ensures |Unrevoked(Step(s, t).db.sessions, u)|
      <= |Unrevoked(s.db.sessions, u)| + if LogsIn(s, t, u) then 1 else 0
  {
    DrawnIdsAreNew(s, t);
    match t.event
    case LogIn(email, ok, hash, expiresAt, x) => LoginAddsOne(s.db, email, ok, hash, expiresAt, x, u);
    case Rotate(oldHash, newHash, expiresAt, x) => RotationConserves(s.db, oldHash, newHash, expiresAt, t.now, x, u);
    case Logout(hash) =>
      SubsetIsNoLarger(Unrevoked(RevokeToken(s.db.sessions, hash, t.now), u), Unrevoked(s.db.sessions, u));
    case LogoutAll(w) =>
      SubsetIsNoLarger(Unrevoked(RevokeUser(s.db.sessions, w, t.now), u), Unrevoked(s.db.sessions, u));
    case _ => OtherStepsKeepSessions(s, t);
  }

  /** A user never has more unrevoked sessions than logins. */
  lemma {:induction false} UnrevokedAtMostLogins(s: State, run: seq<Timed>, u: Id)
    requires Inv(s) && IsRun(s, run)
    ensures |Unrevoked(Final(s, run).db.sessions, u)| <= |Unrevoked(s.db.sessions, u)| + Logins(s, run, u)
    decreases |run|
  {
    if run != [] {
      StepKeepsInv(s, run[0]);
      StepAddsAtMostItsLogin(s, run[0], u);
      UnrevokedAtMostLogins(Step(s, run[0]), run[1..], u);
    }
  }

  // ----- one rotation per token -----

  ghost predicate RotatesToken(s: State, t: Timed, hash: string) {
    t.event.Rotate? && t.event.oldHash == hash && Apply(s.db, t.now, t.event).result.Ok?
  }

  ghost function Rotations(s: State, run: seq<Timed>, hash: string): nat
    decreases |run|
  {
    if run == [] then 0
    else (if RotatesToken(s, run[0], hash) then 1 else 0) + Rotations(Step(s, run[0]), run[1..], hash)
  }

  /** The token's session exists and is revoked, so the token is spent. */
  ghost predicate Spent(sessions: map<Id, Session>, hash: string) {
    exists x :: x in sessions && sessions[x].tokenHash == hash && sessions[x].revokedAt.Some?
  }

  lemma SpentTokenDoesNotRotate(s: State, t: Timed, hash: string)
    requires UniqueIndexes(s.db) && Spent(s.db.sessions, hash)
    ensures !RotatesToken(s, t, hash)
  {
  }

  lemma RotationSpendsToken(s: State, t: Timed, hash: string)
    requires RotatesToken(s, t, hash) && OnlyDrawnIds(s) && Admissible(s, t)
    ensures Spent(Step(s, t).db.sessions, hash)
  {
    DrawnIdsAreNew(s, t);
    var o := SessionByHash(s.db.sessions, hash).value;
    assert Step(s, t).db.sessions[o].tokenHash == hash;
  }

  lemma SessionStepKeepsRevoked(db: Db, now: Time, e: Event, x: Id)
    requires e.LogIn? || e.Rotate? || e.Logout? || e.LogoutAll?
    requires e.LogIn? || e.Rotate? ==> e.sessionId != x
    requires x in db.sessions && db.sessions[x].revokedAt.Some?
    ensures x in Apply(db, now, e).db.sessions && Apply(db, now, e).db.sessions[x] == db.sessions[x]
  {
  }

  /** A revoked session never changes again. */
  lemma SessionStaysRevoked(s: State, t: Timed, x: Id)
    requires Inv(s) && Admissible(s, t) && x in s.db.sessions && s.db.sessions[x].revokedAt.Some?
    ensures x in Step(s, t).db.sessions && Step(s, t).db.sessions[x] == s.db.sessions[x]
  {
    if t.event.LogIn? || t.event.Rotate? || t.event.Logout? || t.event.LogoutAll? {
      DrawnIdsAreNew(s, t);
      SessionStepKeepsRevoked(s.db, t.now, t.event, x);
    } else {
      OtherStepsKeepSessions(s, t);
    }
  }

  /** Each token rotates successfully at most once per run, and not at all once it is spent. */
  lemma {:induction false} TokenRotatesAtMostOnce(s: State, run: seq<Timed>, hash: string)
    requires Inv(s) && IsRun(s, run)
    ensures Rotations(s, run, hash) <= if Spent(s.db.sessions, hash) then 0 else 1
    decreases |run|
  {
    if run != [] {
      var t := run[0];
      StepKeepsInv(s, t);
      if Spent(s.db.sessions, hash) {
        SpentTokenDoesNotRotate(s, t, hash);
        var x :| x in s.db.sessions && s.db.sessions[x].tokenHash == hash && s.db.sessions[x].revokedAt.Some?;
        SessionStaysRevoked(s, t, x);
        assert Spent(Step(s, t).db.sessions, hash);
      } else if RotatesToken(s, t, hash) {
        RotationSpendsToken(s, t, hash);
      }
      TokenRotatesAtMostOnce(Step(s, t), run[1..], hash);
    }
  }

  // ----- logging out everywhere -----

  /** Revoke-all answers with the number of sessions it revoked, and touches no other user's session. */
  lemma LogoutAllCountsAndIsolates(s: State, t: Timed)
    requires t.event.LogoutAll?
    ensures var u, sessions, sessions' := t.event.uid, s.db.sessions, Step(s, t).db.sessions;
      && Apply(s.db, t.now, t.event).result == Ok(RevokedAll(|Unrevoked(sessions, u)|))
      && Unrevoked(sessions', u) == {}
      && (forall x | x in Unrevoked(sessions, u) :: sessions'[x] == sessions[x].(revokedAt := Some(t.now)))
      && sessions'.Keys == sessions.Keys
      && (forall x | x in sessions && sessions[x].userId != u :: sessions'[x] == sessions[x])
      && (forall x | x in sessions && sessions[x].revokedAt.Some? :: sessions'[x] == sessions[x])
  {
  }

  ghost predicate RotationsOf(s: State, run: seq<Timed>, u: Id)
    decreases |run|
  {
    run != [] && (RotatesFor(s, run[0], u) || RotationsOf(Step(s, run[0]), run[1..], u))
  }

  lemma RotationNeedsUnrevoked(s: State, t: Timed, u: Id)
    ensures RotatesFor(s, t, u) ==> Unrevoked(s.db.sessions, u) != {}
  {
    if RotatesFor(s, t, u) {
      assert SessionByHash(s.db.sessions, t.event.oldHash).value in Unrevoked(s.db.sessions, u);
    }
  }

  /** A user without unrevoked sessions rotates nothing until the next login. */
  lemma {:induction false} NoRotationUntilLogin(s: State, run: seq<Timed>, u: Id)
    requires Inv(s) && IsRun(s, run) && Unrevoked(s.db.sessions, u) == {} && Logins(s, run, u) == 0
    ensures !RotationsOf(s, run, u)
    decreases |run|
  {
    if run != [] {
      StepKeepsInv(s, run[0]);
      StepAddsAtMostItsLogin(s, run[0], u);
      RotationNeedsUnrevoked(s, run[0], u);
      NoRotationUntilLogin(Step(s, run[0]), run[1..], u);
    }
  }

  /** So after a revoke-all, no token of that user rotates again before a new login. */
  lemma LogoutAllEndsRotation(s: State, t: Timed, run: seq<Timed>)
    requires Inv(s) && Admissible(s, t) && t.event.LogoutAll? && IsRun(Step(s, t), run)
    requires Logins(Step(s, t), run, t.event.uid) == 0
    ensures !RotationsOf(Step(s, t), run, t.event.uid)
  {
    StepKeepsInv(s, t);
    LogoutAllCountsAndIsolates(s, t);
    NoRotationUntilLogin(Step(s, t), run, t.event.uid);
  }

  // ----- logging out once -----

  /** Logout revokes the session with this token, if it is not revoked yet, and touches no other. */
  lemma LogoutRevokesAndIsolates(s: State, t: Timed)
    requires t.event.Logout?
    ensures var h, sessions, sessions' := t.event.hash, s.db.sessions, Step(s, t).db.sessions;
      && sessions'.Keys == sessions.Keys
      && (forall x | x in sessions && sessions[x].tokenHash == h && sessions[x].revokedAt.None? ::
            sessions'[x] == sessions[x].(revokedAt := Some(t.now)))
      && (forall x | x in sessions && (sessions[x].tokenHash != h || sessions[x].revokedAt.Some?) ::
            sessions'[x] == sessions[x])
  {
  }

  /** No session has this token. */
  ghost predicate Unissued(sessions: map<Id, Session>, hash: string) {
    forall x | x in sessions :: sessions[x].tokenHash != hash
  }

  ghost predicate Issues(e: Event, hash: string) {
    (e.LogIn? && e.hash == hash) || (e.Rotate? && e.newHash == hash)
  }

  lemma LoginStaysUnissued(db: Db, email: string, passwordOk: bool, h: string, expiresAt: Time, x: Id, hash: string)
    requires Unissued(db.sessions, hash) && h != hash
    ensures Unissued(Login(db, email, passwordOk, h, expiresAt, x).db.sessions, hash)
  {
  }

  lemma RotationStaysUnissued(
    db: Db, oldHash: string, newHash: string, expiresAt: Time, now: Time, x: Id, hash: string)
    requires Unissued(db.sessions, hash) && newHash != hash
    ensures Unissued(RotateRefreshToken(db, oldHash, newHash, expiresAt, now, x).db.sessions, hash)
    ensures oldHash == hash ==> RotateRefreshToken(db, oldHash, newHash, expiresAt, now, x).result.Err?
  {
    var o, old', session := RotateShape(db, oldHash, newHash, expiresAt, now, x);
  }

  lemma LogoutStaysUnissued(db: Db, now: Time, e: Event, hash: string)
    requires Unissued(db.sessions, hash) && (e.Logout? || e.LogoutAll?)
    ensures Unissued(Apply(db, now, e).db.sessions, hash)
  {
  }

  lemma SessionEventStaysUnissued(s: State, t: Timed, hash: string)
    requires Unissued(s.db.sessions, hash) && !Issues(t.event, hash)
    requires t.event.LogIn? || t.event.Rotate? || t.event.Logout? || t.event.LogoutAll?
    ensures Unissued(Step(s, t).db.sessions, hash) && !RotatesToken(s, t, hash)
  {
    match t.event
    case LogIn(email, ok, h, expiresAt, x) => LoginStaysUnissued(s.db, email, ok, h, expiresAt, x, hash);
    case Rotate(oldHash, newHash, expiresAt, x) =>
      RotationStaysUnissued(s.db, oldHash, newHash, expiresAt, t.now, x, hash);
    case _ => LogoutStaysUnissued(s.db, t.now, t.event, hash);
  }

  lemma StaysUnissued(s: State, t: Timed, hash: string)
    requires Consistent(s.db) && Unissued(s.db.sessions, hash) && !Issues(t.event, hash)
    ensures Unissued(Step(s, t).db.sessions, hash) && !RotatesToken(s, t, hash)
  {
    if t.event.LogIn? || t.event.Rotate? || t.event.Logout? || t.event.LogoutAll? {
      SessionEventStaysUnissued(s, t, hash);
    } else {
      OtherStepsKeepSessions(s, t);
    }
  }

  lemma {:induction false} UnissuedNeverRotates(s: State, run: seq<Timed>, hash: string)
    requires Inv(s) && IsRun(s, run) && Unissued(s.db.sessions, hash)
    requires forall i | 0 <= i < |run| :: !Issues(run[i].event, hash)
    ensures Rotations(s, run, hash) == 0
    decreases |run|
  {
    if run != [] {
      StepKeepsInv(s, run[0]);
      StaysUnissued(s, run[0], hash);
      UnissuedNeverRotates(Step(s, run[0]), run[1..], hash);
    }
  }

  /** After a logout the token never rotates again, in any run that does not issue it anew. */
  lemma LogoutEndsRotation(s: State, t: Timed, run: seq<Timed>)
    requires Inv(s) && Admissible(s, t) && t.event.Logout? && IsRun(Step(s, t), run)
    requires forall i | 0 <= i < |run| :: !Issues(run[i].event, t.event.hash)
    ensures Rotations(Step(s, t), run, t.event.hash) == 0
  {
    var h, s' := t.event.hash, Step(s, t);
    StepKeepsInv(s, t);
    LogoutRevokesAndIsolates(s, t);
    if x :| x in s.db.sessions && s.db.sessions[x].tokenHash == h {
      assert s'.db.sessions[x].tokenHash == h && s'.db.sessions[x].revokedAt.Some?;
      assert Spent(s'.db.sessions, h);
      TokenRotatesAtMostOnce(s', run, h);
    } else {
      UnissuedNeverRotates(s', run, h);
    }
  }
}
