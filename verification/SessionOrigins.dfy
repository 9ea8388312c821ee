/** Every session goes back, along replaced_by, to a login of the same user with the right password. */
module SessionOrigins {
  import opened Base
  import opened Tables
  import opened Transactions
  import opened AuthRuns
  import opened AuthInvariants
  import opened SessionChains

  /** A session that a login opened, and the user who logged in. */
  datatype Root = Root(session: Id, user: Id)

  /** What a step adds: the session of a login that succeeded with the right password. */
  ghost function RootOf(s: State, t: Timed): set<Root> {
    var result := Apply(s.db, t.now, t.event).result;
    if t.event.LogIn? && t.event.passwordOk && result.Ok? && result.value.LoggedIn? then
      {Root(t.event.sessionId, result.value.uid)}
    else {}
  }

  ghost function Roots(s: State, run: seq<Timed>): set<Root>
    decreases |run|
  {
    if run == [] then {} else RootOf(s, run[0]) + Roots(Step(s, run[0]), run[1..])
  }

  /** The walk along replaced_by leads from a root of the session's user to the session. */
  ghost predicate LeadsTo(sessions: map<Id, Session>, roots: set<Root>, walk: seq<Id>, x: Id) {
    && walk != [] && IsWalk(sessions, walk) && walk[|walk| - 1] == x
    && Root(walk[0], sessions[x].userId) in roots
  }

  ghost predicate Rooted(sessions: map<Id, Session>, roots: set<Root>, x: Id) {
    exists walk :: LeadsTo(sessions, roots, walk, x)
  }

  ghost predicate ReplacedAreRevoked(sessions: map<Id, Session>) {
    forall x | x in sessions :: sessions[x].replacedBy.Some? ==> sessions[x].revokedAt.Some?
  }

  /** Every session is rooted, and a replaced session is revoked. */
  ghost predicate AllRooted(sessions: map<Id, Session>, roots: set<Root>) {
    && (forall x {:trigger Rooted(sessions, roots, x)} | x in sessions :: Rooted(sessions, roots, x))
    && ReplacedAreRevoked(sessions)
  }

  /** Sessions stay, keep their user, and keep their link once they have one. */
  ghost predicate LinksStay(sessions: map<Id, Session>, sessions': map<Id, Session>) {
    forall x | x in sessions ::
      && x in sessions' && sessions'[x].userId == sessions[x].userId
      && (sessions[x].replacedBy.Some? ==> sessions'[x].replacedBy == sessions[x].replacedBy)
  }

  lemma RootedStays(sessions: map<Id, Session>, sessions': map<Id, Session>, roots: set<Root>, more: set<Root>, x: Id)
    requires LinksStay(sessions, sessions') && x in sessions && Rooted(sessions, roots, x) && roots <= more
    ensures Rooted(sessions', more, x)
  {
    var walk :| LeadsTo(sessions, roots, walk, x);
    assert LeadsTo(sessions', more, walk, x);
  }

  lemma RotationRoots(sessions: map<Id, Session>, sessions': map<Id, Session>, roots: set<Root>, o: Id, x: Id)
    requires LinksStay(sessions, sessions') && o in sessions && Rooted(sessions, roots, o)
    requires x in sessions' && sessions'[o].replacedBy == Some(x) && sessions'[x].userId == sessions[o].userId
    ensures Rooted(sessions', roots, x)
  {
    var walk :| LeadsTo(sessions, roots, walk, o);
    assert LeadsTo(sessions', roots, walk + [x], x);
  }

  lemma NewRootedSession(
    sessions: map<Id, Session>, sessions': map<Id, Session>, roots: set<Root>, more: set<Root>, x: Id)
    requires AllRooted(sessions, roots) && roots <= more && LinksStay(sessions, sessions') && ReplacedAreRevoked(sessions')
    requires sessions'.Keys == sessions.Keys + {x} && Rooted(sessions', more, x)
    ensures AllRooted(sessions', more)
  {
    forall y | y in sessions' ensures Rooted(sessions', more, y) {
      if y in sessions && y != x {
        assert Rooted(sessions, roots, y);
        RootedStays(sessions, sessions', roots, more, y);
      }
    }
  }

  /** A session opened by a login is its own root. */
  lemma LoginRoots(sessions: map<Id, Session>, roots: set<Root>, x: Id, session: Session)
    requires AllRooted(sessions, roots) && x !in sessions && session.replacedBy.None?
    ensures AllRooted(sessions[x := session], roots + {Root(x, session.userId)})
  {
    var sessions', more := sessions[x := session], roots + {Root(x, session.userId)};
    assert LeadsTo(sessions', more, [x], x);
    NewRootedSession(sessions, sessions', roots, more, x);
  }

  /** The successor of a rotated session has the same root. */
  lemma RotateRoots(sessions: map<Id, Session>, roots: set<Root>, o: Id, old': Session, x: Id, session: Session)
    requires AllRooted(sessions, roots) && o in sessions && x !in sessions && sessions[o].revokedAt.None?
    requires old'.userId == session.userId == sessions[o].userId && old'.revokedAt.Some? && old'.replacedBy == Some(x)
    requires session.replacedBy.None?
    ensures AllRooted(sessions[x := session][o := old'], roots)
  {
    var sessions' := sessions[x := session][o := old'];
    assert Rooted(sessions, roots, o);
    RotationRoots(sessions, sessions', roots, o, x);
    NewRootedSession(sessions, sessions', roots, roots, x);
  }

  lemma RevokingRoots(sessions: map<Id, Session>, sessions': map<Id, Session>, roots: set<Root>)
    requires AllRooted(sessions, roots) && sessions'.Keys == sessions.Keys
    requires forall x | x in sessions ::
      && sessions'[x].userId == sessions[x].userId && sessions'[x].replacedBy == sessions[x].replacedBy
      && (sessions[x].revokedAt.Some? ==> sessions'[x].revokedAt.Some?)
    ensures AllRooted(sessions', roots)
  {
    forall x | x in sessions' ensures Rooted(sessions', roots, x) {
      assert Rooted(sessions, roots, x);
      RootedStays(sessions, sessions', roots, roots, x);
    }
  }

  /** A login adds one session, for the user it was for and only with the right password, or none. */
  lemma LoginShape(db: Db, email: string, passwordOk: bool, hash: string, expiresAt: Time, x: Id)
    ensures var out := Login(db, email, passwordOk, hash, expiresAt, x);
      if out.result.Ok? then
        && passwordOk && out.result.value.LoggedIn?
        && out.db.sessions == db.sessions[x := Session(out.result.value.uid, hash, expiresAt, None, None)]
      else out.db.sessions == db.sessions
  {
  }

  lemma LoginKeepsRooted(s: State, t: Timed, roots: set<Root>)
    requires t.event.LogIn? && t.event.sessionId !in s.db.sessions && AllRooted(s.db.sessions, roots)
    ensures AllRooted(Step(s, t).db.sessions, roots + RootOf(s, t))
  {
    var e := t.event;
    LoginShape(s.db, e.email, e.passwordOk, e.hash, e.expiresAt, e.sessionId);
    var result := Apply(s.db, t.now, e).result;
    if result.Ok? {
      LoginRoots(s.db.sessions, roots, e.sessionId, Session(result.value.uid, e.hash, e.expiresAt, None, None));
    } else {
      assert roots + {} == roots;
    }
  }

  lemma RotationKeepsRooted(s: State, t: Timed, roots: set<Root>)
    requires t.event.Rotate? && t.event.sessionId !in s.db.sessions && AllRooted(s.db.sessions, roots)
    ensures AllRooted(Step(s, t).db.sessions, roots)
  {
    var e := t.event;
    var o, old', session := RotateShape(s.db, e.oldHash, e.newHash, e.expiresAt, t.now, e.sessionId);
    if Apply(s.db, t.now, e).result.Ok? {
      RotateRoots(s.db.sessions, roots, o, old', e.sessionId, session);
    }
  }

  lemma LogoutKeepsRooted(s: State, t: Timed, roots: set<Root>)
    requires (t.event.Logout? || t.event.LogoutAll?) && AllRooted(s.db.sessions, roots)
    ensures AllRooted(Step(s, t).db.sessions, roots)
  {
    RevokingRoots(s.db.sessions, Step(s, t).db.sessions, roots);
  }

  lemma StepKeepsRooted(s: State, t: Timed, roots: set<Root>)
    requires Consistent(s.db) && OnlyDrawnIds(s) && Admissible(s, t) && AllRooted(s.db.sessions, roots)
    ensures AllRooted(Step(s, t).db.sessions, roots + RootOf(s, t))
  {
    DrawnIdsAreNew(s, t);
    if t.event.LogIn? {
      LoginKeepsRooted(s, t, roots);
    } else {
      assert roots + RootOf(s, t) == roots;
      if t.event.Rotate? {
        RotationKeepsRooted(s, t, roots);
      } else if t.event.Logout? || t.event.LogoutAll? {
        LogoutKeepsRooted(s, t, roots);
      } else {
        OtherStepsKeepSessions(s, t);
      }
    }
  }

  lemma {:induction false} RunKeepsRooted(s: State, run: seq<Timed>, roots: set<Root>)
    requires Inv(s) && IsRun(s, run) && AllRooted(s.db.sessions, roots)
    ensures AllRooted(Final(s, run).db.sessions, roots + Roots(s, run))
    decreases |run|
  {
    if run == [] {
      assert roots + {} == roots;
    } else {
      StepKeepsInv(s, run[0]);
      StepKeepsRooted(s, run[0], roots);
      RunKeepsRooted(Step(s, run[0]), run[1..], roots + RootOf(s, run[0]));
      assert roots + RootOf(s, run[0]) + Roots(Step(s, run[0]), run[1..]) == roots + Roots(s, run);
    }
  }

  /** In every reachable state each session is reached from the session of a login of its user with the right password. */
  lemma SessionsComeFromRightLogins(clock: Time, run: seq<Timed>, x: Id)
    requires IsRun(Start(clock), run) && x in Final(Start(clock), run).db.sessions
    ensures exists walk :: LeadsTo(Final(Start(clock), run).db.sessions, Roots(Start(clock), run), walk, x)
  {
    RunKeepsRooted(Start(clock), run, {});
    assert {} + Roots(Start(clock), run) == Roots(Start(clock), run);
    assert Rooted(Final(Start(clock), run).db.sessions, Roots(Start(clock), run), x);
  }
}
