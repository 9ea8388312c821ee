/** How often an OTP row can be guessed, over any run. */
module OtpAttempts {
  import opened Base
  import opened Tables
  import opened Transactions
  import opened AuthRuns
  import opened AuthInvariants
  import opened RowSteps

  /** The step compares a submitted OTP with the hash stored in row `v`. */
  ghost predicate Compares(s: State, t: Timed, v: Id) {
    t.event.VerifyOtp? && ComparedOtp(s.db, t.event.email, t.now) == Some(v)
  }

  ghost function Comparisons(s: State, run: seq<Timed>, v: Id): nat
    decreases |run|
  {
    if run == [] then 0
    else (if Compares(s, run[0], v) then 1 else 0) + Comparisons(Step(s, run[0]), run[1..], v)
  }

  /** The comparisons that row `v` can still suffer. */
  ghost function GuessesLeft(s: State, v: Id): int {
    if v in s.db.verifications then
      if s.db.verifications[v].verifiedAt.Some? then 0 else MAX_OTP_ATTEMPTS + 1 - s.db.verifications[v].attempts
    else if v in s.used then 0
    else MAX_OTP_ATTEMPTS + 1
  }

  /** Each comparison uses one guess up, whatever its answer. */
  lemma ComparisonUsesAGuess(s: State, t: Timed, v: Id)
    requires Compares(s, t, v)
    ensures GuessesLeft(Step(s, t), v) <= GuessesLeft(s, v) - 1
  {
  }

  /** No other step, resend or rollback included, gives a guess back. */
  lemma OtherStepsGiveNoGuessBack(s: State, t: Timed, v: Id)
    requires Inv(s) && Admissible(s, t) && !Compares(s, t, v)
    ensures GuessesLeft(Step(s, t), v) <= GuessesLeft(s, v)
  {
    StepKeepsInv(s, t);
    if v in Step(s, t).db.verifications {
      assert AttemptsInRange(Step(s, t).db.verifications[v]);
    }
    if v in s.db.verifications {
      assert AttemptsInRange(s.db.verifications[v]);
      RowStep(s, t, v);
    } else if v in s.used {
      GoneStaysGone(s, t, v);
    }
  }

  lemma RowStep(s: State, t: Timed, v: Id)
    requires OnlyDrawnIds(s) && Admissible(s, t) && v in s.db.verifications
    ensures var rows, rows' := s.db.verifications, Step(s, t).db.verifications;
      v in rows' ==>
        && rows[v].attempts <= rows'[v].attempts
        && (rows[v].verifiedAt.Some? ==> rows'[v].verifiedAt.Some?)
        && (rows[v].attempts > MAX_OTP_ATTEMPTS && rows[v].tokenType == Otp ==> rows'[v].verifiedAt == rows[v].verifiedAt)
    ensures v !in Step(s, t).db.verifications ==> v in Step(s, t).used
  {
    match t.event
    case VerifyOtp(email, hash) => OtpStepTouchesComparedRow(s.db, email, hash, t.now, v);
    case VerifyMagic(hash) => MagicStepTouchesLiveRow(s.db, hash, t.now, v);
    case _ => OtherStepsMoveOnlyExpiry(s, t, v);
  }

  /** At most six hash comparisons are ever made on one OTP row. */
  lemma {:induction false} AtMostSixComparisons(s: State, run: seq<Timed>, v: Id)
    requires Inv(s) && IsRun(s, run)
    ensures Comparisons(s, run, v) <= GuessesLeft(s, v) <= 6
    decreases |run|
  {
    if v in s.db.verifications {
      assert AttemptsInRange(s.db.verifications[v]);
    }
    if run != [] {
      StepKeepsInv(s, run[0]);
      if Compares(s, run[0], v) {
        ComparisonUsesAGuess(s, run[0], v);
      } else {
        OtherStepsGiveNoGuessBack(s, run[0], v);
      }
      AtMostSixComparisons(Step(s, run[0]), run[1..], v);
    }
  }

  /** A row's counter never decreases or passes six, and a row that reached six never verifies. */
  lemma {:induction false} AttemptsOverRuns(s: State, run: seq<Timed>, v: Id)
    requires Inv(s) && IsRun(s, run) && v in s.db.verifications
    ensures var rows, rows' := s.db.verifications, Final(s, run).db.verifications;
      v in rows' ==>
        && rows[v].attempts <= rows'[v].attempts <= 6
        && (rows[v].attempts == 6 ==> rows'[v].verifiedAt.None?)
    decreases |run|
  {
    assert AttemptsInRange(s.db.verifications[v]);
    if run != [] {
      StepKeepsInv(s, run[0]);
      if v in Step(s, run[0]).db.verifications {
        RowStep(s, run[0], v);
        AttemptsOverRuns(Step(s, run[0]), run[1..], v);
      } else {
        GoneForGood(Step(s, run[0]), run[1..], v);
      }
    }
  }

  lemma {:induction false} GoneForGood(s: State, run: seq<Timed>, v: Id)
    requires Inv(s) && IsRun(s, run) && v in s.used && v !in s.db.verifications
    ensures v !in Final(s, run).db.verifications
    decreases |run|
  {
    if run != [] {
      StepKeepsInv(s, run[0]);
      GoneStaysGone(s, run[0], v);
      GoneForGood(Step(s, run[0]), run[1..], v);
    }
  }
}
