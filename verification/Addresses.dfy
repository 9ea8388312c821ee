/**
 What the normal form of an address forgets, in terms of the characters: outer white space and the case of ASCII
 letters, and nothing else.
 */
module Addresses {
  import opened Base

  /** The same letter, possibly in the other case. */
  predicate SameLetter(a: char, b: char) {
    || a == b
    || ('A' <= a <= 'Z' && b as int == a as int + 32)
    || ('A' <= b <= 'Z' && a as int == b as int + 32)
  }

  predicate SameButCase(a: string, b: string) {
    |a| == |b| && forall i | 0 <= i < |a| :: SameLetter(a[i], b[i])
  }

  /** The addresses differ at most in outer white space and in the case of letters. */
  predicate SameMailbox(a: string, b: string) {
    SameButCase(Trim(a), Trim(b))
  }

  /** White space is the blank and the control characters from tab to carriage return. */
  lemma WhiteSpace(c: char)
    ensures IsSpace(c) <==> c == ' ' || 9 <= c as int <= 13
  {
  }

  lemma {:induction false} TrimRightKeepsStart(s: string)
    requires s != "" && !IsSpace(s[0])
    ensures TrimRight(s) != ""
  {
    if |s| > 1 {
      TrimRightKeepsStart(s[..|s| - 1]);
    }
  }

  /** A text is blank exactly when all of it is white space. */
  lemma {:induction false} BlankExactlyWhen(s: string)
    ensures Blank(s) <==> forall i | 0 <= i < |s| :: IsSpace(s[i])
  {
    if s != "" {
      if IsSpace(s[0]) {
        BlankExactlyWhen(s[1..]);
        assert (forall i | 0 <= i < |s[1..]| :: IsSpace(s[1..][i])) <==> (forall i | 1 <= i < |s| :: IsSpace(s[i])) by {
          assert forall i | 1 <= i < |s| :: s[i] == s[1..][i - 1];
        }
      } else {
        TrimRightKeepsStart(s);
      }
    }
  }

  lemma LowerHasNoCapitals(s: string)
    ensures |Lower(s)| == |s| && forall i | 0 <= i < |s| :: !('A' <= Lower(s)[i] <= 'Z') && SameLetter(s[i], Lower(s)[i])
  {
  }

  /** Two texts have the same lower-case form exactly when they differ only in the case of letters. */
  lemma LowerAgreesExactlyWhen(a: string, b: string)
    ensures Lower(a) == Lower(b) <==> SameButCase(a, b)
  {
    LowerHasNoCapitals(a);
    LowerHasNoCapitals(b);
    if Lower(a) == Lower(b) {
      forall i | 0 <= i < |a| ensures SameLetter(a[i], b[i]) {
        assert Lower(a)[i] == Lower(b)[i];
      }
    }
  }

  lemma {:induction false} TrimLeftOfLower(s: string)
    ensures TrimLeft(Lower(s)) == Lower(TrimLeft(s))
  {
    if s != "" && IsSpace(s[0]) {
      assert Lower(s)[1..] == Lower(s[1..]);
      TrimLeftOfLower(s[1..]);
    }
  }

  lemma {:induction false} TrimRightOfLower(s: string)
    ensures TrimRight(Lower(s)) == Lower(TrimRight(s))
    decreases |s|
  {
    if s != "" && IsSpace(s[|s| - 1]) {
      assert Lower(s)[..|s| - 1] == Lower(s[..|s| - 1]);
      TrimRightOfLower(s[..|s| - 1]);
    }
  }

  /** Two addresses have the same normal form exactly when they name the same mailbox. */
  lemma NormalAgreesExactlyWhen(a: string, b: string)
    ensures Normal(a) == Normal(b) <==> SameMailbox(a, b)
  {
    TrimLeftOfLower(a);
    TrimLeftOfLower(b);
    TrimRightOfLower(TrimLeft(a));
    TrimRightOfLower(TrimLeft(b));
    LowerAgreesExactlyWhen(Trim(a), Trim(b));
  }

  lemma {:induction false} TrimLeftForgets(left: string, s: string)
    requires AllSpaces(left)
    ensures TrimLeft(left + s) == TrimLeft(s)
  {
    if left == "" {
      assert left + s == s;
    } else {
      assert (left + s)[1..] == left[1..] + s;
      TrimLeftForgets(left[1..], s);
    }
  }

  lemma {:induction false} TrimRightForgets(s: string, right: string)
    requires AllSpaces(right)
    ensures TrimRight(s + right) == TrimRight(s)
    decreases |right|
  {
    if right == "" {
      assert s + right == s;
    } else {
      assert (s + right)[..|s + right| - 1] == s + right[..|right| - 1];
      TrimRightForgets(s, right[..|right| - 1]);
    }
  }

  lemma {:induction false} TrimLeftBefore(s: string, right: string)
    requires AllSpaces(right)
    ensures TrimRight(TrimLeft(s + right)) == TrimRight(TrimLeft(s))
    decreases |s|
  {
    if s == "" {
      assert s + right == right;
      BlankIsAllSpaces(right);
    } else if IsSpace(s[0]) {
      assert (s + right)[1..] == s[1..] + right;
      TrimLeftBefore(s[1..], right);
    } else {
      assert (s + right)[0] == s[0];
      TrimRightForgets(s, right);
    }
  }

  /** White space around an address does not matter. */
  lemma TrimForgetsOuterSpace(left: string, s: string, right: string)
    requires AllSpaces(left) && AllSpaces(right)
    ensures Trim(left + s + right) == Trim(s)
  {
    assert left + s + right == left + (s + right);
    TrimLeftForgets(left, s + right);
    TrimLeftBefore(s, right);
  }

  lemma MailboxForgetsOuterSpace(left: string, a: string, right: string, b: string)
    requires AllSpaces(left) && AllSpaces(right)
    ensures SameMailbox(left + a + right, b) <==> SameMailbox(a, b)
  {
    TrimForgetsOuterSpace(left, a, right);
  }
}
