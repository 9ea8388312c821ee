/** Small value types and text functions shared by every module. */
module Base {

  datatype Option<+T> = None | Some(value: T)

  datatype Result<+T, +E> = Ok(value: T) | Err(error: E)

  // A UUID column. Only equality and the `order by id` comparison are ever used.
  type Id = nat

  // A timestamp; the unit is whatever the caller counts in.
  type Time = int

  predicate IsSpace(c: char) {
    c == ' ' || c == '\t' || c == '\n' || c == '\r' || c == 11 as char || c == 12 as char
  }

  function TrimLeft(s: string): string {
    if s != "" && IsSpace(s[0]) then TrimLeft(s[1..]) else s
  }

  function TrimRight(s: string): string {
    if s != "" && IsSpace(s[|s| - 1]) then TrimRight(s[..|s| - 1]) else s
  }

  /** strings.TrimSpace */
  function Trim(s: string): string {
    TrimRight(TrimLeft(s))
  }

  function LowerChar(c: char): char {
    if 'A' <= c <= 'Z' then (c as int + 32) as char else c
  }

  /** strings.ToLower and SQL lower(), on the ASCII letters. */
  function Lower(s: string): string {
    seq(|s|, i requires 0 <= i < |s| => LowerChar(s[i]))
  }

  /** The form in which every e-mail address is compared: trimmed and lower-cased. */
  function Normal(address: string): string {
    Trim(Lower(address))
  }

  predicate Blank(s: string) {
    Trim(s) == ""
  }

  /** What trimming leaves is a stretch of the text with no space at either end. */
  lemma {:induction false} TrimLeftShape(s: string) returns (k: nat)
    ensures k <= |s| && TrimLeft(s) == s[k..]
    ensures TrimLeft(s) != "" ==> !IsSpace(TrimLeft(s)[0])
  {
    if s != "" && IsSpace(s[0]) {
      var k' := TrimLeftShape(s[1..]);
      k := k' + 1;
    } else {
      k := 0;
    }
  }

  lemma {:induction false} TrimRightShape(s: string) returns (k: nat)
    ensures k <= |s| && TrimRight(s) == s[..k]
    ensures TrimRight(s) != "" ==> !IsSpace(TrimRight(s)[|TrimRight(s)| - 1])
  {
    if s != "" && IsSpace(s[|s| - 1]) {
      k := TrimRightShape(s[..|s| - 1]);
      assert s[..|s| - 1][..k] == s[..k];
    } else {
      k := |s|;
    }
  }

  /** Trimming twice is trimming once, and a trimmed text has no space at either end. */
  lemma TrimIdempotent(s: string)
    ensures Trim(Trim(s)) == Trim(s)
    ensures Trim(s) != "" ==> !IsSpace(Trim(s)[0]) && !IsSpace(Trim(s)[|Trim(s)| - 1])
  {
    var k := TrimLeftShape(s);
    var l := TrimRightShape(TrimLeft(s));
    if Trim(s) != "" {
      assert Trim(s)[0] == TrimLeft(s)[0];
    }
  }

  /** Looking an address up again in lower case finds the stored normal form. */
  lemma LowerOfNormal(address: string)
    ensures Lower(Normal(address)) == Normal(address)
  {
    var lowered := Lower(address);
    var k := TrimLeftShape(lowered);
    var l := TrimRightShape(TrimLeft(lowered));
    assert forall i | 0 <= i < |Normal(address)| :: Normal(address)[i] == lowered[k + i];
  }

  ghost predicate AllSpaces(s: string) {
    forall i | 0 <= i < |s| :: IsSpace(s[i])
  }

  lemma {:induction false} TrimmedAway(s: string)
    ensures TrimLeft(s) == "" <==> AllSpaces(s)
    ensures TrimRight(s) == "" <==> AllSpaces(s)
    decreases |s|
  {
    if s != "" {
      TrimmedAway(s[1..]);
      TrimmedAway(s[..|s| - 1]);
      assert AllSpaces(s) <==> IsSpace(s[0]) && AllSpaces(s[1..]);
      assert AllSpaces(s) <==> IsSpace(s[|s| - 1]) && AllSpaces(s[..|s| - 1]);
    }
  }

  /** Blank texts are the texts of spaces. */
  lemma BlankIsAllSpaces(s: string)
    ensures Blank(s) <==> AllSpaces(s)
  {
    TrimmedAway(s);
    TrimmedAway(TrimLeft(s));
    var k := TrimLeftShape(s);
    if TrimLeft(s) != "" {
      assert !AllSpaces(TrimLeft(s));
    }
  }

  /** An address that is not blank has a normal form that is not empty. */
  lemma NormalOfNonBlank(address: string)
    requires !Blank(address)
    ensures Normal(address) != ""
  {
    BlankIsAllSpaces(address);
    BlankIsAllSpaces(Lower(address));
    var i :| 0 <= i < |address| && !IsSpace(address[i]);
    assert !IsSpace(Lower(address)[i]);
  }

  /** No element occurs twice. */
  ghost predicate Distinct<T(!new)>(s: seq<T>) {
    forall i, j | 0 <= i < j < |s| :: s[i] != s[j]
  }

  ghost predicate TotalOrderOn<T(!new)>(some: set<T>, le: (T, T) -> bool) {
    && (forall a, b | a in some && b in some :: le(a, b) || le(b, a))
    && (forall a, b, c | a in some && b in some && c in some && le(a, b) && le(b, c) :: le(a, c))
  }

  /** What `order by ... limit 1` relies on: a non-empty set of rows has a last one. */
  lemma {:induction false} LastOfSome<T(!new)>(some: set<T>, le: (T, T) -> bool) returns (last: T)
    requires some != {} && TotalOrderOn(some, le)
    ensures last in some && forall a | a in some :: le(a, last)
    decreases |some|
  {
    var x :| x in some;
    if some == {x} {
      last := x;
    } else {
      var rest := some - {x};
      assert rest != {} && |rest| < |some|;
      var other := LastOfSome(rest, le);
      last := if le(x, other) then other else x;
      forall a | a in some ensures le(a, last) {
        assert a == x || a in rest;
      }
    }
  }
}
