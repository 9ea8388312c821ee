/** One Casbin rule as a table row, as the text line that loading builds from the row, and back as a rule. */
module PolicyText {
  import opened Base

  type Rule = seq<string>

  const COLUMNS := 6

  /** Columns v0 to v5; None is NULL. */
  datatype Row = Row(ptype: string, vals: seq<Option<string>>)

  /** The field at `i`, trimmed; NULL when it is missing or blank. */
  function ValueAt(rule: Rule, i: nat): Option<string> {
    if i >= |rule| || Trim(rule[i]) == "" then None else Some(Trim(rule[i]))
  }

  function Encode(ptype: string, rule: Rule): Row {
    Row(ptype, seq(COLUMNS, i requires 0 <= i < COLUMNS => ValueAt(rule, i)))
  }

  // ----- from the row to the line -----

  function Parts(row: Row): seq<string> {
    seq(|row.vals|, i requires 0 <= i < |row.vals| => if row.vals[i].Some? then row.vals[i].value else "")
  }

  function DropTrailing(parts: seq<string>): seq<string> {
    if parts != [] && parts[|parts| - 1] == "" then DropTrailing(parts[..|parts| - 1]) else parts
  }

  function Join(line: string, parts: seq<string>): string
    decreases |parts|
  {
    if parts == [] then line else Join(line + ", " + parts[0], parts[1..])
  }

  function LineOf(row: Row): string {
    Join(row.ptype, DropTrailing(Parts(row)))
  }

  // ----- from the line to the tokens -----

  /** Split at every comma. */
  function Split(line: string): seq<string>
    ensures |Split(line)| > 0
  {
    if line == "" then [""]
    else
      var rest := Split(line[1..]);
      if line[0] == ',' then [""] + rest else [[line[0]] + rest[0]] + rest[1..]
  }

  /** The tokens of a line: split at commas, leading spaces trimmed. */
  function Tokens(line: string): seq<string> {
    var fields := Split(line);
    seq(|fields|, i requires 0 <= i < |fields| => TrimLeft(fields[i]))
  }

  /** The rule that loading takes from a row: the tokens after the first. */
  function Load(row: Row): Rule {
    if Tokens(LineOf(row)) == [] then [] else Tokens(LineOf(row))[1..]
  }

  function LoadedType(row: Row): string {
    if Tokens(LineOf(row)) == [] then "" else Tokens(LineOf(row))[0]
  }

  // ----- clean text -----

  predicate Clean(field: string) {
    ',' !in field && '"' !in field
  }

  predicate CleanAll(fields: seq<string>) {
    forall i | 0 <= i < |fields| :: Clean(fields[i])
  }

  /** Trimmed, non-empty, no comma and no quote. */
  predicate CanonicalField(field: string) {
    Clean(field) && field != "" && Trim(field) == field
  }

  predicate Canonical(rule: Rule) {
    |rule| <= COLUMNS && forall i | 0 <= i < |rule| :: CanonicalField(rule[i])
  }

  /** What the table can keep of a rule: its first six fields, trimmed, without the empty ones at the end. */
  function Kept(rule: Rule): Rule {
    var n := if |rule| < COLUMNS then |rule| else COLUMNS;
    DropTrailing(seq(n, i requires 0 <= i < n => Trim(rule[i])))
  }

  // ----- splitting undoes joining -----

  lemma {:induction false} SplitClean(field: string)
    requires ',' !in field
    ensures Split(field) == [field]
  {
    if field != "" {
      SplitClean(field[1..]);
      assert field == [field[0]] + field[1..];
    }
  }

  /** A comma ends the field before it. */
  lemma {:induction false} SplitAtComma(field: string, rest: string)
    requires ',' !in field
    ensures Split(field + "," + rest) == [field] + Split(rest)
  {
    if field == "" {
      assert field + "," + rest == "," + rest;
      assert ("," + rest)[1..] == rest;
    } else {
      SplitAtComma(field[1..], rest);
      assert (field + "," + rest)[1..] == field[1..] + "," + rest;
      assert field == [field[0]] + field[1..];
    }
  }

  /** The text that a list of parts adds to a line. */
  function Suffix(parts: seq<string>): string {
    if parts == [] then "" else ", " + parts[0] + Suffix(parts[1..])
  }

  lemma {:induction false} JoinIsSuffix(line: string, parts: seq<string>)
    ensures Join(line, parts) == line + Suffix(parts)
    decreases |parts|
  {
    if parts != [] {
      JoinIsSuffix(line + ", " + parts[0], parts[1..]);
      assert line + ", " + parts[0] + Suffix(parts[1..]) == line + Suffix(parts);
    } else {
      assert line + Suffix(parts) == line;
    }
  }

  function Spaced(parts: seq<string>): seq<string> {
    seq(|parts|, i requires 0 <= i < |parts| => " " + parts[i])
  }

  lemma SuffixStartsNextField(field: string, parts: seq<string>)
    requires parts != []
    ensures field + Suffix(parts) == field + "," + (" " + parts[0] + Suffix(parts[1..]))
  {
    assert ", " == "," + " ";
  }

  lemma {:induction false} SplitOfJoin(field: string, parts: seq<string>)
    requires ',' !in field && CleanAll(parts)
    ensures Split(field + Suffix(parts)) == [field] + Spaced(parts)
    decreases |parts|
  {
    if parts == [] {
      assert field + Suffix(parts) == field;
      SplitClean(field);
    } else {
      var next := " " + parts[0];
      SuffixStartsNextField(field, parts);
      SplitAtComma(field, next + Suffix(parts[1..]));
      SplitOfJoin(next, parts[1..]);
      assert Spaced(parts) == [next] + Spaced(parts[1..]);
    }
  }

  /** A field without a leading space comes back from behind its separator unchanged. */
  lemma TrimLeftOfSpaced(field: string)
    requires field == "" || !IsSpace(field[0])
    ensures TrimLeft(" " + field) == field && TrimLeft(field) == field
  {
    assert (" " + field)[1..] == field;
  }

  /** Loading gives back the type and the parts of a row, the empty ones at the end left off. */
  lemma LoadGivesParts(row: Row)
    requires Clean(row.ptype) && TrimLeft(row.ptype) == row.ptype && CleanAll(Parts(row))
    requires forall i | 0 <= i < |Parts(row)| :: Parts(row)[i] == "" || !IsSpace(Parts(row)[i][0])
    ensures Load(row) == DropTrailing(Parts(row)) && LoadedType(row) == row.ptype
  {
    var parts := DropTrailing(Parts(row));
    var k := DropTrailingShape(Parts(row));
    JoinIsSuffix(row.ptype, parts);
    SplitOfJoin(row.ptype, parts);
    var tokens := Tokens(LineOf(row));
    assert |tokens| == |parts| + 1;
    forall i | 0 <= i < |parts| ensures tokens[i + 1] == parts[i] {
      assert Split(LineOf(row))[i + 1] == Spaced(parts)[i];
      TrimLeftOfSpaced(parts[i]);
    }
    assert tokens[1..] == parts;
  }

  lemma {:induction false} DropTrailingShape(parts: seq<string>) returns (k: nat)
    ensures k <= |parts| && DropTrailing(parts) == parts[..k]
    ensures k > 0 ==> parts[k - 1] != ""
    ensures forall i | k <= i < |parts| :: parts[i] == ""
  {
    if parts != [] && parts[|parts| - 1] == "" {
      k := DropTrailingShape(parts[..|parts| - 1]);
      assert parts[..|parts| - 1][..k] == parts[..k];
      forall i | k <= i < |parts| ensures parts[i] == "" {
        if i < |parts| - 1 {
          assert parts[..|parts| - 1][i] == "";
        }
      }
    } else {
      k := |parts|;
    }
  }

  lemma TrimKeepsClean(field: string)
    requires Clean(field)
    ensures Clean(Trim(field))
    ensures Trim(field) == "" || !IsSpace(Trim(field)[0])
  {
    TrimIdempotent(field);
    var k := TrimLeftShape(field);
    var l := TrimRightShape(TrimLeft(field));
    assert forall c | c in Trim(field) :: c in field;
  }

  lemma {:induction false} DropTrailingOfPadded(parts: seq<string>, n: nat)
    requires |parts| <= n
    ensures DropTrailing(parts + seq(n - |parts|, i => "")) == DropTrailing(parts)
    decreases n - |parts|
  {
    var padded := parts + seq(n - |parts|, i => "");
    if |parts| < n {
      assert padded[..n - 1] == parts + seq(n - 1 - |parts|, i => "");
      DropTrailingOfPadded(parts, n - 1);
    } else {
      assert padded == parts;
    }
  }

  /** The row holds the trimmed fields, and no field that needs quoting or starts with a space. */
  lemma EncodedParts(ptype: string, rule: Rule, n: nat, trimmed: seq<string>)
    requires CleanAll(rule) && n == if |rule| < COLUMNS then |rule| else COLUMNS
    requires trimmed == seq(n, i requires 0 <= i < n => Trim(rule[i]))
    ensures Parts(Encode(ptype, rule)) == trimmed + seq(COLUMNS - n, i => "")
    ensures CleanAll(Parts(Encode(ptype, rule)))
    ensures forall i | 0 <= i < COLUMNS ::
      Parts(Encode(ptype, rule))[i] == "" || !IsSpace(Parts(Encode(ptype, rule))[i][0])
  {
    var row := Encode(ptype, rule);
    forall i | 0 <= i < COLUMNS
      ensures Parts(row)[i] == (if i < n then trimmed[i] else "")
      ensures Clean(Parts(row)[i]) && (Parts(row)[i] == "" || !IsSpace(Parts(row)[i][0]))
    {
      if i < n {
        TrimKeepsClean(rule[i]);
      }
    }
  }

  /** Save then load keeps the first six fields, trimmed, and drops only the empty ones at the end. */
  lemma LoadOfEncode(ptype: string, rule: Rule)
    requires Clean(ptype) && TrimLeft(ptype) == ptype && CleanAll(rule)
    ensures Load(Encode(ptype, rule)) == Kept(rule) && LoadedType(Encode(ptype, rule)) == ptype
  {
    var n := if |rule| < COLUMNS then |rule| else COLUMNS;
    var trimmed := seq(n, i requires 0 <= i < n => Trim(rule[i]));
    EncodedParts(ptype, rule, n, trimmed);
    DropTrailingOfPadded(trimmed, COLUMNS);
    LoadGivesParts(Encode(ptype, rule));
  }

  /** A canonical rule comes back as it was. */
  lemma CanonicalRoundTrip(ptype: string, rule: Rule)
    requires Clean(ptype) && TrimLeft(ptype) == ptype && Canonical(rule)
    ensures Load(Encode(ptype, rule)) == rule && LoadedType(Encode(ptype, rule)) == ptype
  {
    LoadOfEncode(ptype, rule);
    assert seq(|rule|, i requires 0 <= i < |rule| => Trim(rule[i])) == rule;
  }

  /** Saving and loading what was loaded changes nothing more. */
  lemma SecondRoundTripChangesNothing(ptype: string, rule: Rule)
    requires Clean(ptype) && TrimLeft(ptype) == ptype && CleanAll(rule)
    ensures Load(Encode(ptype, Kept(rule))) == Kept(rule) && CleanAll(Kept(rule)) && Kept(Kept(rule)) == Kept(rule)
  {
    var n := if |rule| < COLUMNS then |rule| else COLUMNS;
    var trimmed := seq(n, i requires 0 <= i < n => Trim(rule[i]));
    var k := DropTrailingShape(trimmed);
    forall i | 0 <= i < k ensures Clean(Kept(rule)[i]) && Trim(Kept(rule)[i]) == Kept(rule)[i] {
      TrimKeepsClean(rule[i]);
      TrimIdempotent(rule[i]);
    }
    LoadOfEncode(ptype, Kept(rule));
    assert seq(k, i requires 0 <= i < k => Trim(Kept(rule)[i])) == Kept(rule);
  }
}
