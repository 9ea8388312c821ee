/**
 The policy table against the in-memory policy. Every operation changes both; for canonical rules the table keeps
 listing, type by type, exactly the rules that memory lists.
 */
module PolicyTable {
  import opened Base
  import opened PolicyText

  /** The rows in the order of their ids. */
  type Table = seq<Row>

  /** The in-memory model: for each known policy type, its rules in order. */
  type Policy = map<string, seq<Rule>>

  // ----- lists -----

  /** The elements that are not dropped, in order. */
  function Keep<T>(s: seq<T>, drop: T -> bool): seq<T> {
    if s == [] then [] else (if drop(s[0]) then [] else [s[0]]) + Keep(s[1..], drop)
  }

  lemma {:induction false} KeepMembers<T>(s: seq<T>, drop: T -> bool)
    ensures forall x :: x in Keep(s, drop) <==> x in s && !drop(x)
  {
    if s != [] {
      KeepMembers(s[1..], drop);
      assert forall x :: x in s <==> x == s[0] || x in s[1..];
    }
  }

  lemma {:induction false} KeepDistinct<T(!new)>(s: seq<T>, drop: T -> bool)
    requires Distinct(s)
    ensures Distinct(Keep(s, drop))
  {
    if s != [] {
      KeepDistinct(s[1..], drop);
      KeepMembers(s[1..], drop);
      if drop(s[0]) {
        assert Keep(s, drop) == Keep(s[1..], drop);
      } else {
        assert Keep(s, drop)[1..] == Keep(s[1..], drop);
      }
    }
  }

  lemma {:induction false} AppendDistinct<T(!new)>(s: seq<T>, x: T)
    requires Distinct(s) && x !in s
    ensures Distinct(s + [x])
  {
    if s != [] {
      AppendDistinct(s[1..], x);
      assert (s + [x])[1..] == s[1..] + [x];
    }
  }

  // ----- the adapter -----

  function AddRow(table: Table, ptype: string, rule: Rule): Table {
    table + [Encode(ptype, rule)]
  }

  /** where ptype = $1 and, column by column, v = $n or v is null. An SQL comparison with NULL is never true. */
  predicate MatchesRule(row: Row, ptype: string, rule: Rule) {
    && row.ptype == ptype && |row.vals| == COLUMNS
    && forall i | 0 <= i < COLUMNS :: row.vals[i] == if i < |rule| then Some(rule[i]) else None
  }

  /** Every non-empty value is compared with a column that exists. */
  predicate FitsColumns(fieldIndex: nat, values: seq<string>) {
    forall i | 0 <= i < |values| && values[i] != "" :: fieldIndex + i < COLUMNS
  }

  /** where ptype = $1 and v(fieldIndex + i) = fieldValues[i] for each non-empty value */
  predicate MatchesFilter(row: Row, ptype: string, fieldIndex: nat, values: seq<string>)
    requires FitsColumns(fieldIndex, values)
  {
    && row.ptype == ptype && |row.vals| == COLUMNS
    && forall i | 0 <= i < |values| && values[i] != "" :: row.vals[fieldIndex + i] == Some(values[i])
  }

  function DeleteRule(table: Table, ptype: string, rule: Rule): Table {
    Keep(table, (row: Row) => MatchesRule(row, ptype, rule))
  }

  function DeleteFiltered(table: Table, ptype: string, fieldIndex: nat, values: seq<string>): Table
    requires FitsColumns(fieldIndex, values)
  {
    Keep(table, (row: Row) => MatchesFilter(row, ptype, fieldIndex, values))
  }

  function EncodeAll(ptype: string, rules: seq<Rule>): Table {
    seq(|rules|, i requires 0 <= i < |rules| => Encode(ptype, rules[i]))
  }

  /** SavePolicy: the table is rewritten type by type; the order of the types is the map's own business. */
  function SaveAll(policy: Policy, order: seq<string>): Table
    requires forall i | 0 <= i < |order| :: order[i] in policy
  {
    if order == [] then [] else EncodeAll(order[0], policy[order[0]]) + SaveAll(policy, order[1..])
  }

  // ----- a table as a list of entries -----

  datatype Entry = Entry(ptype: string, rule: Rule)

  /** What loading sees of each row. */
  function Entries(table: Table): seq<Entry> {
    seq(|table|, i requires 0 <= i < |table| => Entry(LoadedType(table[i]), Load(table[i])))
  }

  /** The rules of one type, in order. */
  function Select(entries: seq<Entry>, ptype: string): seq<Rule> {
    if entries == [] then []
    else (if entries[0].ptype == ptype then [entries[0].rule] else []) + Select(entries[1..], ptype)
  }

  /** LoadPolicy for one type: the rows in order, rules already present skipped. */
  function LoadFrom(entries: seq<Entry>, ptype: string, loaded: seq<Rule>): seq<Rule>
    decreases |entries|
  {
    if entries == [] then loaded
    else
      var e := entries[0];
      LoadFrom(entries[1..], ptype, loaded + if e.ptype == ptype && e.rule !in loaded then [e.rule] else [])
  }

  function LoadPolicy(table: Table, ptype: string): seq<Rule> {
    LoadFrom(Entries(table), ptype, [])
  }

  lemma {:induction false} SelectConcat(a: seq<Entry>, b: seq<Entry>, ptype: string)
    ensures Select(a + b, ptype) == Select(a, ptype) + Select(b, ptype)
  {
    if a == [] {
      assert a + b == b;
    } else {
      assert (a + b)[1..] == a[1..] + b;
      SelectConcat(a[1..], b, ptype);
    }
  }

  /** Dropping entries of one type drops the same rules from that type's list and from no other. */
  lemma {:induction false} SelectOfKeep(entries: seq<Entry>, ptype: string, drop: Rule -> bool, t: string)
    ensures Select(Keep(entries, (e: Entry) => e.ptype == ptype && drop(e.rule)), t)
      == if t == ptype then Keep(Select(entries, t), drop) else Select(entries, t)
    decreases |entries|
  {
    if entries != [] {
      var f := (e: Entry) => e.ptype == ptype && drop(e.rule);
      var head := if f(entries[0]) then [] else [entries[0]];
      SelectOfKeep(entries[1..], ptype, drop, t);
      SelectConcat(head, Keep(entries[1..], f), t);
      var own := if entries[0].ptype == t then [entries[0].rule] else [];
      KeepConcat(own, Select(entries[1..], t), drop);
    }
  }

  lemma {:induction false} KeepConcat<T>(a: seq<T>, b: seq<T>, drop: T -> bool)
    ensures Keep(a + b, drop) == Keep(a, drop) + Keep(b, drop)
  {
    if a == [] {
      assert a + b == b;
    } else {
      assert (a + b)[1..] == a[1..] + b;
      KeepConcat(a[1..], b, drop);
    }
  }

  /** Deleting rows deletes their entries. */
  lemma {:induction false} EntriesOfKeep(table: Table, dropRow: Row -> bool, dropEntry: Entry -> bool)
    requires forall i | 0 <= i < |table| :: dropRow(table[i]) == dropEntry(Entries(table)[i])
    ensures Entries(Keep(table, dropRow)) == Keep(Entries(table), dropEntry)
    decreases |table|
  {
    if table != [] {
      assert Entries(table)[1..] == Entries(table[1..]);
      EntriesOfKeep(table[1..], dropRow, dropEntry);
      EntriesConcat(if dropRow(table[0]) then [] else [table[0]], Keep(table[1..], dropRow));
    }
  }

  lemma EntriesConcat(a: Table, b: Table)
    ensures Entries(a + b) == Entries(a) + Entries(b)
  {
  }

  ghost predicate Apart(a: seq<Rule>, b: seq<Rule>) {
    forall r | r in a :: r !in b
  }

  lemma {:induction false} LoadWithoutRepeats(entries: seq<Entry>, ptype: string, loaded: seq<Rule>)
    requires Distinct(Select(entries, ptype)) && Apart(Select(entries, ptype), loaded)
    ensures LoadFrom(entries, ptype, loaded) == loaded + Select(entries, ptype)
    decreases |entries|
  {
    if entries != [] {
      var e, rest := entries[0], Select(entries[1..], ptype);
      if e.ptype == ptype {
        assert Select(entries, ptype) == [e.rule] + rest;
        HeadIsApart(e.rule, rest, loaded);
        LoadWithoutRepeats(entries[1..], ptype, loaded + [e.rule]);
        assert loaded + [e.rule] + rest == loaded + Select(entries, ptype);
      } else {
        assert Select(entries, ptype) == rest;
        assert loaded + [] == loaded;
        LoadWithoutRepeats(entries[1..], ptype, loaded);
      }
    }
  }

  lemma HeadIsApart(rule: Rule, rest: seq<Rule>, loaded: seq<Rule>)
    requires Distinct([rule] + rest) && Apart([rule] + rest, loaded)
    ensures Distinct(rest) && rule !in loaded && Apart(rest, loaded + [rule])
  {
    assert ([rule] + rest)[1..] == rest;
    assert rule in [rule] + rest;
    assert forall r | r in rest :: r in [rule] + rest;
  }

  // ----- the refinement -----

  predicate KnownType(ptype: string) {
    Clean(ptype) && TrimLeft(ptype) == ptype
  }

  /** A row that some canonical rule was written to. */
  ghost predicate CanonicalRow(row: Row) {
    exists ptype, rule :: KnownType(ptype) && Canonical(rule) && row == Encode(ptype, rule)
  }

  ghost predicate CanonicalRows(table: Table) {
    forall row | row in table :: CanonicalRow(row)
  }

  ghost predicate CanonicalRules(rules: seq<Rule>) {
    Distinct(rules) && forall r | r in rules :: Canonical(r)
  }

  ghost predicate CanonicalPolicy(policy: Policy) {
    forall ptype | ptype in policy :: KnownType(ptype) && CanonicalRules(policy[ptype])
  }

  /** Type by type, the table lists what memory lists. */
  ghost predicate Refines(table: Table, policy: Policy) {
    && CanonicalRows(table)
    && CanonicalPolicy(policy)
    && forall ptype | ptype in policy :: Select(Entries(table), ptype) == policy[ptype]
  }

  /** Loading a table that refines a policy gives that policy back. */
  lemma LoadGivesPolicy(table: Table, policy: Policy, ptype: string)
    requires Refines(table, policy) && ptype in policy
    ensures LoadPolicy(table, ptype) == policy[ptype]
  {
    LoadWithoutRepeats(Entries(table), ptype, []);
    assert [] + Select(Entries(table), ptype) == policy[ptype];
  }

  // ----- add -----

  lemma EncodedEntry(ptype: string, rule: Rule)
    requires KnownType(ptype) && Canonical(rule)
    ensures CanonicalRow(Encode(ptype, rule)) && Entries([Encode(ptype, rule)]) == [Entry(ptype, rule)]
  {
    CanonicalRoundTrip(ptype, rule);
  }

  lemma AddKeepsCanonicalRows(table: Table, ptype: string, rule: Rule)
    requires CanonicalRows(table) && KnownType(ptype) && Canonical(rule)
    ensures CanonicalRows(AddRow(table, ptype, rule))
  {
    EncodedEntry(ptype, rule);
  }

  lemma AddKeepsCanonicalPolicy(policy: Policy, ptype: string, rule: Rule)
    requires CanonicalPolicy(policy) && ptype in policy && Canonical(rule) && rule !in policy[ptype]
    ensures CanonicalPolicy(policy[ptype := policy[ptype] + [rule]])
  {
    AppendDistinct(policy[ptype], rule);
    assert CanonicalRules(policy[ptype] + [rule]);
  }

  lemma AddSelects(table: Table, ptype: string, rule: Rule, t: string)
    requires KnownType(ptype) && Canonical(rule)
    ensures Select(Entries(AddRow(table, ptype, rule)), t)
      == Select(Entries(table), t) + if t == ptype then [rule] else []
  {
    EncodedEntry(ptype, rule);
    EntriesConcat(table, [Encode(ptype, rule)]);
    SelectConcat(Entries(table), [Entry(ptype, rule)], t);
    assert Select([Entry(ptype, rule)], t) == if t == ptype then [rule] else [];
  }

  lemma AddRefines(table: Table, policy: Policy, ptype: string, rule: Rule)
    requires Refines(table, policy) && ptype in policy && Canonical(rule) && rule !in policy[ptype]
    ensures Refines(AddRow(table, ptype, rule), policy[ptype := policy[ptype] + [rule]])
  {
    var table', policy' := AddRow(table, ptype, rule), policy[ptype := policy[ptype] + [rule]];
    AddKeepsCanonicalRows(table, ptype, rule);
    AddKeepsCanonicalPolicy(policy, ptype, rule);
    forall t | t in policy' ensures Select(Entries(table'), t) == policy'[t] {
      AddSelects(table, ptype, rule, t);
    }
  }

  // ----- remove -----

  lemma SameByColumns(a: Rule, b: Rule)
    requires |a| <= COLUMNS && |b| <= COLUMNS
    requires forall i | 0 <= i < COLUMNS :: ColumnsAgree(a, b, i)
    ensures a == b
  {
    assert |a| < COLUMNS ==> ColumnsAgree(a, b, |a|);
    assert |b| < COLUMNS ==> ColumnsAgree(a, b, |b|);
    assert |a| == |b|;
    forall i | 0 <= i < |a| ensures a[i] == b[i] {
      assert ColumnsAgree(a, b, i);
    }
  }

  predicate ColumnsAgree(a: Rule, b: Rule, i: nat) {
    (i < |a| <==> i < |b|) && (i < |a| && i < |b| ==> a[i] == b[i])
  }

  /** The query for a canonical rule finds exactly the rows that were written for it. */
  lemma QueryFindsRule(held: Rule, heldType: string, ptype: string, rule: Rule)
    requires Canonical(held) && Canonical(rule)
    ensures MatchesRule(Encode(heldType, held), ptype, rule) <==> heldType == ptype && held == rule
  {
    var row := Encode(heldType, held);
    if MatchesRule(row, ptype, rule) {
      forall i | 0 <= i < COLUMNS ensures ColumnsAgree(rule, held, i) {
        assert row.vals[i] == ValueAt(held, i);
      }
      SameByColumns(rule, held);
    }
  }

  lemma FilterFindsRules(held: Rule, heldType: string, ptype: string, fieldIndex: nat, values: seq<string>)
    requires Canonical(held) && FitsColumns(fieldIndex, values)
    ensures MatchesFilter(Encode(heldType, held), ptype, fieldIndex, values)
      <==> heldType == ptype && RuleMatches(held, fieldIndex, values)
  {
    var row := Encode(heldType, held);
    forall i | 0 <= i < |values| && values[i] != ""
      ensures row.vals[fieldIndex + i] == Some(values[i])
        <==> fieldIndex + i < |held| && held[fieldIndex + i] == values[i]
    {
      assert row.vals[fieldIndex + i] == ValueAt(held, fieldIndex + i);
    }
  }

  /** The in-memory filter. */
  predicate RuleMatches(rule: Rule, fieldIndex: nat, values: seq<string>) {
    forall i | 0 <= i < |values| && values[i] != "" :: fieldIndex + i < |rule| && rule[fieldIndex + i] == values[i]
  }

  /** The query deletes a canonical row exactly when memory drops the rule it was written for. */
  ghost predicate QueryAgrees(dropRow: Row -> bool, ptype: string, drop: Rule -> bool) {
    forall t, rule | KnownType(t) && Canonical(rule) :: dropRow(Encode(t, rule)) == (t == ptype && drop(rule))
  }

  lemma QueryAgreesOnEntries(table: Table, ptype: string, dropRow: Row -> bool, drop: Rule -> bool)
    requires CanonicalRows(table) && QueryAgrees(dropRow, ptype, drop)
    ensures Entries(Keep(table, dropRow)) == Keep(Entries(table), (e: Entry) => e.ptype == ptype && drop(e.rule))
  {
    var dropEntry := (e: Entry) => e.ptype == ptype && drop(e.rule);
    forall i | 0 <= i < |table| ensures dropRow(table[i]) == dropEntry(Entries(table)[i]) {
      assert table[i] in table && CanonicalRow(table[i]);
      var t, rule :| KnownType(t) && Canonical(rule) && table[i] == Encode(t, rule);
      CanonicalRoundTrip(t, rule);
    }
    EntriesOfKeep(table, dropRow, dropEntry);
  }

  lemma KeepCanonicalRules(rules: seq<Rule>, drop: Rule -> bool)
    requires CanonicalRules(rules)
    ensures CanonicalRules(Keep(rules, drop))
  {
    KeepMembers(rules, drop);
    KeepDistinct(rules, drop);
  }

  lemma DeletionSelects(table: Table, ptype: string, dropRow: Row -> bool, drop: Rule -> bool, t: string)
    requires CanonicalRows(table) && QueryAgrees(dropRow, ptype, drop)
    ensures Select(Entries(Keep(table, dropRow)), t)
      == if t == ptype then Keep(Select(Entries(table), t), drop) else Select(Entries(table), t)
  {
    QueryAgreesOnEntries(table, ptype, dropRow, drop);
    SelectOfKeep(Entries(table), ptype, drop, t);
  }

  lemma DeletionKeepsCanonical(table: Table, policy: Policy, ptype: string, dropRow: Row -> bool, drop: Rule -> bool)
    requires CanonicalRows(table) && CanonicalPolicy(policy) && ptype in policy
    ensures CanonicalRows(Keep(table, dropRow)) && CanonicalPolicy(policy[ptype := Keep(policy[ptype], drop)])
  {
    KeepMembers(table, dropRow);
    KeepCanonicalRules(policy[ptype], drop);
  }

  /** A deletion whose query agrees with an in-memory filter keeps the refinement. */
  lemma DeletionRefines(table: Table, policy: Policy, ptype: string, dropRow: Row -> bool, drop: Rule -> bool)
    requires Refines(table, policy) && ptype in policy && QueryAgrees(dropRow, ptype, drop)
    ensures Refines(Keep(table, dropRow), policy[ptype := Keep(policy[ptype], drop)])
  {
    var policy' := policy[ptype := Keep(policy[ptype], drop)];
    DeletionKeepsCanonical(table, policy, ptype, dropRow, drop);
    forall t | t in policy' ensures Select(Entries(Keep(table, dropRow)), t) == policy'[t] {
      DeletionSelects(table, ptype, dropRow, drop, t);
    }
  }

  lemma RemoveRefines(table: Table, policy: Policy, ptype: string, rule: Rule)
    requires Refines(table, policy) && ptype in policy && Canonical(rule)
    ensures Refines(DeleteRule(table, ptype, rule), policy[ptype := Keep(policy[ptype], (r: Rule) => r == rule)])
  {
    var dropRow, drop := (row: Row) => MatchesRule(row, ptype, rule), (r: Rule) => r == rule;
    forall t, held | KnownType(t) && Canonical(held)
      ensures dropRow(Encode(t, held)) == (t == ptype && drop(held))
    {
      QueryFindsRule(held, t, ptype, rule);
    }
    DeletionRefines(table, policy, ptype, dropRow, drop);
  }

  lemma RemoveFilteredRefines(table: Table, policy: Policy, ptype: string, fieldIndex: nat, values: seq<string>)
    requires Refines(table, policy) && ptype in policy && FitsColumns(fieldIndex, values)
    ensures Refines(
      DeleteFiltered(table, ptype, fieldIndex, values),
      policy[ptype := Keep(policy[ptype], (r: Rule) => RuleMatches(r, fieldIndex, values))])
  {
    var dropRow := (row: Row) => MatchesFilter(row, ptype, fieldIndex, values);
    var drop := (r: Rule) => RuleMatches(r, fieldIndex, values);
    forall t, held | KnownType(t) && Canonical(held)
      ensures dropRow(Encode(t, held)) == (t == ptype && drop(held))
    {
      FilterFindsRules(held, t, ptype, fieldIndex, values);
    }
    DeletionRefines(table, policy, ptype, dropRow, drop);
  }

  /** The fields of a rule that RemovePolicy's query can find again. */
  predicate Findable(rule: Rule) {
    forall i | 0 <= i < |rule| && i < COLUMNS :: rule[i] != "" && Trim(rule[i]) == rule[i]
  }

  /** The query for a rule finds a stored rule exactly when the first is findable and both have the same columns. */
  lemma QueryFindsExactlyWhen(ptype: string, held: Rule, rule: Rule)
    ensures MatchesRule(Encode(ptype, held), ptype, rule)
      <==> Findable(rule) && Encode(ptype, held) == Encode(ptype, rule)
  {
    var row, own := Encode(ptype, held), Encode(ptype, rule);
    assert forall i | 0 <= i < COLUMNS :: row.vals[i] == ValueAt(held, i) && own.vals[i] == ValueAt(rule, i);
    if MatchesRule(row, ptype, rule) {
      forall i | 0 <= i < |rule| && i < COLUMNS ensures rule[i] != "" && Trim(rule[i]) == rule[i] {
        assert ValueAt(held, i) == Some(rule[i]);
        TrimIdempotent(held[i]);
      }
      assert row.vals == own.vals;
    }
  }

  /**
   For rules that are not canonical the query can miss the row that was written for them. On any table, adding a rule
   and removing it again leaves what removing it alone would leave if and only if each stored field is non-empty and
   trimmed.
   */
  lemma AddThenRemoveExactlyWhen(table: Table, ptype: string, rule: Rule)
    ensures DeleteRule(AddRow(table, ptype, rule), ptype, rule) == DeleteRule(table, ptype, rule) <==> Findable(rule)
  {
    var drop := (row: Row) => MatchesRule(row, ptype, rule);
    var row := Encode(ptype, rule);
    QueryFindsExactlyWhen(ptype, rule, rule);
    KeepConcat(table, [row], drop);
    assert Keep([row], drop) == if drop(row) then [] else [row];
  }

  /** A rule with an empty field in the middle is stored and not found by its own removal. */
  lemma RemoveMissesEmptyField()
    ensures DeleteRule(AddRow([], "p", ["a", "", "r"]), "p", ["a", "", "r"]) == [Encode("p", ["a", "", "r"])]
  {
    var rule := ["a", "", "r"];
    var drop := (row: Row) => MatchesRule(row, "p", rule);
    assert rule[1] == "" && !Findable(rule);
    QueryFindsExactlyWhen("p", rule, rule);
    assert AddRow([], "p", rule) == [Encode("p", rule)];
    assert Keep([Encode("p", rule)], drop) == [Encode("p", rule)];
  }

  // ----- remove, against any list of rules -----

  /** Dropping more leaves fewer, and leaves as many only if nothing more is dropped. */
  lemma {:induction false} KeepFewer<T>(s: seq<T>, drop: T -> bool, more: T -> bool)
    requires forall x | x in s && drop(x) :: more(x)
    ensures |Keep(s, more)| <= |Keep(s, drop)|
    ensures |Keep(s, more)| == |Keep(s, drop)| <==> forall x | x in s && more(x) :: drop(x)
  {
    if s != [] {
      KeepFewer(s[1..], drop, more);
      assert forall x :: x in s <==> x == s[0] || x in s[1..];
    }
  }

  lemma {:induction false} KeepAlike<T>(s: seq<T>, f: T -> bool, g: T -> bool)
    requires forall x | x in s :: f(x) == g(x)
    ensures Keep(s, f) == Keep(s, g)
  {
    if s != [] {
      assert s[0] in s && forall x | x in s[1..] :: x in s;
      KeepAlike(s[1..], f, g);
    }
  }

  /** Deleting the rows of rules is deleting the rules whose rows are deleted. */
  lemma {:induction false} KeepOfEncodeAll(ptype: string, rules: seq<Rule>, dropRow: Row -> bool)
    ensures Keep(EncodeAll(ptype, rules), dropRow)
      == EncodeAll(ptype, Keep(rules, (r: Rule) => dropRow(Encode(ptype, r))))
    decreases |rules|
  {
    if rules != [] {
      var drop := (r: Rule) => dropRow(Encode(ptype, r));
      assert EncodeAll(ptype, rules)[1..] == EncodeAll(ptype, rules[1..]);
      KeepOfEncodeAll(ptype, rules[1..], dropRow);
      var rest := Keep(rules[1..], drop);
      assert EncodeAll(ptype, [rules[0]] + rest) == [Encode(ptype, rules[0])] + EncodeAll(ptype, rest);
      assert [] + rest == rest;
    }
  }

  /** The rule, if it is there, can be found, and then no other rule has the same stored columns. */
  ghost predicate RemovedAlone(ptype: string, rules: seq<Rule>, rule: Rule) {
    && (rule in rules ==> Findable(rule))
    && (Findable(rule) ==> forall r | r in rules && Encode(ptype, r) == Encode(ptype, rule) :: r == rule)
  }

  /**
   Removing a rule from the table removes exactly that rule from the list that the table was written from if and only
   if the rule is findable where it is held and no other held rule has the same six stored columns.
   */
  lemma RemoveAgreesExactlyWhen(ptype: string, rules: seq<Rule>, rule: Rule)
    ensures DeleteRule(EncodeAll(ptype, rules), ptype, rule) == EncodeAll(ptype, Keep(rules, (r: Rule) => r == rule))
      <==> RemovedAlone(ptype, rules, rule)
  {
    var found := (r: Rule) => MatchesRule(Encode(ptype, r), ptype, rule);
    var same := (r: Rule) => r == rule;
    var dropRow := (row: Row) => MatchesRule(row, ptype, rule);
    KeepOfEncodeAll(ptype, rules, dropRow);
    KeepAlike(rules, found, (r: Rule) => dropRow(Encode(ptype, r)));
    forall r | r in rules ensures found(r) <==> Findable(rule) && Encode(ptype, r) == Encode(ptype, rule) {
      QueryFindsExactlyWhen(ptype, r, rule);
    }
    if Findable(rule) {
      KeepFewer(rules, same, found);
    } else {
      KeepFewer(rules, found, same);
    }
    if RemovedAlone(ptype, rules, rule) {
      KeepAlike(rules, found, same);
    }
  }

  /** Removing one rule takes the row of another that differs from it only by a space. */
  lemma RemoveTakesAnother()
    ensures DeleteRule(AddRow(AddRow([], "p", ["a", "b"]), "p", ["a ", "b"]), "p", ["a", "b"]) == []
    ensures Keep([["a", "b"], ["a ", "b"]], (r: Rule) => r == ["a", "b"]) == [["a ", "b"]]
  {
    var plain: Rule, spaced: Rule := ["a", "b"], ["a ", "b"];
    var drop := (row: Row) => MatchesRule(row, "p", plain);
    assert Trim("a") == "a" && Trim("b") == "b";
    assert Trim("a ") == "a" by {
      assert "a "[..1] == "a";
    }
    assert Encode("p", spaced).vals == Encode("p", plain).vals;
    QueryFindsExactlyWhen("p", plain, plain);
    var row := Encode("p", plain);
    assert AddRow(AddRow([], "p", plain), "p", spaced) == [row, row];
    assert [row, row][1..] == [row] && [row][1..] == [];
    assert plain[0] != spaced[0];
    var rules, rest := [plain, spaced], [spaced];
    assert rules[1..] == rest && rest[1..] == [];
  }

  // ----- save -----

  lemma EncodeAllIsCanonical(ptype: string, rules: seq<Rule>)
    requires KnownType(ptype) && forall r | r in rules :: Canonical(r)
    ensures CanonicalRows(EncodeAll(ptype, rules))
    ensures Entries(EncodeAll(ptype, rules)) == seq(|rules|, i requires 0 <= i < |rules| => Entry(ptype, rules[i]))
  {
    forall i | 0 <= i < |rules|
      ensures CanonicalRow(EncodeAll(ptype, rules)[i])
      ensures Entries(EncodeAll(ptype, rules))[i] == Entry(ptype, rules[i])
    {
      CanonicalRoundTrip(ptype, rules[i]);
    }
  }

  lemma {:induction false} SelectOfOneType(ptype: string, rules: seq<Rule>, t: string)
    ensures Select(seq(|rules|, i requires 0 <= i < |rules| => Entry(ptype, rules[i])), t)
      == if t == ptype then rules else []
    decreases |rules|
  {
    if rules != [] {
      var entries := seq(|rules|, i requires 0 <= i < |rules| => Entry(ptype, rules[i]));
      var rest := rules[1..];
      assert entries[1..] == seq(|rest|, i requires 0 <= i < |rest| => Entry(ptype, rest[i]));
      SelectOfOneType(ptype, rest, t);
    }
  }

  lemma EntriesOfEncodeAll(ptype: string, rules: seq<Rule>, t: string)
    requires KnownType(ptype) && forall r | r in rules :: Canonical(r)
    ensures CanonicalRows(EncodeAll(ptype, rules))
    ensures Select(Entries(EncodeAll(ptype, rules)), t) == if t == ptype then rules else []
  {
    EncodeAllIsCanonical(ptype, rules);
    SelectOfOneType(ptype, rules, t);
  }

  lemma {:induction false} SaveListsPolicy(policy: Policy, order: seq<string>, t: string)
    requires CanonicalPolicy(policy) && (forall i | 0 <= i < |order| :: order[i] in policy) && Distinct(order)
    ensures CanonicalRows(SaveAll(policy, order))
    ensures Select(Entries(SaveAll(policy, order)), t) == if t in order then policy[t] else []
    decreases |order|
  {
    if order != [] {
      var first, rest := EncodeAll(order[0], policy[order[0]]), SaveAll(policy, order[1..]);
      EntriesOfEncodeAll(order[0], policy[order[0]], t);
      SaveListsPolicy(policy, order[1..], t);
      EntriesConcat(first, rest);
      SelectConcat(Entries(first), Entries(rest), t);
      assert t in order <==> t == order[0] || t in order[1..];
    }
  }

  /** The order is a listing of the policy types. */
  ghost predicate Lists(order: seq<string>, policy: Policy) {
    Distinct(order) && (forall i | 0 <= i < |order| :: order[i] in policy) && (forall t | t in policy :: t in order)
  }

  /** Whatever the order in which the types are written, a saved table lists the policy. */
  lemma SaveRefines(policy: Policy, order: seq<string>)
    requires CanonicalPolicy(policy) && Lists(order, policy)
    ensures Refines(SaveAll(policy, order), policy)
  {
    SaveListsPolicy(policy, order, "");
    forall t | t in policy ensures Select(Entries(SaveAll(policy, order)), t) == policy[t] {
      SaveListsPolicy(policy, order, t);
    }
  }

  // ----- seed -----

  /** The rules of a type after adding, one by one, those that are missing. */
  function Seeded(rules: seq<Rule>, defaults: seq<Rule>): seq<Rule>
    decreases |defaults|
  {
    if defaults == [] then rules
    else Seeded(if defaults[0] in rules then rules else rules + [defaults[0]], defaults[1..])
  }

  lemma {:induction false} SeedingKeepsCanonical(rules: seq<Rule>, defaults: seq<Rule>)
    requires CanonicalRules(rules) && forall r | r in defaults :: Canonical(r)
    ensures CanonicalRules(Seeded(rules, defaults))
    decreases |defaults|
  {
    if defaults != [] {
      assert defaults[0] in defaults && forall r | r in defaults[1..] :: r in defaults;
      if defaults[0] in rules {
        SeedingKeepsCanonical(rules, defaults[1..]);
      } else {
        AppendDistinct(rules, defaults[0]);
        SeedingKeepsCanonical(rules + [defaults[0]], defaults[1..]);
      }
    }
  }

  /** Seeding a type adds what is missing and, if that was anything, rewrites the whole table. */
  ghost function Seed(b: Both, ptype: string, defaults: seq<Rule>, order: seq<string>): Both
    requires ptype in b.policy && Lists(order, b.policy)
  {
    var policy' := b.policy[ptype := Seeded(b.policy[ptype], defaults)];
    if policy' == b.policy then b else Both(SaveAll(policy', order), policy')
  }

  lemma SeedRefines(b: Both, ptype: string, defaults: seq<Rule>, order: seq<string>)
    requires Refines(b.table, b.policy) && ptype in b.policy && Lists(order, b.policy)
    requires forall r | r in defaults :: Canonical(r)
    ensures var b' := Seed(b, ptype, defaults, order);
      Refines(b'.table, b'.policy) && b'.policy.Keys == b.policy.Keys
  {
    var policy' := b.policy[ptype := Seeded(b.policy[ptype], defaults)];
    assert CanonicalRules(b.policy[ptype]);
    SeedingKeepsCanonical(b.policy[ptype], defaults);
    assert CanonicalPolicy(policy');
    if policy' != b.policy {
      SaveRefines(policy', order);
    }
  }

  // ----- whole histories -----

  datatype Op =
    | Add(ptype: string, rule: Rule)
    | Remove(ptype: string, rule: Rule)
    | RemoveFiltered(ptype: string, fieldIndex: nat, values: seq<string>)
    | Save(order: seq<string>)
    | SeedDefaults(ptype: string, defaults: seq<Rule>, order: seq<string>)

  /** The table and the policy, changed together by the enforcer. */
  datatype Both = Both(table: Table, policy: Policy)

  ghost predicate Allowed(policy: Policy, op: Op) {
    match op
    case Add(t, rule) => t in policy && Canonical(rule)
    case Remove(t, rule) => t in policy && Canonical(rule)
    case RemoveFiltered(t, fieldIndex, values) => t in policy && FitsColumns(fieldIndex, values)
    case Save(order) => Lists(order, policy)
    case SeedDefaults(t, defaults, order) =>
      t in policy && Lists(order, policy) && forall r | r in defaults :: Canonical(r)
  }

  ghost function Do(b: Both, op: Op): Both
    requires Allowed(b.policy, op)
  {
    match op
    case Add(t, rule) =>
      if rule in b.policy[t] then b
      else Both(AddRow(b.table, t, rule), b.policy[t := b.policy[t] + [rule]])
    case Remove(t, rule) =>
      Both(DeleteRule(b.table, t, rule), b.policy[t := Keep(b.policy[t], (r: Rule) => r == rule)])
    case RemoveFiltered(t, fieldIndex, values) =>
      Both(
        DeleteFiltered(b.table, t, fieldIndex, values),
        b.policy[t := Keep(b.policy[t], (r: Rule) => RuleMatches(r, fieldIndex, values))])
    case Save(order) => Both(SaveAll(b.policy, order), b.policy)
    case SeedDefaults(t, defaults, order) => Seed(b, t, defaults, order)
  }

  lemma OpRefines(b: Both, op: Op)
    requires Refines(b.table, b.policy) && Allowed(b.policy, op)
    ensures Refines(Do(b, op).table, Do(b, op).policy) && Do(b, op).policy.Keys == b.policy.Keys
  {
    match op
    case Add(t, rule) =>
      if rule !in b.policy[t] {
        AddRefines(b.table, b.policy, t, rule);
      }
    case Remove(t, rule) => RemoveRefines(b.table, b.policy, t, rule);
    case RemoveFiltered(t, fieldIndex, values) => RemoveFilteredRefines(b.table, b.policy, t, fieldIndex, values);
    case Save(order) => SaveRefines(b.policy, order);
    case SeedDefaults(t, defaults, order) => SeedRefines(b, t, defaults, order);
  }

  ghost predicate History(b: Both, ops: seq<Op>, b': Both)
    decreases |ops|
  {
    if ops == [] then b' == b
    else Allowed(b.policy, ops[0]) && History(Do(b, ops[0]), ops[1..], b')
  }

  /** After any history of operations, loading the table gives exactly the rules in memory, in order. */
  lemma {:induction false} LoadAfterAnyHistory(b: Both, ops: seq<Op>, b': Both, ptype: string)
    requires Refines(b.table, b.policy) && History(b, ops, b') && ptype in b.policy
    ensures Refines(b'.table, b'.policy) && ptype in b'.policy
    ensures LoadPolicy(b'.table, ptype) == b'.policy[ptype]
    decreases |ops|
  {
    if ops == [] {
      LoadGivesPolicy(b.table, b.policy, ptype);
    } else {
      OpRefines(b, ops[0]);
      LoadAfterAnyHistory(Do(b, ops[0]), ops[1..], b', ptype);
    }
  }
}
