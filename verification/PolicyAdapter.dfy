/** The Postgres adapter and the enforcer in front of it, as objects that change their table and their model. */
module PolicyAdapter {
  import opened Base
  import opened PolicyText
  import opened PolicyTable

  /** One conjunct of a where clause. */
  datatype Condition = Equals(column: nat, value: string) | IsNull(column: nat)

  predicate Holds(row: Row, c: Condition) {
    && c.column < |row.vals|
    && match c
       case Equals(i, value) => row.vals[i] == Some(value)
       case IsNull(i) => row.vals[i] == None
  }

  predicate HoldAll(row: Row, ptype: string, conditions: seq<Condition>) {
    row.ptype == ptype && forall i | 0 <= i < |conditions| :: Holds(row, conditions[i])
  }

  /** buildPolicyQuery: one condition per column. */
  method BuildPolicyQuery(ptype: string, rule: Rule) returns (conditions: seq<Condition>)
    ensures |conditions| == COLUMNS
    ensures forall row: Row | |row.vals| == COLUMNS ::
      HoldAll(row, ptype, conditions) <==> MatchesRule(row, ptype, rule)
  {
    conditions := [];
    for i := 0 to COLUMNS
      invariant |conditions| == i
      invariant forall k | 0 <= k < i ::
        conditions[k] == if k < |rule| then Equals(k, rule[k]) else IsNull(k)
    {
      if i < |rule| {
        conditions := conditions + [Equals(i, rule[i])];
      } else {
        conditions := conditions + [IsNull(i)];
      }
    }
    forall row: Row | |row.vals| == COLUMNS
      ensures HoldAll(row, ptype, conditions) <==> MatchesRule(row, ptype, rule)
    {
      forall k | 0 <= k < COLUMNS
        ensures Holds(row, conditions[k]) <==> row.vals[k] == if k < |rule| then Some(rule[k]) else None
      {
      }
    }
  }

  /** Whether the statement names only columns that exist. */
  predicate ColumnsExist(conditions: seq<Condition>) {
    forall k | 0 <= k < |conditions| :: conditions[k].column < COLUMNS
  }

  /** The query of RemoveFilteredPolicy: a condition for each non-empty value, whatever column that leads to. */
  method BuildFilterQuery(ptype: string, fieldIndex: nat, values: seq<string>) returns (conditions: seq<Condition>)
    ensures ColumnsExist(conditions) <==> FitsColumns(fieldIndex, values)
    ensures FitsColumns(fieldIndex, values) ==> forall row: Row | |row.vals| == COLUMNS ::
      HoldAll(row, ptype, conditions) <==> MatchesFilter(row, ptype, fieldIndex, values)
  {
    conditions := [];
    for i := 0 to |values|
      invariant ColumnsExist(conditions) <==> forall k | 0 <= k < i && values[k] != "" :: fieldIndex + k < COLUMNS
      invariant forall row: Row | |row.vals| == COLUMNS ::
        (forall k | 0 <= k < |conditions| :: Holds(row, conditions[k]))
        <==> (forall k | 0 <= k < i && values[k] != "" ::
                fieldIndex + k < COLUMNS && row.vals[fieldIndex + k] == Some(values[k]))
    {
      if values[i] != "" {
        var next := Equals(fieldIndex + i, values[i]);
        ghost var before := conditions;
        conditions := conditions + [next];
        assert conditions[|before|] == next;
        assert forall k | 0 <= k < |before| :: conditions[k] == before[k];
        forall row: Row | |row.vals| == COLUMNS
          ensures (forall k | 0 <= k < |conditions| :: Holds(row, conditions[k]))
            <==> (forall k | 0 <= k < |before| :: Holds(row, before[k])) && Holds(row, next)
        {
          assert conditions[|before|] == next;
          assert forall k | 0 <= k < |before| :: conditions[k] == before[k];
        }
      }
    }
  }

  /** The text line for one row: find the last non-empty part, then join up to it. */
  method BuildLine(row: Row) returns (line: string)
    ensures line == LineOf(row)
  {
    var parts := Parts(row);
    var last := -1;
    for i := 0 to |parts|
      invariant -1 <= last < i
      invariant last >= 0 ==> parts[last] != ""
      invariant forall k | last < k < i :: parts[k] == ""
    {
      if parts[i] != "" {
        last := i;
      }
    }
    KeptUpToLast(parts, last + 1);
    var kept := parts[..last + 1];
    line := row.ptype;
    for i := 0 to last + 1
      invariant Join(line, kept[i..]) == LineOf(row)
    {
      assert kept[i..][0] == parts[i] && kept[i..][1..] == kept[i + 1..];
      line := line + ", " + parts[i];
    }
    assert kept[last + 1..] == [];
  }

  lemma {:induction false} KeptUpToLast(parts: seq<string>, n: nat)
    requires n <= |parts| && (n > 0 ==> parts[n - 1] != "") && forall k | n <= k < |parts| :: parts[k] == ""
    ensures DropTrailing(parts) == parts[..n]
    decreases |parts|
  {
    if n < |parts| {
      KeptUpToLast(parts[..|parts| - 1], n);
      assert parts[..|parts| - 1][..n] == parts[..n];
    } else {
      assert parts[..n] == parts;
    }
  }

  lemma KeepOneMore(rows: Table, drop: Row -> bool, i: nat)
    requires i < |rows|
    ensures Keep(rows[i..], drop) == (if drop(rows[i]) then [] else [rows[i]]) + Keep(rows[i + 1..], drop)
  {
    assert rows[i..][0] == rows[i] && rows[i..][1..] == rows[i + 1..];
  }

  /** delete ... where: the rows that satisfy every condition go. */
  method DeleteWhere(rows: Table, ptype: string, conditions: seq<Condition>) returns (kept: Table)
    ensures kept == Keep(rows, (row: Row) => HoldAll(row, ptype, conditions))
  {
    kept := [];
    ghost var drop := (row: Row) => HoldAll(row, ptype, conditions);
    for i := 0 to |rows|
      invariant kept + Keep(rows[i..], drop) == Keep(rows, drop)
    {
      KeepOneMore(rows, drop, i);
      if !HoldAll(rows[i], ptype, conditions) {
        kept := kept + [rows[i]];
      }
    }
    assert rows[|rows|..] == [];
  }

  lemma {:induction false} SameQuerySameRows(rows: Table, f: Row -> bool, g: Row -> bool)
    requires forall row | row in rows :: f(row) == g(row)
    ensures Keep(rows, f) == Keep(rows, g)
  {
    if rows != [] {
      assert rows[0] in rows;
      SameQuerySameRows(rows[1..], f, g);
    }
  }

  /** Loading one entry: appended to its type unless it is there or the type is unknown. */
  function LoadEntry(policy: Policy, e: Entry): Policy {
    if e.ptype in policy && e.rule !in policy[e.ptype] then policy[e.ptype := policy[e.ptype] + [e.rule]] else policy
  }

  function LoadEntries(policy: Policy, entries: seq<Entry>): Policy
    decreases |entries|
  {
    if entries == [] then policy else LoadEntries(LoadEntry(policy, entries[0]), entries[1..])
  }

  /** Loading all types at once is loading each type on its own. */
  lemma {:induction false} LoadTypeByType(policy: Policy, entries: seq<Entry>, t: string)
    requires t in policy
    ensures t in LoadEntries(policy, entries) && LoadEntries(policy, entries)[t] == LoadFrom(entries, t, policy[t])
    ensures LoadEntries(policy, entries).Keys == policy.Keys
    decreases |entries|
  {
    if entries != [] {
      LoadTypeByType(LoadEntry(policy, entries[0]), entries[1..], t);
      assert policy[t] + [] == policy[t];
    }
  }

  /** After `i` rows: loading the rest of the rows leads to the same policy as loading all of them from nothing. */
  ghost predicate LoadingAt(rows: Table, types: set<string>, policy: Policy, i: nat) {
    && policy.Keys == types && i <= |rows|
    && LoadEntries(policy, Entries(rows)[i..]) == LoadEntries(map t | t in types :: [], Entries(rows))
  }

  lemma LoadingStarts(rows: Table, types: set<string>)
    ensures LoadingAt(rows, types, map t | t in types :: [], 0)
  {
    assert Entries(rows)[0..] == Entries(rows);
  }

  lemma LoadingGoesOn(rows: Table, types: set<string>, policy: Policy, i: nat, e: Entry)
    requires LoadingAt(rows, types, policy, i) && i < |rows| && e == Entry(LoadedType(rows[i]), Load(rows[i]))
    requires e.ptype in types
    ensures LoadingAt(rows, types, LoadEntry(policy, e), i + 1)
  {
    var entries := Entries(rows);
    assert entries[i..][0] == e && entries[i..][1..] == entries[i + 1..];
  }

  lemma LoadingEnds(rows: Table, types: set<string>, policy: Policy)
    requires LoadingAt(rows, types, policy, |rows|)
    ensures policy.Keys == types && forall t | t in types :: policy[t] == LoadPolicy(rows, t)
  {
    assert Entries(rows)[|rows|..] == [];
    forall t | t in types ensures policy[t] == LoadPolicy(rows, t) {
      LoadTypeByType(map t | t in types :: [], Entries(rows), t);
    }
  }

  method ReadRow(row: Row) returns (e: Entry)
    ensures e == Entry(LoadedType(row), Load(row))
  {
    var line := BuildLine(row);
    var tokens := Tokens(line);
    e := Entry(tokens[0], tokens[1..]);
  }

  class PostgresAdapter {
    var rows: Table

    constructor ()
      ensures rows == []
    {
      rows := [];
    }

    /** Reads the rows in id order into the model; a row of an unknown type is an error. */
    method Load(types: set<string>) returns (ok: bool, policy: Policy)
      ensures ok <==> forall i | 0 <= i < |rows| :: LoadedType(rows[i]) in types
      ensures ok ==> policy.Keys == types && forall t | t in types :: policy[t] == LoadPolicy(rows, t)
    {
      policy := map t | t in types :: [];
      LoadingStarts(rows, types);
      for i := 0 to |rows|
        invariant LoadingAt(rows, types, policy, i)
        invariant forall k | 0 <= k < i :: LoadedType(rows[k]) in types
      {
        var e := ReadRow(rows[i]);
        if e.ptype !in types {
          ok := false;
          return;
        }
        LoadingGoesOn(rows, types, policy, i, e);
        if e.rule !in policy[e.ptype] {
          policy := policy[e.ptype := policy[e.ptype] + [e.rule]];
        }
      }
      LoadingEnds(rows, types, policy);
      ok := true;
    }

    /** Truncate, then insert every rule of every type, in whatever order the types come. */
    method Save(policy: Policy, order: seq<string>)
      requires forall i | 0 <= i < |order| :: order[i] in policy
      modifies this
      ensures rows == SaveAll(policy, order)
    {
      rows := [];
      var i := 0;
      while i < |order|
        invariant 0 <= i <= |order|
        invariant rows + SaveAll(policy, order[i..]) == SaveAll(policy, order)
      {
        var rules := policy[order[i]];
        ghost var before := rows;
        assert order[i..][0] == order[i] && order[i..][1..] == order[i + 1..];
        var j := 0;
        while j < |rules|
          invariant 0 <= j <= |rules|
          invariant rows == before + EncodeAll(order[i], rules)[..j]
        {
          rows := rows + [Encode(order[i], rules[j])];
          j := j + 1;
        }
        assert EncodeAll(order[i], rules)[..|rules|] == EncodeAll(order[i], rules);
        i := i + 1;
      }
      assert order[|order|..] == [];
    }

    method Add(ptype: string, rule: Rule)
      modifies this
      ensures rows == AddRow(old(rows), ptype, rule)
    {
      rows := rows + [Encode(ptype, rule)];
    }

    method Remove(ptype: string, rule: Rule)
      requires forall row | row in rows :: |row.vals| == COLUMNS
      modifies this
      ensures rows == DeleteRule(old(rows), ptype, rule)
    {
      var conditions := BuildPolicyQuery(ptype, rule);
      SameQuerySameRows(
        rows, (row: Row) => HoldAll(row, ptype, conditions), (row: Row) => MatchesRule(row, ptype, rule));
      rows := DeleteWhere(rows, ptype, conditions);
    }

    /** A filter that reaches past column v5 names a column that does not exist, and the statement fails. */
    method RemoveFiltered(ptype: string, fieldIndex: nat, values: seq<string>) returns (ok: bool)
      requires forall row | row in rows :: |row.vals| == COLUMNS
      modifies this
      ensures ok <==> FitsColumns(fieldIndex, values)
      ensures rows == if ok then DeleteFiltered(old(rows), ptype, fieldIndex, values) else old(rows)
    {
      var conditions := BuildFilterQuery(ptype, fieldIndex, values);
      ok := ColumnsExist(conditions);
      if ok {
        SameQuerySameRows(
          rows,
          (row: Row) => HoldAll(row, ptype, conditions),
          (row: Row) => MatchesFilter(row, ptype, fieldIndex, values));
        rows := DeleteWhere(rows, ptype, conditions);
      }
    }
  }

  // ----- seeding -----

  const DEFAULT_RULES: seq<Rule> := [
    ["tenant_owner", "tenant:*", "/v1/admin/*", "*"],
    ["tenant_admin", "tenant:*", "/v1/admin/*", "*"],
    ["tenant_owner", "tenant:*", "/api/v1/admin/*", "*"],
    ["tenant_admin", "tenant:*", "/api/v1/admin/*", "*"]]

  /** After `i` of the defaults: only the one type has changed, and the rest of the defaults lead to the same end. */
  ghost predicate SeedingAt(
    before: Policy, policy: Policy, ptype: string, defaults: seq<Rule>, i: nat, changed: bool)
  {
    && ptype in before && ptype in policy && i <= |defaults|
    && policy == before[ptype := policy[ptype]]
    && Seeded(policy[ptype], defaults[i..]) == Seeded(before[ptype], defaults)
    && if changed then |before[ptype]| < |policy[ptype]| else policy == before
  }

  lemma SeedingStarts(before: Policy, ptype: string, defaults: seq<Rule>)
    requires ptype in before
    ensures SeedingAt(before, before, ptype, defaults, 0, false)
  {
    assert defaults[0..] == defaults;
    assert before == before[ptype := before[ptype]];
  }

  lemma SeedingGoesOn(
    before: Policy, policy: Policy, policy': Policy, ptype: string, defaults: seq<Rule>, i: nat,
    changed: bool, added: bool)
    requires SeedingAt(before, policy, ptype, defaults, i, changed) && i < |defaults|
    requires added == (defaults[i] !in policy[ptype])
    requires policy' == if added then policy[ptype := policy[ptype] + [defaults[i]]] else policy
    ensures SeedingAt(before, policy', ptype, defaults, i + 1, changed || added)
  {
    assert defaults[i..][0] == defaults[i] && defaults[i..][1..] == defaults[i + 1..];
  }

  lemma SeedingEnds(before: Policy, policy: Policy, ptype: string, defaults: seq<Rule>, changed: bool)
    requires SeedingAt(before, policy, ptype, defaults, |defaults|, changed)
    ensures policy == before[ptype := Seeded(before[ptype], defaults)] && (changed <==> policy != before)
  {
    assert defaults[|defaults|..] == [];
  }

  /** Seeding only appends, and afterwards every default is there. */
  lemma {:induction false} SeedingAddsTheMissing(rules: seq<Rule>, defaults: seq<Rule>)
    ensures rules <= Seeded(rules, defaults)
    ensures forall r :: r in Seeded(rules, defaults) <==> r in rules || r in defaults
    decreases |defaults|
  {
    if defaults != [] {
      var next := if defaults[0] in rules then rules else rules + [defaults[0]];
      SeedingAddsTheMissing(next, defaults[1..]);
      assert forall r :: r in defaults <==> r == defaults[0] || r in defaults[1..];
    }
  }

  lemma {:induction false} NothingMissingNothingAdded(rules: seq<Rule>, defaults: seq<Rule>)
    requires forall r | r in defaults :: r in rules
    ensures Seeded(rules, defaults) == rules
    decreases |defaults|
  {
    if defaults != [] {
      NothingMissingNothingAdded(rules, defaults[1..]);
    }
  }

  /** Seeding a second time changes nothing. */
  lemma SeedingTwiceIsSeedingOnce(rules: seq<Rule>, defaults: seq<Rule>)
    ensures Seeded(Seeded(rules, defaults), defaults) == Seeded(rules, defaults)
  {
    SeedingAddsTheMissing(rules, defaults);
    NothingMissingNothingAdded(Seeded(rules, defaults), defaults);
  }

  class Enforcer {
    const adapter: PostgresAdapter
    var policy: Policy

    constructor (adapter: PostgresAdapter, policy: Policy)
      ensures this.adapter == adapter && this.policy == policy
    {
      this.adapter := adapter;
      this.policy := policy;
    }

    /** Table and memory agree. */
    ghost predicate Valid()
      reads this, adapter
    {
      Refines(adapter.rows, policy)
    }

    method AddPolicy(ptype: string, rule: Rule) returns (added: bool)
      requires Valid() && ptype in policy && Canonical(rule)
      modifies this, adapter
      ensures Valid() && added == (rule !in old(policy)[ptype])
      ensures policy == if added then old(policy)[ptype := old(policy)[ptype] + [rule]] else old(policy)
      ensures !added ==> adapter.rows == old(adapter.rows)
    {
      added := rule !in policy[ptype];
      if added {
        AddRefines(adapter.rows, policy, ptype, rule);
        adapter.Add(ptype, rule);
        policy := policy[ptype := policy[ptype] + [rule]];
      }
    }

    /** Add the defaults that are missing, one by one. */
    method AddMissing(ptype: string, defaults: seq<Rule>) returns (changed: bool)
      requires Valid() && ptype in policy && forall r | r in defaults :: Canonical(r)
      modifies this, adapter
      ensures Valid() && policy == old(policy)[ptype := Seeded(old(policy)[ptype], defaults)]
      ensures changed <==> policy != old(policy)
      ensures !changed ==> adapter.rows == old(adapter.rows)
    {
      changed := false;
      ghost var before := policy;
      SeedingStarts(before, ptype, defaults);
      for i := 0 to |defaults|
        invariant Valid() && SeedingAt(before, policy, ptype, defaults, i, changed)
        invariant !changed ==> adapter.rows == old(adapter.rows)
      {
        assert defaults[i] in defaults;
        ghost var current := policy;
        var added := AddPolicy(ptype, defaults[i]);
        SeedingGoesOn(before, current, policy, ptype, defaults, i, changed, added);
        changed := changed || added;
      }
      SeedingEnds(before, policy, ptype, defaults, changed);
    }

    /** SeedDefaultPolicy over any list of defaults: add what is missing, and save once if anything was. */
    method Seed(defaults: seq<Rule>, order: seq<string>) returns (changed: bool)
      requires Valid() && "p" in policy && (forall r | r in defaults :: Canonical(r)) && Lists(order, policy)
      modifies this, adapter
      ensures Valid() && policy == old(policy)["p" := Seeded(old(policy)["p"], defaults)]
      ensures changed <==> policy != old(policy)
      ensures !changed ==> adapter.rows == old(adapter.rows)
    {
      changed := AddMissing("p", defaults);
      if changed {
        SaveRefines(policy, order);
        adapter.Save(policy, order);
      }
    }

    method SeedDefaultPolicy(order: seq<string>) returns (changed: bool)
      requires Valid() && "p" in policy && Lists(order, policy)
      modifies this, adapter
      ensures Valid() && policy == old(policy)["p" := Seeded(old(policy)["p"], DEFAULT_RULES)]
      ensures changed <==> exists r :: r in DEFAULT_RULES && r !in old(policy)["p"]
      ensures !changed ==> adapter.rows == old(adapter.rows) && policy == old(policy)
    {
      DefaultsAreCanonical();
      SeedingChangesExactlyWhen(policy["p"], DEFAULT_RULES);
      changed := Seed(DEFAULT_RULES, order);
    }
  }

  /** Seeding leaves the rules alone exactly when every default is already there. */
  lemma {:induction false} SeedingChangesExactlyWhen(rules: seq<Rule>, defaults: seq<Rule>)
    ensures Seeded(rules, defaults) == rules <==> forall r | r in defaults :: r in rules
    decreases |defaults|
  {
    SeedingAddsTheMissing(rules, defaults);
    if defaults != [] && defaults[0] in rules {
      SeedingChangesExactlyWhen(rules, defaults[1..]);
      assert defaults == [defaults[0]] + defaults[1..];
    }
  }

  lemma CanonicalBySight(field: string)
    requires Clean(field) && field != "" && !IsSpace(field[0]) && !IsSpace(field[|field| - 1])
    ensures CanonicalField(field)
  {
  }

  lemma NamesAreCanonical()
    ensures CanonicalField("tenant_owner") && CanonicalField("tenant_admin") && CanonicalField("tenant:*")
  {
    CanonicalBySight("tenant_owner");
    CanonicalBySight("tenant_admin");
    CanonicalBySight("tenant:*");
  }

  lemma PathsAreCanonical()
    ensures CanonicalField("/v1/admin/*") && CanonicalField("/api/v1/admin/*") && CanonicalField("*")
  {
    CanonicalBySight("/v1/admin/*");
    CanonicalBySight("/api/v1/admin/*");
    CanonicalBySight("*");
  }

  lemma DefaultsAreCanonical()
    ensures forall r | r in DEFAULT_RULES :: Canonical(r)
  {
    NamesAreCanonical();
    PathsAreCanonical();
  }
}
