/**
 Saving a whole policy and loading it again, for rules that are not canonical. Each rule comes back as what the
 table keeps of it, and rules that the table cannot tell apart come back as one.
 */
module PolicyRoundTrip {
  import opened Base
  import opened PolicyText
  import opened PolicyTable

  /** No field needs quoting. */
  ghost predicate CleanPolicy(policy: Policy) {
    forall t | t in policy :: KnownType(t) && forall r | r in policy[t] :: CleanAll(r)
  }

  function KeptAll(rules: seq<Rule>): seq<Rule> {
    seq(|rules|, i requires 0 <= i < |rules| => Kept(rules[i]))
  }

  /** Each rule at its first occurrence. */
  function WithoutRepeats(rules: seq<Rule>): seq<Rule> {
    if rules == [] then []
    else
      var front, last := rules[..|rules| - 1], rules[|rules| - 1];
      WithoutRepeats(front) + if last in front then [] else [last]
  }

  // ----- the table lists what it keeps of each rule -----

  lemma EntriesOfClean(ptype: string, rules: seq<Rule>, t: string)
    requires KnownType(ptype) && forall r | r in rules :: CleanAll(r)
    ensures Select(Entries(EncodeAll(ptype, rules)), t) == if t == ptype then KeptAll(rules) else []
  {
    var kept := KeptAll(rules);
    forall i | 0 <= i < |rules| ensures Entries(EncodeAll(ptype, rules))[i] == Entry(ptype, kept[i]) {
      LoadOfEncode(ptype, rules[i]);
    }
    assert Entries(EncodeAll(ptype, rules)) == seq(|kept|, i requires 0 <= i < |kept| => Entry(ptype, kept[i]));
    SelectOfOneType(ptype, kept, t);
  }

  lemma {:induction false} SaveListsKept(policy: Policy, order: seq<string>, t: string)
    requires CleanPolicy(policy) && (forall i | 0 <= i < |order| :: order[i] in policy) && Distinct(order)
    ensures Select(Entries(SaveAll(policy, order)), t) == if t in order then KeptAll(policy[t]) else []
    decreases |order|
  {
    if order != [] {
      var first, rest := EncodeAll(order[0], policy[order[0]]), SaveAll(policy, order[1..]);
      EntriesOfClean(order[0], policy[order[0]], t);
      SaveListsKept(policy, order[1..], t);
      EntriesConcat(first, rest);
      SelectConcat(Entries(first), Entries(rest), t);
      assert t in order <==> t == order[0] || t in order[1..];
    }
  }

  // ----- loading takes each rule at its first occurrence -----

  lemma {:induction false} SameMembers(rules: seq<Rule>)
    ensures forall r :: r in WithoutRepeats(rules) <==> r in rules
    ensures Distinct(WithoutRepeats(rules)) && |WithoutRepeats(rules)| <= |rules|
  {
    if rules != [] {
      var front, last := rules[..|rules| - 1], rules[|rules| - 1];
      SameMembers(front);
      assert rules == front + [last];
    }
  }

  lemma FirstOccurrence(rules: seq<Rule>, r: Rule)
    ensures WithoutRepeats(rules + [r]) == WithoutRepeats(rules) + if r in rules then [] else [r]
  {
    assert (rules + [r])[..|rules|] == rules;
  }

  lemma {:induction false} LoadingSkipsRepeats(entries: seq<Entry>, t: string, before: seq<Rule>)
    ensures LoadFrom(entries, t, WithoutRepeats(before)) == WithoutRepeats(before + Select(entries, t))
    decreases |entries|
  {
    if entries == [] {
      assert before + Select(entries, t) == before;
    } else {
      var e := entries[0];
      SameMembers(before);
      FirstOccurrence(before, e.rule);
      var next := before + if e.ptype == t then [e.rule] else [];
      assert before + Select(entries, t) == next + Select(entries[1..], t);
      assert before + [] == before && WithoutRepeats(before) + [] == WithoutRepeats(before);
      LoadingSkipsRepeats(entries[1..], t, next);
    }
  }

  /** Save, then load: what the table keeps of each rule, in order, each at its first occurrence. */
  lemma SaveThenLoad(policy: Policy, order: seq<string>, t: string)
    requires CleanPolicy(policy) && Lists(order, policy) && t in policy
    ensures LoadPolicy(SaveAll(policy, order), t) == WithoutRepeats(KeptAll(policy[t]))
  {
    SaveListsKept(policy, order, t);
    LoadingSkipsRepeats(Entries(SaveAll(policy, order)), t, []);
    assert [] + KeptAll(policy[t]) == KeptAll(policy[t]);
  }

  // ----- when nothing is lost -----

  lemma {:induction false} NoRepeatsNothingRemoved(rules: seq<Rule>)
    ensures WithoutRepeats(rules) == rules <==> Distinct(rules)
    ensures |WithoutRepeats(rules)| == |rules| <==> Distinct(rules)
  {
    if rules != [] {
      var front, last := rules[..|rules| - 1], rules[|rules| - 1];
      NoRepeatsNothingRemoved(front);
      SameMembers(front);
      assert rules == front + [last];
      if Distinct(rules) {
        assert Distinct(front) && last !in front;
      } else if Distinct(front) {
        assert last in front;
      }
    }
  }

  /** What the table keeps tells any two of these rules apart. */
  ghost predicate ToldApart(rules: seq<Rule>) {
    forall i, j | 0 <= i < j < |rules| :: Kept(rules[i]) != Kept(rules[j])
  }

  /** No rule is lost exactly when the table can tell all of them apart; then each comes back as its kept form. */
  lemma NoRuleLostExactlyWhen(policy: Policy, order: seq<string>, t: string)
    requires CleanPolicy(policy) && Lists(order, policy) && t in policy
    ensures |LoadPolicy(SaveAll(policy, order), t)| == |policy[t]| <==> ToldApart(policy[t])
    ensures LoadPolicy(SaveAll(policy, order), t) == KeptAll(policy[t]) <==> ToldApart(policy[t])
  {
    SaveThenLoad(policy, order, t);
    NoRepeatsNothingRemoved(KeptAll(policy[t]));
    assert Distinct(KeptAll(policy[t])) <==> ToldApart(policy[t]) by {
      var kept := KeptAll(policy[t]);
      assert forall i | 0 <= i < |kept| :: kept[i] == Kept(policy[t][i]);
    }
  }

  // ----- once is enough -----

  /** The policy in memory after a save and a load. */
  ghost function Reloaded(policy: Policy, order: seq<string>): Policy
    requires Lists(order, policy)
  {
    map t | t in policy :: LoadPolicy(SaveAll(policy, order), t)
  }

  lemma ReloadedRules(policy: Policy, order: seq<string>, t: string)
    requires CleanPolicy(policy) && Lists(order, policy) && t in policy
    ensures var rules := Reloaded(policy, order)[t];
      && Distinct(rules) && forall r | r in rules :: CleanAll(r) && Kept(r) == r
  {
    var kept := KeptAll(policy[t]);
    SaveThenLoad(policy, order, t);
    SameMembers(kept);
    forall r | r in kept ensures CleanAll(r) && Kept(r) == r {
      var i :| 0 <= i < |kept| && kept[i] == r;
      assert policy[t][i] in policy[t];
      SecondRoundTripChangesNothing(t, policy[t][i]);
    }
  }

  /** A second save and load changes nothing, whatever the order of the types. */
  lemma SecondReloadChangesNothing(policy: Policy, order: seq<string>, order2: seq<string>)
    requires CleanPolicy(policy) && Lists(order, policy) && Lists(order2, policy)
    ensures Lists(order2, Reloaded(policy, order))
    ensures Reloaded(Reloaded(policy, order), order2) == Reloaded(policy, order)
  {
    var policy' := Reloaded(policy, order);
    assert policy'.Keys == policy.Keys;
    forall t | t in policy' ensures KnownType(t) && forall r | r in policy'[t] :: CleanAll(r) {
      ReloadedRules(policy, order, t);
    }
    assert CleanPolicy(policy');
    forall t | t in policy' ensures LoadPolicy(SaveAll(policy', order2), t) == policy'[t] {
      ReloadedRules(policy, order, t);
      SaveThenLoad(policy', order2, t);
      assert KeptAll(policy'[t]) == policy'[t];
      NoRepeatsNothingRemoved(policy'[t]);
    }
  }

  // ----- a rule that is lost -----

  const SHORT: Rule := ["a", "b"]
  const LONG: Rule := ["a", "b", ""]

  lemma ShortAndLongLookAlike()
    ensures CleanAll(SHORT) && CleanAll(LONG) && Kept(SHORT) == SHORT && Kept(LONG) == SHORT && Clean("p")
    ensures TrimLeft("p") == "p"
  {
    assert Trim("a") == "a" && Trim("b") == "b" && Trim("") == "";
    assert seq(2, i requires 0 <= i < 2 => Trim(SHORT[i])) == SHORT;
    assert seq(3, i requires 0 <= i < 3 => Trim(LONG[i])) == LONG;
    assert DropTrailing(SHORT) == SHORT;
    assert LONG[..2] == SHORT;
  }

  /** Two rules that differ only in an empty last field come back from the table as one. */
  lemma TwoRulesBecomeOne()
    ensures LoadPolicy(SaveAll(map["p" := [SHORT, LONG]], ["p"]), "p") == [SHORT]
  {
    var policy: Policy := map["p" := [SHORT, LONG]];
    ShortAndLongLookAlike();
    assert CleanPolicy(policy);
    assert Lists(["p"], policy);
    SaveThenLoad(policy, ["p"], "p");
    assert KeptAll([SHORT, LONG]) == [SHORT, SHORT];
    FirstOccurrence([SHORT], SHORT);
    assert [SHORT] + [SHORT] == [SHORT, SHORT];
    FirstOccurrence([], SHORT);
    assert [] + [SHORT] == [SHORT];
  }
}
