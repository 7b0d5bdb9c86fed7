/** matchRule and isMatch of pkg/mutation/mutation_pod.go. Go walks the rules and their entries in any order. */
module RuleMatching {
  import opened Prelude
  import opened InjectorConfig

  type Rules = map<string, InjectorRule>

  datatype Part = Envs | Labels

  function Take(rule: InjectorRule, part: Part): StringMap {
    if part.Envs? then rule.envs else rule.labels
  }

  /** Every required pair equals the pod's label; a missing label reads as empty. */
  predicate Matches(rule: InjectorRule, labels: StringMap) {
    forall k :: k in rule.matchLabels ==> Get(labels, k) == rule.matchLabels[k]
  }

  /** The merge after walking the rules in the given order, later rules overwriting earlier ones. */
  function Merge(rules: Rules, labels: StringMap, part: Part, order: seq<string>): StringMap
    requires forall r :: r in order ==> r in rules
  {
    if order == [] then map[]
    else
      var n := |order| - 1;
      var merged := Merge(rules, labels, part, order[..n]);
      if Matches(rules[order[n]], labels) then merged + Take(rules[order[n]], part) else merged
  }

  /** Rule r matches and sets key k in the given part. */
  predicate Sets(rules: Rules, labels: StringMap, part: Part, r: string, k: string) {
    r in rules && Matches(rules[r], labels) && k in Take(rules[r], part)
  }

  /** Matching rules that share a key give it the same value. */
  ghost predicate Agree(rules: Rules, labels: StringMap, part: Part) {
    forall r, q, k ::
      Sets(rules, labels, part, r, k) && Sets(rules, labels, part, q, k) ==>
        Take(rules[r], part)[k] == Take(rules[q], part)[k]
  }

  // ----- the routines -----

  method IsMatch(ruleLabels: StringMap, labels: StringMap) returns (ok: bool)
    ensures ok <==> forall k :: k in ruleLabels ==> Get(labels, k) == ruleLabels[k]
  {
    var todo := ruleLabels.Keys;
    while todo != {}
      invariant todo <= ruleLabels.Keys
      invariant forall k :: k in ruleLabels.Keys - todo ==> Get(labels, k) == ruleLabels[k]
      decreases |todo|
    {
      var k :| k in todo;
      if Get(labels, k) != ruleLabels[k] {
        return false;
      }
      todo := todo - {k};
    }
    ok := true;
  }

  method MergeInto(target: StringMap, source: StringMap) returns (merged: StringMap)
    ensures merged == target + source
  {
    merged := target;
    var todo := source.Keys;
    while todo != {}
      invariant todo <= source.Keys
      invariant merged.Keys == target.Keys + (source.Keys - todo)
      invariant forall k :: k in merged ==> merged[k] == if k in source.Keys - todo then source[k] else target[k]
      decreases |todo|
    {
      var k :| k in todo;
      merged := merged[k := source[k]];
      todo := todo - {k};
    }
  }

  /** The merge of some walk over the rules; which one is up to the runtime. */
  method MatchRule(rules: Rules, labels: StringMap) returns (envs: StringMap, addLabels: StringMap)
    ensures exists order :: Enumerates(order, rules.Keys)
              && envs == Merge(rules, labels, Envs, order) && addLabels == Merge(rules, labels, Labels, order)
  {
    envs, addLabels := map[], map[];
    var todo := rules.Keys;
    ghost var order: seq<string> := [];
    while todo != {}
      invariant todo <= rules.Keys && Enumerates(order, rules.Keys - todo)
      invariant envs == Merge(rules, labels, Envs, order) && addLabels == Merge(rules, labels, Labels, order)
      decreases |todo|
    {
      var r :| r in todo;
      var matches := IsMatch(rules[r].matchLabels, labels);
      if matches {
        envs := MergeInto(envs, rules[r].envs);
        addLabels := MergeInto(addLabels, rules[r].labels);
      }
      assert (order + [r])[..|order|] == order;
      order := order + [r];
      todo := todo - {r};
    }
  }

  // ----- what the merge means -----

  /** The merged keys are exactly those of the matching rules, and each value comes from one of them. */
  lemma {:induction false} MergeIsUnion(rules: Rules, labels: StringMap, part: Part, order: seq<string>, k: string)
    requires forall r :: r in order ==> r in rules
    ensures k in Merge(rules, labels, part, order) <==> exists r :: r in order && Sets(rules, labels, part, r, k)
    ensures k in Merge(rules, labels, part, order) ==> exists r ::
              r in order && Sets(rules, labels, part, r, k)
              && Merge(rules, labels, part, order)[k] == Take(rules[r], part)[k]
  {
    if order != [] {
      var n := |order| - 1;
      var front := order[..n];
      MergeIsUnion(rules, labels, part, front, k);
      assert forall r :: r in order <==> r in front || r == order[n];
      if Sets(rules, labels, part, order[n], k) {
        assert order[n] in order;
      } else if exists r :: r in front && Sets(rules, labels, part, r, k) {
        var r :| r in front && Sets(rules, labels, part, r, k)
          && Merge(rules, labels, part, front)[k] == Take(rules[r], part)[k];
        assert r in order;
      }
    }
  }

  /** Every walk gives the same result exactly when the matching rules agree on the keys they share. */
  lemma MergeIsDeterminateIff(rules: Rules, labels: StringMap, part: Part)
    ensures Agree(rules, labels, part) <==>
            forall o, p :: Enumerates(o, rules.Keys) && Enumerates(p, rules.Keys) ==>
              Merge(rules, labels, part, o) == Merge(rules, labels, part, p)
  {
    if Agree(rules, labels, part) {
      forall o, p | Enumerates(o, rules.Keys) && Enumerates(p, rules.Keys)
        ensures Merge(rules, labels, part, o) == Merge(rules, labels, part, p)
      {
        AgreementFixesMerge(rules, labels, part, o, p);
      }
    } else {
      var r, q, k :| r in rules && q in rules && Sets(rules, labels, part, r, k) && Sets(rules, labels, part, q, k)
        && Take(rules[r], part)[k] != Take(rules[q], part)[k];
      var o := OrderEndingWith(rules.Keys, r);
      var p := OrderEndingWith(rules.Keys, q);
      LastRuleWins(rules, labels, part, o, k);
      LastRuleWins(rules, labels, part, p, k);
    }
  }

  lemma LastRuleWins(rules: Rules, labels: StringMap, part: Part, order: seq<string>, k: string)
    requires forall r :: r in order ==> r in rules
    requires order != [] && Sets(rules, labels, part, order[|order| - 1], k)
    ensures k in Merge(rules, labels, part, order)
    ensures Merge(rules, labels, part, order)[k] == Take(rules[order[|order| - 1]], part)[k]
  {
  }

  lemma AgreementFixesMerge(rules: Rules, labels: StringMap, part: Part, o: seq<string>, p: seq<string>)
    requires Agree(rules, labels, part) && Enumerates(o, rules.Keys) && Enumerates(p, rules.Keys)
    ensures Merge(rules, labels, part, o) == Merge(rules, labels, part, p)
  {
    var m, n := Merge(rules, labels, part, o), Merge(rules, labels, part, p);
    forall k ensures (k in m <==> k in n) && (k in m && k in n ==> m[k] == n[k]) {
      MergeIsUnion(rules, labels, part, o, k);
      MergeIsUnion(rules, labels, part, p, k);
      if exists r :: r in o && Sets(rules, labels, part, r, k) {
        var r :| r in o && Sets(rules, labels, part, r, k);
        assert r in rules.Keys && r in p;
      }
      if exists r :: r in p && Sets(rules, labels, part, r, k) {
        var r :| r in p && Sets(rules, labels, part, r, k);
        assert r in rules.Keys && r in o;
      }
    }
  }
}
