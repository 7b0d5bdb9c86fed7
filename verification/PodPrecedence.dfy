/** Where the value of every env var of an injected pod comes from, rules included. */
module PodPrecedence {
  import opened Prelude
  import opened RuleMatching
  import opened Workload
  import opened EnvAppend
  import opened EnvMerge
  import opened PodEnvs
  import opened PodInjection
  import opened PodTheorems

  ghost predicate IsRuleEnv(rules: Rules, labels: StringMap, k: string, e: EnvVar) {
    exists n :: n in rules && Sets(rules, labels, Envs, n, k) && e == PlainEnv(k, rules[n].envs[k])
  }

  /** A rule env that reaches container 0 is its last entry of that name, with some matching rule's value. */
  lemma RuleEnvInFirst(cfg: PodConfig, pod: Pod, mid: Pod, k: string)
    requires RulesApplied(cfg, pod, mid)
    requires !HasEnv(pod.containers[0].env, k) && HasEnv(mid.containers[0].env, k)
    ensures IsRuleEnv(cfg.rules, pod.labels, k, LastEnv(mid.containers[0].env, k))
  {
    var order :| Enumerates(order, cfg.rules.Keys)
      && Appended(pod.containers[0].env, Merge(cfg.rules, pod.labels, Envs, order), mid.containers[0].env)
      && mid.labels == Merge(cfg.rules, pod.labels, Labels, order) + pod.labels;
    var addEnvs := Merge(cfg.rules, pod.labels, Envs, order);
    MergeIsUnion(cfg.rules, pod.labels, Envs, order, k);
    AppendedNames(pod.containers[0].env, addEnvs, mid.containers[0].env, k);
    AppendedAsMap(pod.containers[0].env, addEnvs, mid.containers[0].env);
    ToMapIsLast(mid.containers[0].env, k);
    ToMapIsLast(pod.containers[0].env, k);
  }

  /** The nearest definition after the rules: the pod's own if there is one, else a rule's in container 0. */
  lemma NearestAfterRules(cfg: PodConfig, pod: Pod, mid: Pod, i: nat, j: nat, k: string)
    requires RulesApplied(cfg, pod, mid) && i < |pod.containers| && Nearest(mid.containers, i, j, k)
    ensures if DefinedUpTo(pod.containers, i, k)
            then Nearest(pod.containers, i, j, k)
                 && LastEnv(mid.containers[j].env, k) == LastEnv(pod.containers[j].env, k)
            else IsRuleEnv(cfg.rules, pod.labels, k, LastEnv(mid.containers[j].env, k))
  {
    RulesOnlyFillGaps(cfg, pod, mid, k);
    assert forall l :: 0 < l < |pod.containers| ==> mid.containers[l] == pod.containers[l];
    if j == 0 && !HasEnv(pod.containers[0].env, k) {
      assert forall l :: 0 < l <= i ==> !HasEnv(mid.containers[l].env, k);
      RuleEnvInFirst(cfg, pod, mid, k);
    } else {
      assert HasEnv(pod.containers[j].env, k);
    }
  }

  /** In container i a value is the last one in the nearest container up to i that defines the name; where none
      does, a matching rule's; else the label env's; else the agent configuration's. */
  lemma InjectedPrecedence(cfg: PodConfig, deployment: string, pod: Pod, r: Pod, i: nat, k: string)
    requires AllNamed(pod) && AgentInjected(cfg, deployment, pod, r) && i < |pod.containers| == |r.containers|
    requires HasEnv(r.containers[i].env, k)
    ensures var e := LastEnv(r.containers[i].env, k);
      if DefinedUpTo(pod.containers, i, k) then
        exists j: nat :: Nearest(pod.containers, i, j, k) && e == LastEnv(pod.containers[j].env, k)
      else if SomeRuleSets(cfg.rules, pod.labels, Envs, k) then IsRuleEnv(cfg.rules, pod.labels, k, e)
      else if k in PodEnvNames(cfg.matchLabels, pod.labels) then IsPodEnv(pod.labels, cfg.nodes, k, e)
      else k in cfg.agent.envs && e == PlainEnv(k, cfg.agent.envs[k])
  {
    var mid, envs := Stages(cfg, deployment, pod, r);
    assert Named(mid.containers) == mid.containers;
    MergeIsPrecedence(mid.containers, envs, cfg.agent.envs, deployment, r.containers, i, k);
    DefinedAfterRules(cfg, pod, mid, i, k);
    PodEnvsHaveTheirNames(cfg.matchLabels, pod.labels, cfg.nodes, envs, k);
    if DefinedUpTo(mid.containers, i, k) {
      var j: nat :| Nearest(mid.containers, i, j, k)
        && LastEnv(r.containers[i].env, k) == LastEnv(mid.containers[j].env, k);
      NearestAfterRules(cfg, pod, mid, i, j, k);
    } else if HasEnv(envs, k) {
      PodEnvsHaveTheirValues(cfg.matchLabels, pod.labels, cfg.nodes, envs, k);
    }
  }
}
