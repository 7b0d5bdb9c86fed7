/** What the agent path of injectionPod guarantees: which names and values a pod gets, and when taking the path again
    brings no new names. */
module PodTheorems {
  import opened Prelude
  import opened RuleMatching
  import opened Workload
  import opened EnvAppend
  import opened EnvMerge
  import opened PodEnvs
  import opened PodInjection

  // ----- rules -----

  predicate AllNamed(pod: Pod) {
    forall i :: 0 <= i < |pod.containers| ==> pod.containers[i].name != ""
  }

  predicate SomeRuleSets(rules: Rules, labels: StringMap, part: Part, k: string) {
    exists r :: r in rules && Sets(rules, labels, part, r, k)
  }

  /** Some matching rule gives the label that value. */
  predicate IsRuleLabel(rules: Rules, labels: StringMap, k: string, value: string) {
    exists n :: n in rules && Sets(rules, labels, Labels, n, k) && rules[n].labels[k] == value
  }

  /** Rule envs reach container 0 only where it lacks the name; rule labels only where the pod lacks the key. */
  lemma RulesOnlyFillGaps(cfg: PodConfig, pod: Pod, mid: Pod, k: string)
    requires RulesApplied(cfg, pod, mid)
    ensures HasEnv(mid.containers[0].env, k) <==>
            HasEnv(pod.containers[0].env, k) || SomeRuleSets(cfg.rules, pod.labels, Envs, k)
    ensures HasEnv(pod.containers[0].env, k) ==>
            LastEnv(mid.containers[0].env, k) == LastEnv(pod.containers[0].env, k)
    ensures k in mid.labels <==> k in pod.labels || SomeRuleSets(cfg.rules, pod.labels, Labels, k)
    ensures k in pod.labels ==> mid.labels[k] == pod.labels[k]
    ensures k !in pod.labels && k in mid.labels ==> IsRuleLabel(cfg.rules, pod.labels, k, mid.labels[k])
  {
    var order :| Enumerates(order, cfg.rules.Keys)
      && Appended(pod.containers[0].env, Merge(cfg.rules, pod.labels, Envs, order), mid.containers[0].env)
      && mid.labels == Merge(cfg.rules, pod.labels, Labels, order) + pod.labels;
    var addEnvs := Merge(cfg.rules, pod.labels, Envs, order);
    MergeIsUnion(cfg.rules, pod.labels, Envs, order, k);
    MergeIsUnion(cfg.rules, pod.labels, Labels, order, k);
    assert forall r :: r in order <==> r in cfg.rules.Keys;
    AppendedNames(pod.containers[0].env, addEnvs, mid.containers[0].env, k);
    AppendedAsMap(pod.containers[0].env, addEnvs, mid.containers[0].env);
    ToMapIsLast(mid.containers[0].env, k);
    ToMapIsLast(pod.containers[0].env, k);
  }

  // ----- the env of an injected pod -----

  /** The names an injection brings to every container, whatever the containers define. */
  ghost predicate Brought(cfg: PodConfig, labels: StringMap, k: string) {
    k in PodEnvNames(cfg.matchLabels, labels) || k in cfg.agent.envs || SomeRuleSets(cfg.rules, labels, Envs, k)
  }

  /** Env name sets grow along the container list: container i has what was brought and what any container up to
      i defines. */
  lemma InjectedNames(cfg: PodConfig, deployment: string, pod: Pod, r: Pod, i: nat, k: string)
    requires AllNamed(pod) && AgentInjected(cfg, deployment, pod, r) && i < |pod.containers|
    ensures |r.containers| == |pod.containers|
    ensures DistinctNames(r.containers[i].env)
    ensures HasEnv(r.containers[i].env, k) <==> Brought(cfg, pod.labels, k) || DefinedUpTo(pod.containers, i, k)
  {
    var mid, envs := Stages(cfg, deployment, pod, r);
    assert Named(mid.containers) == mid.containers;
    MergeIsPrecedence(mid.containers, envs, cfg.agent.envs, deployment, r.containers, i, k);
    PodEnvsHaveTheirNames(cfg.matchLabels, pod.labels, cfg.nodes, envs, k);
    DefinedAfterRules(cfg, pod, mid, i, k);
  }

  lemma DefinedAfterRules(cfg: PodConfig, pod: Pod, mid: Pod, i: nat, k: string)
    requires RulesApplied(cfg, pod, mid) && i < |pod.containers|
    ensures DefinedUpTo(mid.containers, i, k) <==>
            DefinedUpTo(pod.containers, i, k) || SomeRuleSets(cfg.rules, pod.labels, Envs, k)
  {
    RulesOnlyFillGaps(cfg, pod, mid, k);
    assert forall j :: 0 < j < |pod.containers| ==> mid.containers[j] == pod.containers[j];
    assert HasEnv(mid.containers[0].env, k) ==> DefinedUpTo(mid.containers, i, k);
    assert HasEnv(pod.containers[0].env, k) ==> DefinedUpTo(pod.containers, i, k);
  }

  /** Containers keep every value they define themselves. */
  lemma OwnValuesStay(cfg: PodConfig, deployment: string, pod: Pod, r: Pod, i: nat, k: string)
    requires AllNamed(pod) && AgentInjected(cfg, deployment, pod, r) && i < |pod.containers|
    requires HasEnv(pod.containers[i].env, k)
    ensures |r.containers| == |pod.containers| && k in ToMap(r.containers[i].env)
    ensures ToMap(r.containers[i].env)[k] == LastEnv(pod.containers[i].env, k)
  {
    var mid, envs := Stages(cfg, deployment, pod, r);
    RulesKeepShape(cfg, pod, mid, i);
    RulesKeepOwnValue(cfg, pod, mid, i, k);
    OwnValueWins(mid.containers, envs, cfg.agent.envs, deployment, r.containers, i, k);
  }

  lemma RulesKeepOwnValue(cfg: PodConfig, pod: Pod, mid: Pod, i: nat, k: string)
    requires RulesApplied(cfg, pod, mid) && i < |pod.containers| && HasEnv(pod.containers[i].env, k)
    ensures HasEnv(mid.containers[i].env, k) && LastEnv(mid.containers[i].env, k) == LastEnv(pod.containers[i].env, k)
  {
    if i == 0 {
      RulesOnlyFillGaps(cfg, pod, mid, k);
    }
  }

  // ----- a second pass -----

  /** Unnamed containers are gone, and the others mount the agent's volume. */
  lemma InjectedContainer(cfg: PodConfig, deployment: string, pod: Pod, r: Pod, i: nat)
    requires AgentInjected(cfg, deployment, pod, r) && i < |r.containers|
    ensures r.containers[i].name != "" && MountsAgent(r.containers[i].mounts)
  {
    var mid, envs := Stages(cfg, deployment, pod, r);
    ModifiedShape(Named(mid.containers), envs, cfg.agent.envs, deployment, r.containers, i);
    AgentMountsPresent(Named(mid.containers)[i].mounts, deployment);
  }

  lemma ContainerShape(cfg: PodConfig, deployment: string, pod: Pod, r: Pod, i: nat)
    requires AllNamed(pod) && AgentInjected(cfg, deployment, pod, r) && i < |pod.containers|
    ensures |r.containers| == |pod.containers| && r.containers[i].name == pod.containers[i].name
    ensures r.containers[i].mounts == WithAgentMounts(pod.containers[i].mounts, deployment)
    ensures r.containers[i].image == pod.containers[i].image
  {
    var mid, envs := Stages(cfg, deployment, pod, r);
    RulesKeepShape(cfg, pod, mid, i);
    ModifiedShape(mid.containers, envs, cfg.agent.envs, deployment, r.containers, i);
  }

  lemma RulesKeepShape(cfg: PodConfig, pod: Pod, mid: Pod, i: nat)
    requires AllNamed(pod) && RulesApplied(cfg, pod, mid) && i < |pod.containers|
    ensures Named(mid.containers) == mid.containers && |mid.containers| == |pod.containers|
    ensures mid.containers[i].name == pod.containers[i].name && mid.containers[i].mounts == pod.containers[i].mounts
    ensures mid.containers[i].image == pod.containers[i].image
  {
  }

  lemma InitContainersAndVolumes(cfg: PodConfig, deployment: string, pod: Pod, r: Pod)
    requires AgentInjected(cfg, deployment, pod, r)
    ensures HasContainer(r.initContainers, cfg.initContainerName)
    ensures HasContainer(pod.initContainers, cfg.initContainerName) ==> r.initContainers == pod.initContainers
    ensures HasVolume(r.volumes, AGENT_VOLUME_NAME) && r.volumes == AddPodVolume(pod.volumes, deployment)
  {
    var mid, envs := Stages(cfg, deployment, pod, r);
    if !HasVolume(mid.volumes, AGENT_VOLUME_NAME) {
      assert r.volumes[|mid.volumes|].name == AGENT_VOLUME_NAME;
    }
    if !HasContainer(pod.initContainers, cfg.initContainerName) {
      assert r.initContainers[|pod.initContainers|].name == cfg.initContainerName;
    }
  }

  lemma AgentMountsPresent(mounts: seq<VolumeMount>, deployment: string)
    ensures MountsAgent(WithAgentMounts(mounts, deployment))
  {
    if !MountsAgent(mounts) {
      assert WithAgentMounts(mounts, deployment)[|mounts|].name == AGENT_VOLUME_NAME;
    }
  }

  ghost predicate SameEnvs(a: Pod, b: Pod) {
    |a.containers| == |b.containers|
    && forall i :: 0 <= i < |a.containers| ==> ToMap(a.containers[i].env) == ToMap(b.containers[i].env)
  }

  /** A second pass leaves every env as it is, as a map, exactly when all it brings is in container 0 already.
      Values may have changed in between: only names matter. */
  lemma SecondPassKeepsEnvsIff(cfg: PodConfig, deployment: string, pod: Pod, r: Pod,
                               cfg': PodConfig, deployment': string, again: Pod)
    requires AgentInjected(cfg, deployment, pod, r) && AgentInjected(cfg', deployment', r, again)
    ensures |r.containers| > 0
    ensures SameEnvs(again, r) <==> forall k :: Brought(cfg', r.labels, k) ==> HasEnv(r.containers[0].env, k)
  {
    InjectedAllNamed(cfg, deployment, pod, r);
    InjectedAllNamed(cfg', deployment', r, again);
    if forall k :: Brought(cfg', r.labels, k) ==> HasEnv(r.containers[0].env, k) {
      forall i | 0 <= i < |r.containers| ensures ToMap(again.containers[i].env) == ToMap(r.containers[i].env) {
        NothingNew(cfg, deployment, pod, r, cfg', deployment', again, i);
      }
    } else {
      var k :| Brought(cfg', r.labels, k) && !HasEnv(r.containers[0].env, k);
      InjectedNames(cfg', deployment', r, again, 0, k);
      ToMapIsLast(again.containers[0].env, k);
      ToMapIsLast(r.containers[0].env, k);
    }
  }

  lemma InjectedAllNamed(cfg: PodConfig, deployment: string, pod: Pod, r: Pod)
    requires AgentInjected(cfg, deployment, pod, r)
    ensures AllNamed(r)
    ensures AllNamed(pod) ==> |r.containers| == |pod.containers| > 0
  {
    var mid, envs := Stages(cfg, deployment, pod, r);
    assert AllNamed(pod) ==> Named(mid.containers) == mid.containers;
    forall i | 0 <= i < |r.containers| ensures r.containers[i].name != "" {
      InjectedContainer(cfg, deployment, pod, r, i);
    }
  }

  lemma NothingNew(cfg: PodConfig, deployment: string, pod: Pod, r: Pod,
                   cfg': PodConfig, deployment': string, again: Pod, i: nat)
    requires AgentInjected(cfg, deployment, pod, r) && AgentInjected(cfg', deployment', r, again)
    requires AllNamed(r) && i < |r.containers| == |again.containers|
    requires forall k :: Brought(cfg', r.labels, k) ==> HasEnv(r.containers[0].env, k)
    ensures ToMap(again.containers[i].env) == ToMap(r.containers[i].env)
  {
    forall k ensures SameAt(ToMap(again.containers[i].env), ToMap(r.containers[i].env), k) {
      NothingNewAt(cfg, deployment, pod, r, cfg', deployment', again, i, k);
    }
    SameEverywhere(ToMap(again.containers[i].env), ToMap(r.containers[i].env));
  }

  lemma NothingNewAt(cfg: PodConfig, deployment: string, pod: Pod, r: Pod,
                     cfg': PodConfig, deployment': string, again: Pod, i: nat, k: string)
    requires AgentInjected(cfg, deployment, pod, r) && AgentInjected(cfg', deployment', r, again)
    requires AllNamed(r) && i < |r.containers| == |again.containers|
    requires forall k :: Brought(cfg', r.labels, k) ==> HasEnv(r.containers[0].env, k)
    ensures SameAt(ToMap(again.containers[i].env), ToMap(r.containers[i].env), k)
  {
    InjectedNames(cfg', deployment', r, again, i, k);
    ToMapIsLast(again.containers[i].env, k);
    ToMapIsLast(r.containers[i].env, k);
    if HasEnv(r.containers[i].env, k) {
      OwnValuesStay(cfg', deployment', r, again, i, k);
      assert DefinedUpTo(r.containers, i, k);
    }
    if Brought(cfg', r.labels, k) {
      NamesGrow(cfg, deployment, pod, r, 0, i, k);
    }
    if DefinedUpTo(r.containers, i, k) {
      var j: nat :| j <= i && HasEnv(r.containers[j].env, k);
      NamesGrow(cfg, deployment, pod, r, j, i, k);
    }
  }

  lemma NamesGrow(cfg: PodConfig, deployment: string, pod: Pod, r: Pod, i: nat, j: nat, k: string)
    requires AgentInjected(cfg, deployment, pod, r) && i <= j < |r.containers|
    ensures HasEnv(r.containers[i].env, k) ==> HasEnv(r.containers[j].env, k)
  {
    var mid, envs := Stages(cfg, deployment, pod, r);
    MergeIsPrecedence(Named(mid.containers), envs, cfg.agent.envs, deployment, r.containers, i, k);
    MergeIsPrecedence(Named(mid.containers), envs, cfg.agent.envs, deployment, r.containers, j, k);
  }

  lemma {:induction false} NamedKeepsFirst(containers: seq<Container>)
    requires containers != [] && containers[0].name != ""
    ensures Named(containers) != [] && Named(containers)[0] == containers[0]
  {
    if |containers| > 1 {
      NamedKeepsFirst(containers[..|containers| - 1]);
    }
  }

  /** Whatever is brought reaches the first container, if that one has a name and so is not dropped. */
  lemma FirstGetsAll(cfg: PodConfig, deployment: string, pod: Pod, r: Pod, k: string)
    requires AgentInjected(cfg, deployment, pod, r) && Brought(cfg, pod.labels, k)
    requires pod.containers != [] && pod.containers[0].name != ""
    ensures r.containers != [] && HasEnv(r.containers[0].env, k)
  {
    var mid, envs := Stages(cfg, deployment, pod, r);
    NamedKeepsFirst(mid.containers);
    MergeIsPrecedence(Named(mid.containers), envs, cfg.agent.envs, deployment, r.containers, 0, k);
    PodEnvsHaveTheirNames(cfg.matchLabels, pod.labels, cfg.nodes, envs, k);
    RulesOnlyFillGaps(cfg, pod, mid, k);
    assert HasEnv(mid.containers[0].env, k) ==> DefinedUpTo(Named(mid.containers), 0, k);
  }

  /** Own labels are never overwritten; what is added has a matching rule's value. */
  lemma LabelsAfter(cfg: PodConfig, deployment: string, pod: Pod, r: Pod, k: string)
    requires AgentInjected(cfg, deployment, pod, r)
    ensures k in r.labels <==> k in pod.labels || SomeRuleSets(cfg.rules, pod.labels, Labels, k)
    ensures k in pod.labels ==> r.labels[k] == pod.labels[k]
    ensures k !in pod.labels && k in r.labels ==> IsRuleLabel(cfg.rules, pod.labels, k, r.labels[k])
    ensures r.annotations == pod.annotations
  {
    var mid, envs := Stages(cfg, deployment, pod, r);
    RulesOnlyFillGaps(cfg, pod, mid, k);
  }
}
