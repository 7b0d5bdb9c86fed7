/** A second admission of a pod that got the agent. Rule-added labels decide which path it takes, so it is followed
    through the outcome of the whole admission. */
module SecondAdmission {
  import opened Prelude
  import opened ConfigLabels
  import opened InjectorConfig
  import opened RuleMatching
  import opened Workload
  import opened EnvAppend
  import opened EnvMerge
  import opened PodEnvs
  import opened SidecarSettings
  import opened PodInjection
  import opened PodTheorems
  import opened PodWalks
  import opened SidecarPass

  // ----- which path the second admission takes -----

  /** A matching rule diverts the pod: it gives the label, which the pod lacks, the value the sidecar path looks for. */
  predicate Diverts(cfg: PodConfig, labels: StringMap, k: string, v: string) {
    k !in labels && IsRuleLabel(cfg.rules, labels, k, v)
  }

  ghost predicate OnAgentPath(cfg: PodConfig, deployment: string, pod: Pod, r: Pod) {
    AgentInjected(cfg, deployment, pod, r) ==> !TakesSidecarPath(r)
  }

  /** Whatever the walks, an injected pod stays on the agent path exactly when no matching rule can divert it. */
  lemma StaysOnAgentPathIff(cfg: PodConfig, deployment: string, pod: Pod)
    requires pod.containers != [] && !TakesSidecarPath(pod)
    ensures (forall r :: OnAgentPath(cfg, deployment, pod, r)) <==>
            && !Diverts(cfg, pod.labels, ENHANCE_TYPE, ENHANCE_SIDECAR)
            && !Diverts(cfg, pod.labels, SIDECAR_ENHANCE, "true")
  {
    if Diverts(cfg, pod.labels, ENHANCE_TYPE, ENHANCE_SIDECAR) {
      var r := WalkWithLabel(cfg, deployment, pod, ENHANCE_TYPE, ENHANCE_SIDECAR);
      assert !OnAgentPath(cfg, deployment, pod, r);
    } else if Diverts(cfg, pod.labels, SIDECAR_ENHANCE, "true") {
      var r := WalkWithLabel(cfg, deployment, pod, SIDECAR_ENHANCE, "true");
      assert !OnAgentPath(cfg, deployment, pod, r);
    } else {
      forall r | AgentInjected(cfg, deployment, pod, r) ensures OnAgentPath(cfg, deployment, pod, r) {
        LabelsAfter(cfg, deployment, pod, r, ENHANCE_TYPE);
        LabelsAfter(cfg, deployment, pod, r, SIDECAR_ENHANCE);
      }
    }
  }

  // ----- what it leaves alone -----

  /** The same pod, with every env list read as a map. */
  ghost predicate SameAsMaps(a: Pod, b: Pod) {
    && a == b.(containers := a.containers) && SameShape(a.containers, b.containers)
    && SameEnvs(a, b)
  }

  /** Equal in all but the env lists. */
  predicate SameShape(a: seq<Container>, b: seq<Container>) {
    |a| == |b| && forall i :: 0 <= i < |a| ==> SameButEnv(a[i], b[i])
  }

  predicate SameButEnv(a: Container, b: Container) {
    a == b.(env := a.env)
  }

  lemma AgentKeepsShape(cfg: PodConfig, deployment: string, pod: Pod, r: Pod,
                        cfg': PodConfig, deployment': string, again: Pod)
    requires AgentInjected(cfg, deployment, pod, r) && AgentInjected(cfg', deployment', r, again)
    ensures SameShape(again.containers, r.containers) && again.volumes == r.volumes
    ensures again.initContainers == r.initContainers <==> HasContainer(r.initContainers, cfg'.initContainerName)
  {
    InjectedAllNamed(cfg, deployment, pod, r);
    InjectedAllNamed(cfg', deployment', r, again);
    forall i | 0 <= i < |r.containers| ensures SameButEnv(again.containers[i], r.containers[i]) {
      InjectedContainer(cfg, deployment, pod, r, i);
      ContainerShape(cfg', deployment', r, again, i);
    }
    InitContainersAndVolumes(cfg, deployment, pod, r);
    InitContainersAndVolumes(cfg', deployment', r, again);
  }

  lemma AgentKeepsLabelsIff(cfg: PodConfig, deployment: string, pod: Pod, r: Pod)
    requires AgentInjected(cfg, deployment, pod, r)
    ensures r.labels == pod.labels <==> forall k :: SomeRuleSets(cfg.rules, pod.labels, Labels, k) ==> k in pod.labels
  {
    forall k
      ensures k in r.labels <==> k in pod.labels || SomeRuleSets(cfg.rules, pod.labels, Labels, k)
      ensures k in pod.labels ==> r.labels[k] == pod.labels[k]
    {
      LabelsAfter(cfg, deployment, pod, r, k);
    }
    if forall k :: SomeRuleSets(cfg.rules, pod.labels, Labels, k) ==> k in pod.labels {
      assert forall k :: SameAt(r.labels, pod.labels, k);
      SameEverywhere(r.labels, pod.labels);
    }
  }

  /** The settings a sidecar admission of this pod gets. */
  function SettingsNow(cfg: PodConfig, pod: Pod): Option<SidecarConfig>
    requires cfg.deployment.Some?
  {
    SidecarConfigFor(pod.labels, cfg.clusterId, cfg.deployment.value, cfg.reply)
  }

  lemma SidecarKeepsEnvsIff(pod: Pod, config: SidecarConfig, r: Pod)
    requires Configured(pod, config, r)
    ensures SameEnvs(r, pod) <==> forall k :: k in config.envs ==> HasEnv(pod.containers[0].env, k)
  {
    var env, env' := pod.containers[0].env, r.containers[0].env;
    UnchangedIffNothingMissing(env, config.envs, env');
    if k :| k in config.envs && !HasEnv(env, k) {
      ToMapIsLast(env, k);
      ToMapIsLast(env', k);
      AppendedNames(env, config.envs, env', k);
    }
  }

  lemma SidecarSettlesIff(pod: Pod, config: SidecarConfig, r: Pod)
    requires Configured(pod, config, r)
    ensures SameAsMaps(r, pod) <==> BringsNothing(pod, config)
  {
    SidecarKeepsEnvsIff(pod, config, r);
    assert SameShape(r.containers, pod.containers);
    assert config.labels + pod.labels == pod.labels <==> forall k :: k in config.labels ==> k in pod.labels;
    assert config.annotations + pod.annotations == pod.annotations <==>
      forall k :: k in config.annotations ==> k in pod.annotations;
  }

  // ----- through the whole admission -----

  /** The second admission brings container 0 no new env name. */
  ghost predicate NoNewEnv(cfg: PodConfig, r: Pod) {
    || r.containers == [] || cfg.deployment.None?
    || if TakesSidecarPath(r) then
         || !WantsSettings(cfg, r) || SettingsNow(cfg, r).None?
         || forall k :: k in SettingsNow(cfg, r).value.envs ==> HasEnv(r.containers[0].env, k)
       else forall k :: Brought(cfg, r.labels, k) ==> HasEnv(r.containers[0].env, k)
  }

  /** The second admission brings nothing new at all. */
  ghost predicate NothingNewFor(cfg: PodConfig, r: Pod) {
    || r.containers == [] || cfg.deployment.None?
    || if TakesSidecarPath(r) then
         || !WantsSettings(cfg, r) || SettingsNow(cfg, r).None? || BringsNothing(r, SettingsNow(cfg, r).value)
       else
         && HasContainer(r.initContainers, cfg.initContainerName)
         && (forall k :: Brought(cfg, r.labels, k) ==> HasEnv(r.containers[0].env, k))
         && (forall k :: SomeRuleSets(cfg.rules, r.labels, Labels, k) ==> k in r.labels)
  }

  /** The env of a pod that got the agent survives a second admission, as maps, exactly when that brings no new env name,
      on whichever path. */
  lemma SecondAdmissionKeepsEnvsIff(cfg: PodConfig, pod: Pod, r: Pod, cfg': PodConfig, out: PodOutcome)
    requires !TakesSidecarPath(pod) && Outcome(cfg, pod, Target(r)) && Outcome(cfg', r, out)
    ensures SameEnvs(PodAfter(r, out), r) <==> NoNewEnv(cfg', r)
  {
    assert SameEnvs(r, r);
    if r.containers != [] && cfg'.deployment.Some? {
      if !TakesSidecarPath(r) {
        SecondPassKeepsEnvsIff(cfg, cfg.deployment.value, pod, r, cfg', cfg'.deployment.value, out.pod);
      } else if WantsSettings(cfg', r) && SettingsNow(cfg', r).Some? {
        SidecarKeepsEnvsIff(r, SettingsNow(cfg', r).value, out.pod);
      }
    }
  }

  /** A pod that got the agent is left as it is, its env lists read as maps, exactly when the second admission brings
      nothing new. */
  lemma SecondAdmissionSettlesIff(cfg: PodConfig, pod: Pod, r: Pod, cfg': PodConfig, out: PodOutcome)
    requires !TakesSidecarPath(pod) && Outcome(cfg, pod, Target(r)) && Outcome(cfg', r, out)
    ensures SameAsMaps(PodAfter(r, out), r) <==> NothingNewFor(cfg', r)
  {
    assert SameAsMaps(r, r);
    if r.containers != [] && cfg'.deployment.Some? {
      if !TakesSidecarPath(r) {
        AgentSettlesIff(cfg, cfg.deployment.value, pod, r, cfg', cfg'.deployment.value, out.pod);
      } else if WantsSettings(cfg', r) && SettingsNow(cfg', r).Some? {
        SidecarSettlesIff(r, SettingsNow(cfg', r).value, out.pod);
      }
    }
  }

  lemma AgentSettlesIff(cfg: PodConfig, deployment: string, pod: Pod, r: Pod,
                        cfg': PodConfig, deployment': string, again: Pod)
    requires AgentInjected(cfg, deployment, pod, r) && AgentInjected(cfg', deployment', r, again)
    ensures r.containers != []
    ensures SameAsMaps(again, r) <==>
            && HasContainer(r.initContainers, cfg'.initContainerName)
            && (forall k :: Brought(cfg', r.labels, k) ==> HasEnv(r.containers[0].env, k))
            && (forall k :: SomeRuleSets(cfg'.rules, r.labels, Labels, k) ==> k in r.labels)
  {
    SecondPassKeepsEnvsIff(cfg, deployment, pod, r, cfg', deployment', again);
    AgentKeepsShape(cfg, deployment, pod, r, cfg', deployment', again);
    AgentKeepsLabelsIff(cfg', deployment', r, again);
    LabelsAfter(cfg', deployment', r, again, "");
  }

  /** Init containers, volumes and everything of the containers but their env survive any second admission with the same
      init container name. */
  lemma SecondAdmissionKeepsShape(cfg: PodConfig, pod: Pod, r: Pod, cfg': PodConfig, out: PodOutcome)
    requires !TakesSidecarPath(pod) && Outcome(cfg, pod, Target(r)) && Outcome(cfg', r, out)
    requires cfg'.initContainerName == cfg.initContainerName
    ensures var after := PodAfter(r, out);
      after.initContainers == r.initContainers && after.volumes == r.volumes && SameShape(after.containers, r.containers)
  {
    if r.containers != [] && cfg'.deployment.Some? && !TakesSidecarPath(r) {
      AgentKeepsShape(cfg, cfg.deployment.value, pod, r, cfg', cfg'.deployment.value, out.pod);
      InitContainersAndVolumes(cfg, cfg.deployment.value, pod, r);
    }
  }

  /** The usual setting: a named first container, the same names from labels and agent configuration, and rule-added
      labels that enable no further rule and do not divert the pod. Then a second admission changes nothing, whatever the
      walks, env values, zones and settings. */
  lemma SecondAdmissionChangesNothing(cfg: PodConfig, pod: Pod, r: Pod, cfg': PodConfig, out: PodOutcome)
    requires !TakesSidecarPath(pod) && Outcome(cfg, pod, Target(r)) && Outcome(cfg', r, out)
    requires pod.containers != [] && pod.containers[0].name != ""
    requires cfg'.initContainerName == cfg.initContainerName && cfg'.rules == cfg.rules
    requires PodEnvNames(cfg'.matchLabels, r.labels) == PodEnvNames(cfg.matchLabels, pod.labels)
    requires cfg'.agent.envs.Keys == cfg.agent.envs.Keys
    requires forall n :: n in cfg.rules && Matches(cfg.rules[n], r.labels) ==> Matches(cfg.rules[n], pod.labels)
    requires !Diverts(cfg, pod.labels, ENHANCE_TYPE, ENHANCE_SIDECAR) && !Diverts(cfg, pod.labels, SIDECAR_ENHANCE, "true")
    ensures SameAsMaps(PodAfter(r, out), r)
  {
    var deployment := cfg.deployment.value;
    StaysOnAgentPathIff(cfg, deployment, pod);
    assert OnAgentPath(cfg, deployment, pod, r);
    InitContainersAndVolumes(cfg, deployment, pod, r);
    forall k, part | SomeRuleSets(cfg.rules, r.labels, part, k) ensures SomeRuleSets(cfg.rules, pod.labels, part, k) {
      var n :| n in cfg.rules && Sets(cfg.rules, r.labels, part, n, k);
      assert Sets(cfg.rules, pod.labels, part, n, k);
    }
    forall k | Brought(cfg', r.labels, k) ensures r.containers != [] && HasEnv(r.containers[0].env, k) {
      FirstGetsAll(cfg, deployment, pod, r, k);
    }
    forall k | SomeRuleSets(cfg'.rules, r.labels, Labels, k) ensures k in r.labels {
      LabelsAfter(cfg, deployment, pod, r, k);
    }
    SecondAdmissionSettlesIff(cfg, pod, r, cfg', out);
  }

  // ----- what was sent decides -----

  /** The names container 0 has after the first admission: unnamed containers are dropped, with what rules gave them. */
  ghost predicate FirstHas(cfg: PodConfig, pod: Pod, k: string) {
    && Named(pod.containers) != []
    && (|| k in PodEnvNames(cfg.matchLabels, pod.labels) || k in cfg.agent.envs
        || HasEnv(Named(pod.containers)[0].env, k)
        || (pod.containers[0].name != "" && SomeRuleSets(cfg.rules, pod.labels, Envs, k)))
  }

  lemma {:induction false} NamedSplit(containers: seq<Container>)
    requires containers != []
    ensures Named(containers) == (if containers[0].name != "" then [containers[0]] else []) + Named(containers[1..])
  {
    var n := |containers| - 1;
    if n > 0 {
      NamedSplit(containers[..n]);
      assert containers[..n][1..] == containers[1..][..n - 1];
    }
  }

  lemma FirstAfterRules(cfg: PodConfig, pod: Pod, mid: Pod, k: string)
    requires RulesApplied(cfg, pod, mid)
    ensures Named(mid.containers) == [] <==> Named(pod.containers) == []
    ensures Named(pod.containers) != [] ==>
      (HasEnv(Named(mid.containers)[0].env, k) <==>
        || HasEnv(Named(pod.containers)[0].env, k)
        || (pod.containers[0].name != "" && SomeRuleSets(cfg.rules, pod.labels, Envs, k)))
  {
    NamedSplit(pod.containers);
    NamedSplit(mid.containers);
    assert mid.containers[1..] == pod.containers[1..];
    RulesOnlyFillGaps(cfg, pod, mid, k);
  }

  lemma FirstNames(cfg: PodConfig, deployment: string, pod: Pod, r: Pod, k: string)
    requires AgentInjected(cfg, deployment, pod, r)
    ensures r.containers == [] <==> Named(pod.containers) == []
    ensures r.containers != [] ==> (HasEnv(r.containers[0].env, k) <==> FirstHas(cfg, pod, k))
  {
    var mid, envs := Stages(cfg, deployment, pod, r);
    FirstAfterRules(cfg, pod, mid, k);
    if r.containers != [] {
      MergeIsPrecedence(Named(mid.containers), envs, cfg.agent.envs, deployment, r.containers, 0, k);
      PodEnvsHaveTheirNames(cfg.matchLabels, pod.labels, cfg.nodes, envs, k);
      assert DefinedUpTo(Named(mid.containers), 0, k) <==> HasEnv(Named(mid.containers)[0].env, k);
    }
  }

  lemma InitContainersAfter(cfg: PodConfig, deployment: string, pod: Pod, r: Pod, name: string)
    requires AgentInjected(cfg, deployment, pod, r)
    ensures HasContainer(r.initContainers, name) <==>
            HasContainer(pod.initContainers, name) || name == cfg.initContainerName
  {
    var mid, envs := Stages(cfg, deployment, pod, r);
    InitNames(cfg, deployment, mid, r.initContainers, name);
  }

  lemma InitNames(cfg: PodConfig, deployment: string, pod: Pod, r: seq<Container>, name: string)
    requires InitContainerAdded(cfg, deployment, pod, r)
    ensures HasContainer(r, name) <==> HasContainer(pod.initContainers, name) || name == cfg.initContainerName
  {
    if !HasContainer(pod.initContainers, cfg.initContainerName) {
      var n := |pod.initContainers|;
      assert r[n].name == cfg.initContainerName;
      assert forall i :: 0 <= i < n ==> r[i] == r[..n][i];
    }
  }

  /** With these labels after the first admission, the second brings nothing new. */
  ghost predicate SettledWith(cfg: PodConfig, cfg': PodConfig, pod: Pod, labels: StringMap) {
    var moved := pod.(labels := labels);
    || Named(pod.containers) == [] || cfg'.deployment.None?
    || if TakesSidecarPath(moved) then
         || !WantsSettings(cfg', moved) || SettingsNow(cfg', moved).None?
         || CoveredWith(cfg, pod, labels, SettingsNow(cfg', moved).value)
       else
         && (HasContainer(pod.initContainers, cfg'.initContainerName) || cfg'.initContainerName == cfg.initContainerName)
         && (forall k :: Brought(cfg', labels, k) ==> FirstHas(cfg, pod, k))
         && (forall k :: SomeRuleSets(cfg'.rules, labels, Labels, k) ==> k in labels)
  }

  ghost predicate CoveredWith(cfg: PodConfig, pod: Pod, labels: StringMap, second: SidecarConfig) {
    && (forall k :: k in second.envs ==> FirstHas(cfg, pod, k))
    && (forall k :: k in second.labels ==> k in labels)
    && (forall k :: k in second.annotations ==> k in pod.annotations)
  }

  lemma NothingNewIffSettled(cfg: PodConfig, deployment: string, pod: Pod, r: Pod, cfg': PodConfig)
    requires AgentInjected(cfg, deployment, pod, r)
    ensures NothingNewFor(cfg', r) <==> SettledWith(cfg, cfg', pod, r.labels)
  {
    forall k
      ensures r.containers == [] <==> Named(pod.containers) == []
      ensures r.containers != [] ==> (HasEnv(r.containers[0].env, k) <==> FirstHas(cfg, pod, k))
    {
      FirstNames(cfg, deployment, pod, r, k);
    }
    FirstNames(cfg, deployment, pod, r, "");
    InitContainersAfter(cfg, deployment, pod, r, cfg'.initContainerName);
    LabelsAfter(cfg, deployment, pod, r, "");
    var moved := pod.(labels := r.labels);
    assert TakesSidecarPath(r) == TakesSidecarPath(moved) && WantsSettings(cfg', r) == WantsSettings(cfg', moved);
  }

  ghost predicate Settles(cfg: PodConfig, cfg': PodConfig, ask: Answers, pod: Pod, r: Pod, out: PodOutcome) {
    Outcome(cfg, pod, Target(r)) && Outcome(Asking(cfg', ask, r), r, out) ==> SameAsMaps(PodAfter(r, out), r)
  }

  /** The labels of some walk of the first admission. */
  ghost predicate WalkLabels(cfg: PodConfig, pod: Pod, labels: StringMap) {
    exists order :: Enumerates(order, cfg.rules.Keys) && labels == Merge(cfg.rules, pod.labels, Labels, order) + pod.labels
  }

  /** Two admissions, whatever the walks, are the same as one exactly when for the labels of every walk over the rules the
      second brings nothing the pod was not sent with or given. */
  lemma AdmissionSettlesIff(cfg: PodConfig, cfg': PodConfig, ask: Answers, pod: Pod)
    requires !TakesSidecarPath(pod) && pod.containers != [] && cfg.deployment.Some?
    ensures (forall r, out :: Settles(cfg, cfg', ask, pod, r, out)) <==>
            forall labels :: WalkLabels(cfg, pod, labels) ==>
              SettledWith(cfg, Asking(cfg', ask, pod.(labels := labels)), pod, labels)
  {
    if forall labels :: WalkLabels(cfg, pod, labels) ==>
         SettledWith(cfg, Asking(cfg', ask, pod.(labels := labels)), pod, labels) {
      forall r, out | Outcome(cfg, pod, Target(r)) && Outcome(Asking(cfg', ask, r), r, out)
        ensures Settles(cfg, cfg', ask, pod, r, out)
      {
        var mid, envs := Stages(cfg, cfg.deployment.value, pod, r);
        assert WalkLabels(cfg, pod, r.labels);
        NothingNewIffSettled(cfg, cfg.deployment.value, pod, r, Asking(cfg', ask, r));
        SecondAdmissionSettlesIff(cfg, pod, r, Asking(cfg', ask, r), out);
      }
    } else {
      var labels :| WalkLabels(cfg, pod, labels) && !SettledWith(cfg, Asking(cfg', ask, pod.(labels := labels)), pod, labels);
      var r, out := UnsettledWalk(cfg, cfg', ask, pod, labels);
    }
  }

  lemma UnsettledWalk(cfg: PodConfig, cfg': PodConfig, ask: Answers, pod: Pod, labels: StringMap)
    returns (r: Pod, out: PodOutcome)
    requires !TakesSidecarPath(pod) && pod.containers != [] && cfg.deployment.Some? && WalkLabels(cfg, pod, labels)
    requires !SettledWith(cfg, Asking(cfg', ask, pod.(labels := labels)), pod, labels)
    ensures !Settles(cfg, cfg', ask, pod, r, out)
  {
    var order :| Enumerates(order, cfg.rules.Keys) && labels == Merge(cfg.rules, pod.labels, Labels, order) + pod.labels;
    r := SomeInjection(cfg, cfg.deployment.value, pod, order);
    out := SomeOutcome(Asking(cfg', ask, r), r);
    NothingNewIffSettled(cfg, cfg.deployment.value, pod, r, Asking(cfg', ask, r));
    SecondAdmissionSettlesIff(cfg, pod, r, Asking(cfg', ask, r), out);
  }

  /** Every pod has an outcome. */
  lemma SomeOutcome(cfg: PodConfig, pod: Pod) returns (out: PodOutcome)
    ensures Outcome(cfg, pod, out)
  {
    if pod.containers == [] {
      out := Unchanged;
    } else if cfg.deployment.None? {
      out := Denied;
    } else if !TakesSidecarPath(pod) {
      var order := SomeOrder(cfg.rules.Keys);
      var r := SomeInjection(cfg, cfg.deployment.value, pod, order);
      out := Target(r);
    } else if !WantsSettings(cfg, pod) {
      out := Target(pod);
    } else if SettingsNow(cfg, pod).None? {
      out := Unchanged;
    } else {
      var config := SettingsNow(cfg, pod).value;
      var env := SomeAppend(pod.containers[0].env, config.envs);
      out := Target(pod.(containers := pod.containers[0 := pod.containers[0].(env := env)],
                         labels := config.labels + pod.labels, annotations := config.annotations + pod.annotations));
    }
  }

  // ----- a rule that diverts -----

  const DIVERTING := InjectorRule(map[], map[], map[SIDECAR_ENHANCE := "true"])

  function DivertingConfig(): PodConfig {
    PodConfig("joylive-init", "", "true", "cluster", AgentConfig("agent", "1.0", map[]), map["rule" := DIVERTING],
              map[], map[], None, Some("app"), SettingReply.Settings([Entry(SETTING_ENVIRONMENT, "x", "1")]))
  }

  /** The rule enables no rule and brings no env, the configuration and the reply stay the same, and yet a second admission
      adds an env var: the first takes the agent path, the second the sidecar path. */
  lemma RuleDiverts() returns (pod: Pod, r: Pod, out: PodOutcome)
    ensures !TakesSidecarPath(pod)
    ensures Outcome(DivertingConfig(), pod, Target(r)) && Outcome(DivertingConfig(), r, out)
    ensures !SameEnvs(PodAfter(r, out), r)
  {
    var cfg := DivertingConfig();
    pod := Pod(map[SERVICE_SPACE := "a", SERVICE_NAME := "s"], map[], [], [PLAIN_CONTAINER], []);
    assert Sets(cfg.rules, pod.labels, Labels, "rule", SIDECAR_ENHANCE);
    r := WalkWithLabel(cfg, "app", pod, SIDECAR_ENHANCE, "true");
    LabelsAfter(cfg, "app", pod, r, SERVICE_SPACE);
    LabelsAfter(cfg, "app", pod, r, SERVICE_NAME);
    out := SomeOutcome(cfg, r);
    FirstLacks(cfg, pod, r);
    NewEnvFromSettings(cfg, r);
    SecondAdmissionKeepsEnvsIff(cfg, pod, r, cfg, out);
  }

  lemma NewEnvFromSettings(cfg: PodConfig, r: Pod)
    requires cfg == DivertingConfig() && r.containers != [] && !HasEnv(r.containers[0].env, "x") && r.annotations == map[]
    requires Lookup(r.labels, SIDECAR_ENHANCE) == Some("true")
    requires Get(r.labels, SERVICE_SPACE) == "a" && Get(r.labels, SERVICE_NAME) == "s"
    ensures !NoNewEnv(cfg, r)
  {
    Wants(cfg, r);
    SettingsOfOne(r.labels, SETTING_ENVIRONMENT, "x", "1");
    assert "x" in SettingsNow(cfg, r).value.envs;
  }

  lemma FirstLacks(cfg: PodConfig, pod: Pod, r: Pod)
    requires cfg == DivertingConfig() && AgentInjected(cfg, "app", pod, r)
    requires pod == Pod(map[SERVICE_SPACE := "a", SERVICE_NAME := "s"], map[], [], [PLAIN_CONTAINER], [])
    ensures r.containers != [] && !HasEnv(r.containers[0].env, "x")
  {
    FirstNames(cfg, "app", pod, r, "x");
    NamedKeepsFirst(pod.containers);
    assert |"x"| == 1 && "x" !in pod.labels && "x" !in {NODE_NAME, NODE_ZONES};
    assert DIVERTING.envs == map[];
  }
}
