/** A second pass of the sidecar path. The control plane is asked anew, and settings that were applied may change which
    service it is asked about. */
module SidecarPass {
  import opened Prelude
  import opened ConfigLabels
  import opened Workload
  import opened EnvAppend
  import opened SidecarSettings
  import opened PodInjection

  /** The settings the control plane has for a space and a service. */
  type Answers = ((string, string)) -> SettingReply

  function Asking(cfg: PodConfig, ask: Answers, pod: Pod): PodConfig {
    cfg.(reply := ask(ExtractServiceInfo(pod.labels)))
  }

  /** The pod after an admission; an unchanged outcome leaves it as it was. */
  function PodAfter(pod: Pod, out: PodOutcome): Pod {
    if out.Target? then out.pod else pod
  }

  function SettingsFor(cfg: PodConfig, ask: Answers, pod: Pod): Option<SidecarConfig>
    requires cfg.deployment.Some?
  {
    SidecarConfigFor(pod.labels, cfg.clusterId, cfg.deployment.value, Asking(cfg, ask, pod).reply)
  }

  predicate BringsNothing(pod: Pod, config: SidecarConfig) {
    && pod.containers != []
    && (forall k :: k in config.envs ==> HasEnv(pod.containers[0].env, k))
    && (forall k :: k in config.labels ==> k in pod.labels)
    && (forall k :: k in config.annotations ==> k in pod.annotations)
  }

  lemma ConfiguredIsSameIff(pod: Pod, config: SidecarConfig, r: Pod)
    requires Configured(pod, config, r)
    ensures r == pod <==> BringsNothing(pod, config)
  {
    UnchangedIffNothingMissing(pod.containers[0].env, config.envs, r.containers[0].env);
    assert config.labels + pod.labels == pod.labels <==> forall k :: k in config.labels ==> k in pod.labels;
    assert config.annotations + pod.annotations == pod.annotations <==>
      forall k :: k in config.annotations ==> k in pod.annotations;
  }

  /** Any sidecar pod is left alone exactly when it wants no settings, gets none, or gets only what it has. */
  lemma LeftAloneIff(cfg: PodConfig, pod: Pod, out: PodOutcome)
    requires TakesSidecarPath(pod) && pod.containers != [] && cfg.deployment.Some? && Outcome(cfg, pod, out)
    ensures PodAfter(pod, out) == pod <==>
      var config := SidecarConfigFor(pod.labels, cfg.clusterId, cfg.deployment.value, cfg.reply);
      !WantsSettings(cfg, pod) || config.None? || BringsNothing(pod, config.value)
  {
    var config := SidecarConfigFor(pod.labels, cfg.clusterId, cfg.deployment.value, cfg.reply);
    if WantsSettings(cfg, pod) && config.Some? {
      ConfiguredIsSameIff(pod, config.value, out.pod);
    }
  }

  /** The settings a pass applies. */
  function Applied(cfg: PodConfig, ask: Answers, pod: Pod): SidecarConfig
    requires cfg.deployment.Some?
  {
    if WantsSettings(cfg, pod) && SettingsFor(cfg, ask, pod).Some? then SettingsFor(cfg, ask, pod).value
    else SidecarConfig(map[], map[], map[])
  }

  /** The labels and annotations the first pass leaves behind. */
  function Moved(pod: Pod, first: SidecarConfig): Pod {
    pod.(labels := first.labels + pod.labels, annotations := first.annotations + pod.annotations)
  }

  /** Everything the second settings bring is in the pod or in the first settings. */
  predicate Covered(pod: Pod, first: SidecarConfig, second: SidecarConfig) {
    && pod.containers != []
    && (forall k :: k in second.envs ==> HasEnv(pod.containers[0].env, k) || k in first.envs)
    && (forall k :: k in second.labels ==> k in pod.labels || k in first.labels)
    && (forall k :: k in second.annotations ==> k in pod.annotations || k in first.annotations)
  }

  /** What the first pass makes of the pod. */
  lemma FirstPass(cfg: PodConfig, ask: Answers, pod: Pod, out: PodOutcome)
    requires TakesSidecarPath(pod) && pod.containers != [] && cfg.deployment.Some?
    requires Outcome(Asking(cfg, ask, pod), pod, out)
    ensures var r, first := PodAfter(pod, out), Applied(cfg, ask, pod);
      && TakesSidecarPath(r) && r.containers != []
      && r.labels == Moved(pod, first).labels && r.annotations == Moved(pod, first).annotations
      && forall k :: HasEnv(r.containers[0].env, k) <==> HasEnv(pod.containers[0].env, k) || k in first.envs
  {
    var r, first := PodAfter(pod, out), Applied(cfg, ask, pod);
    if WantsSettings(cfg, pod) && SettingsFor(cfg, ask, pod).Some? {
      ConfiguredNames(pod, first, r);
    } else {
      assert r == pod;
      assert map[] + pod.labels == pod.labels && map[] + pod.annotations == pod.annotations;
    }
  }

  lemma ConfiguredNames(pod: Pod, config: SidecarConfig, r: Pod)
    requires Configured(pod, config, r)
    ensures r.labels == Moved(pod, config).labels && r.annotations == Moved(pod, config).annotations
    ensures forall k :: HasEnv(r.containers[0].env, k) <==> HasEnv(pod.containers[0].env, k) || k in config.envs
  {
    forall k ensures HasEnv(r.containers[0].env, k) <==> HasEnv(pod.containers[0].env, k) || k in config.envs {
      AppendedNames(pod.containers[0].env, config.envs, r.containers[0].env, k);
    }
  }

  /** One pass settles a pod exactly when, with the labels and annotations it then has, it wants no settings, gets none,
      or gets only what it was sent with or the first settings brought. */
  lemma OnePassSettlesIff(cfg: PodConfig, ask: Answers, pod: Pod, out: PodOutcome, out': PodOutcome)
    requires TakesSidecarPath(pod) && pod.containers != [] && cfg.deployment.Some?
    requires Outcome(Asking(cfg, ask, pod), pod, out)
    requires var r := PodAfter(pod, out); Outcome(Asking(cfg, ask, r), r, out')
    ensures var r, first := PodAfter(pod, out), Applied(cfg, ask, pod);
      var moved := Moved(pod, first);
      PodAfter(r, out') == r <==>
        || !WantsSettings(cfg, moved) || SettingsFor(cfg, ask, moved).None?
        || Covered(pod, first, SettingsFor(cfg, ask, moved).value)
  {
    var r, first := PodAfter(pod, out), Applied(cfg, ask, pod);
    FirstPass(cfg, ask, pod, out);
    LeftAloneIff(Asking(cfg, ask, r), r, out');
    assert WantsSettings(cfg, r) == WantsSettings(cfg, Moved(pod, first));
    if SettingsFor(cfg, ask, r).Some? {
      BringsNothingIffCovered(pod, first, r, SettingsFor(cfg, ask, r).value);
    }
  }

  lemma BringsNothingIffCovered(pod: Pod, first: SidecarConfig, r: Pod, second: SidecarConfig)
    requires pod.containers != [] && r.containers != []
    requires r.labels == Moved(pod, first).labels && r.annotations == Moved(pod, first).annotations
    requires forall k :: HasEnv(r.containers[0].env, k) <==> HasEnv(pod.containers[0].env, k) || k in first.envs
    ensures BringsNothing(r, second) <==> Covered(pod, first, second)
  {
  }

  /** The applied labels leave the space alone: the pod has the label itself, or the setting says the same or nothing. */
  predicate KeepsSpace(labels: StringMap, added: StringMap) {
    SERVICE_SPACE in labels || Get(added, SERVICE_SPACE) in {"", ExtractServiceInfo(labels).0}
  }

  lemma ServiceStaysIff(labels: StringMap, added: StringMap)
    requires ExtractServiceInfo(labels).0 != "" && ExtractServiceInfo(labels).1 != ""
    ensures ExtractServiceInfo(added + labels) == ExtractServiceInfo(labels) <==> KeepsSpace(labels, added)
  {
  }

  /** While the settings keep the space, one pass settles the pod. */
  lemma OnePassSettles(cfg: PodConfig, ask: Answers, pod: Pod, out: PodOutcome, out': PodOutcome)
    requires TakesSidecarPath(pod) && pod.containers != [] && cfg.deployment.Some?
    requires Outcome(Asking(cfg, ask, pod), pod, out)
    requires var r := PodAfter(pod, out); Outcome(Asking(cfg, ask, r), r, out')
    requires SettingsFor(cfg, ask, pod).Some? ==> KeepsSpace(pod.labels, SettingsFor(cfg, ask, pod).value.labels)
    ensures var r := PodAfter(pod, out); PodAfter(r, out') == r
  {
    var r := PodAfter(pod, out);
    if WantsSettings(cfg, pod) && SettingsFor(cfg, ask, pod).Some? {
      SameSettings(cfg, ask, pod, r);
      if WantsSettings(cfg, r) {
        ReapplyingChangesNothing(pod, SettingsFor(cfg, ask, pod).value, r, out'.pod);
      }
    }
  }

  lemma SameSettings(cfg: PodConfig, ask: Answers, pod: Pod, r: Pod)
    requires cfg.deployment.Some? && SettingsFor(cfg, ask, pod).Some?
    requires Configured(pod, SettingsFor(cfg, ask, pod).value, r)
    requires KeepsSpace(pod.labels, SettingsFor(cfg, ask, pod).value.labels)
    ensures SettingsFor(cfg, ask, r) == SettingsFor(cfg, ask, pod)
  {
    var config := SettingsFor(cfg, ask, pod).value;
    var (space, service) := ExtractServiceInfo(pod.labels);
    if space != "" && service != "" {
      ServiceStaysIff(pod.labels, config.labels);
    } else {
      assert config.labels + pod.labels == pod.labels;
    }
  }

  function Entry(type': string, key: string, value: string): Setting {
    map["type" := type', "key" := key, "value" := value]
  }

  const MOVES_TO_B := Settings([Entry(SETTING_LABEL, SERVICE_SPACE, "b")])
  const ANNOTATES := Settings([Entry(SETTING_ANNOTATION, "x", "1")])
  const PLAIN_CONTAINER := Container("app", "app", [], [])

  lemma SettingsOfOne(labels: StringMap, type': string, key: string, value: string)
    requires ExtractServiceInfo(labels).0 != "" && ExtractServiceInfo(labels).1 != ""
    requires type' in {SETTING_LABEL, SETTING_ENVIRONMENT, SETTING_ANNOTATION}
    ensures SidecarConfigFor(labels, "cluster", "app", Settings([Entry(type', key, value)])) ==
            Some(if type' == SETTING_LABEL then SidecarConfig(map[key := value], map[], map[])
                 else if type' == SETTING_ENVIRONMENT then SidecarConfig(map[], map[key := value], map[])
                 else SidecarConfig(map[], map[], map[key := value]))
  {
    assert SETTING_LABEL[0] == 'l' && SETTING_ANNOTATION[0] == 'a' && SETTING_ENVIRONMENT[0] == 'e';
    var one := [Entry(type', key, value)];
    assert one[..0] == [] && forall t :: Fold(one[..0], t) == map[];
    assert forall t :: Fold(one, t) == if t == type' then map[key := value] else map[];
  }

  /** Settings that move the pod to another space: the second admission asks about that one and brings something new. */
  lemma SpaceSettingUnsettles(cfg: PodConfig, ask: Answers, labels: StringMap) returns (pod: Pod, r: Pod, again: Pod)
    requires cfg.clusterId == "cluster" && cfg.deployment == Some("app") && cfg.enableSidecarSetting == "true"
    requires Lookup(labels, SIDECAR_ENHANCE) == Some("true")
    requires SERVICE_SPACE !in labels && Get(labels, JDAP_SERVICE_SPACE) == "a" && Get(labels, SERVICE_NAME) == "s"
    requires ask(("a", "s")) == MOVES_TO_B && ask(("b", "s")) == ANNOTATES
    ensures pod == Pod(labels, map[], [], [PLAIN_CONTAINER], [])
    ensures Outcome(Asking(cfg, ask, pod), pod, Target(r))
    ensures Outcome(Asking(cfg, ask, r), r, Target(again))
    ensures again != r
  {
    pod := Pod(labels, map[], [], [PLAIN_CONTAINER], []);
    r := pod.(labels := map[SERVICE_SPACE := "b"] + labels);
    again := r.(annotations := map["x" := "1"]);
    assert ExtractServiceInfo(r.labels) == ("b", "s");
    assert "x" !in r.annotations && "x" in again.annotations;
    FirstMovesToB(Asking(cfg, ask, pod), pod, r);
    ThenAnnotates(Asking(cfg, ask, r), r, again);
  }

  predicate AsksForSettings(cfg: PodConfig, pod: Pod) {
    && cfg.clusterId == "cluster" && cfg.deployment == Some("app") && cfg.enableSidecarSetting == "true"
    && Lookup(pod.labels, SIDECAR_ENHANCE) == Some("true") && pod.annotations == map[] && pod.containers != []
    && ExtractServiceInfo(pod.labels).0 != "" && ExtractServiceInfo(pod.labels).1 != ""
  }

  lemma FirstMovesToB(cfg: PodConfig, pod: Pod, r: Pod)
    requires AsksForSettings(cfg, pod) && cfg.reply == MOVES_TO_B
    requires r == pod.(labels := map[SERVICE_SPACE := "b"] + pod.labels)
    ensures Outcome(cfg, pod, Target(r))
  {
    SettingsOfOne(pod.labels, SETTING_LABEL, SERVICE_SPACE, "b");
    assert map[] + pod.annotations == pod.annotations;
    SettingsApply(cfg, pod, SidecarConfig(map[SERVICE_SPACE := "b"], map[], map[]), r);
  }

  lemma ThenAnnotates(cfg: PodConfig, pod: Pod, r: Pod)
    requires AsksForSettings(cfg, pod) && cfg.reply == ANNOTATES
    requires r == pod.(annotations := map["x" := "1"])
    ensures Outcome(cfg, pod, Target(r))
  {
    assert SETTING_ANNOTATION[0] == 'a';
    SettingsOfOne(pod.labels, SETTING_ANNOTATION, "x", "1");
    assert map[] + pod.labels == pod.labels && map["x" := "1"] + pod.annotations == map["x" := "1"];
    SettingsApply(cfg, pod, SidecarConfig(map[], map[], map["x" := "1"]), r);
  }

  /** Settings without envs change labels and annotations only. */
  lemma SettingsApply(cfg: PodConfig, pod: Pod, config: SidecarConfig, r: Pod)
    requires cfg.deployment.Some? && cfg.enableSidecarSetting == "true" && pod.containers != []
    requires Lookup(pod.labels, SIDECAR_ENHANCE) == Some("true") && SIDECAR_STATUS !in pod.annotations
    requires SidecarConfigFor(pod.labels, cfg.clusterId, cfg.deployment.value, cfg.reply) == Some(config)
    requires config.envs == map[]
    requires r == Moved(pod, config)
    ensures Outcome(cfg, pod, Target(r))
  {
    Wants(cfg, pod);
    var env := pod.containers[0].env;
    assert env[|env|..] == [];
  }

  lemma Wants(cfg: PodConfig, pod: Pod)
    requires cfg.enableSidecarSetting == "true" && Lookup(pod.labels, SIDECAR_ENHANCE) == Some("true")
    requires SIDECAR_STATUS !in pod.annotations
    ensures WantsSettings(cfg, pod) && TakesSidecarPath(pod)
  {
    assert ToLower("e") == "e" && ToLower("ue") == "ue";
    assert ToLower("rue") == "rue" && ToLower("true") == "true";
  }
}
