/** injectionPod of pkg/mutation/mutation_pod.go. JSON decoding and the patch are left out: the outcome is the
    target pod. */
module PodInjection {
  import opened Prelude
  import opened ConfigLabels
  import opened InjectorConfig
  import opened AgentVersionProtocol
  import opened RuleMatching
  import opened NodeZones
  import opened Workload
  import opened EnvAppend
  import opened EnvMerge
  import opened PodEnvs
  import opened SidecarSettings

  const SIDECAR_STATUS := "sidecar.istio.io/status"
  const INIT_EMPTY_DIR_MOUNT_PATH := "/agent"
  const JAVA_TOOL_OPTIONS := "JAVA_TOOL_OPTIONS"

  /** What one admission reads: settings, the caches, and the answers of the cluster and the control plane. */
  datatype PodConfig = PodConfig(
    initContainerName: string, matchLabels: string, enableSidecarSetting: string, clusterId: string,
    agent: AgentConfig, rules: Rules, versions: VersionCache, maps: map<string, StringMap>,
    nodes: Option<seq<Node>>, deployment: Option<string>, reply: SettingReply)

  datatype PodOutcome = Unchanged | Denied | Target(pod: Pod)

  // ----- specification of the agent path -----

  /** The version whose image the pod gets. */
  function PickedVersion(cfg: PodConfig, labels: StringMap): string {
    if AGENT_VERSION_LABEL in labels && Usable(cfg.versions, cfg.maps, labels[AGENT_VERSION_LABEL])
    then cfg.versions[labels[AGENT_VERSION_LABEL]].version
    else cfg.agent.version
  }

  /** The value of the first entry of that name in the first container that has one. */
  function FirstValue(containers: seq<Container>, key: string): string {
    if containers == [] then ""
    else if HasEnv(containers[0].env, key) then FirstEnv(containers[0].env, key).value
    else FirstValue(containers[1..], key)
  }

  function FirstEnv(env: seq<EnvVar>, key: string): EnvVar
    requires HasEnv(env, key)
  {
    if env[0].name == key then env[0] else FirstEnv(env[1..], key)
  }

  function InitEnvs(agentEnvs: StringMap, containers: seq<Container>): EnvMap {
    map k | k in agentEnvs ::
      PlainEnv(k, if k == JAVA_TOOL_OPTIONS then agentEnvs[k] + " " + FirstValue(containers, k) else agentEnvs[k])
  }

  predicate HasContainer(containers: seq<Container>, name: string) {
    exists i :: 0 <= i < |containers| && containers[i].name == name
  }

  /** The agent's init container is appended unless one of that name is there. */
  ghost predicate InitContainerAdded(cfg: PodConfig, deployment: string, pod: Pod, r: seq<Container>) {
    if HasContainer(pod.initContainers, cfg.initContainerName) then r == pod.initContainers
    else
      && |r| == |pod.initContainers| + 1 && r[..|pod.initContainers|] == pod.initContainers
      && var c := r[|pod.initContainers|];
         && c.name == cfg.initContainerName
         && c.image == cfg.agent.image + ":" + PickedVersion(cfg, pod.labels)
         && c.mounts == CreateAgentVolumeMounts(INIT_EMPTY_DIR_MOUNT_PATH, deployment)
         && DistinctNames(c.env) && ToMap(c.env) == InitEnvs(cfg.agent.envs, pod.containers)
  }

  predicate HasVolume(volumes: seq<Volume>, name: string) {
    exists i :: 0 <= i < |volumes| && volumes[i].name == name
  }

  function AddPodVolume(volumes: seq<Volume>, deployment: string): seq<Volume> {
    if HasVolume(volumes, AGENT_VOLUME_NAME) then volumes
    else volumes + [
      Volume(AGENT_VOLUME_NAME, EmptyDir),
      Volume(ConfigVolumeName(deployment),
             FromConfigMap(ConfigVolumeName(deployment), [AGENT_CONFIG, BOOT_CONFIG, LOG_CONFIG])) ]
  }

  /** Rules add env vars to container 0 and labels to the pod, and never replace what is there. */
  ghost predicate RulesApplied(cfg: PodConfig, pod: Pod, mid: Pod) {
    && pod.containers != [] && |mid.containers| == |pod.containers|
    && (exists order :: Enumerates(order, cfg.rules.Keys)
          && Appended(pod.containers[0].env, Merge(cfg.rules, pod.labels, Envs, order), mid.containers[0].env)
          && mid.labels == Merge(cfg.rules, pod.labels, Labels, order) + pod.labels)
    && mid.containers == pod.containers[0 := pod.containers[0].(env := mid.containers[0].env)]
    && mid.annotations == pod.annotations && mid.initContainers == pod.initContainers && mid.volumes == pod.volumes
  }

  datatype Stage = WithRules | WithPodEnvs | WithInitContainer | WithContainers | WithVolumes | WithMetadata

  /** What each stage did. The label env vars come from the labels the pod was sent with, the version from those after
      the rules. */
  ghost predicate StageDone(stage: Stage, cfg: PodConfig, deployment: string, pod: Pod, mid: Pod,
                            envs: seq<EnvVar>, r: Pod) {
    match stage
    case WithRules => RulesApplied(cfg, pod, mid)
    case WithPodEnvs => ArePodEnvs(cfg.matchLabels, pod.labels, cfg.nodes, envs)
    case WithInitContainer => InitContainerAdded(cfg, deployment, mid, r.initContainers)
    case WithContainers => Modified(Named(mid.containers), envs, cfg.agent.envs, deployment, r.containers)
    case WithVolumes => r.volumes == AddPodVolume(mid.volumes, deployment)
    case WithMetadata => r.labels == mid.labels && r.annotations == mid.annotations
  }

  ghost predicate AgentInjectedVia(cfg: PodConfig, deployment: string, pod: Pod, mid: Pod, envs: seq<EnvVar>, r: Pod) {
    forall stage :: StageDone(stage, cfg, deployment, pod, mid, envs, r)
  }

  /** r is a possible result of the agent path; the orders of Go's map walks are open. */
  ghost predicate AgentInjected(cfg: PodConfig, deployment: string, pod: Pod, r: Pod) {
    exists mid, envs :: AgentInjectedVia(cfg, deployment, pod, mid, envs, r)
  }

  lemma Stages(cfg: PodConfig, deployment: string, pod: Pod, r: Pod) returns (mid: Pod, envs: seq<EnvVar>)
    requires AgentInjected(cfg, deployment, pod, r)
    ensures RulesApplied(cfg, pod, mid)
    ensures ArePodEnvs(cfg.matchLabels, pod.labels, cfg.nodes, envs)
    ensures InitContainerAdded(cfg, deployment, mid, r.initContainers)
    ensures Modified(Named(mid.containers), envs, cfg.agent.envs, deployment, r.containers)
    ensures r.volumes == AddPodVolume(mid.volumes, deployment)
    ensures r.labels == mid.labels && r.annotations == mid.annotations
  {
    mid, envs :| AgentInjectedVia(cfg, deployment, pod, mid, envs, r);
    assert StageDone(WithRules, cfg, deployment, pod, mid, envs, r);
    assert StageDone(WithPodEnvs, cfg, deployment, pod, mid, envs, r);
    assert StageDone(WithInitContainer, cfg, deployment, pod, mid, envs, r);
    assert StageDone(WithContainers, cfg, deployment, pod, mid, envs, r);
    assert StageDone(WithVolumes, cfg, deployment, pod, mid, envs, r);
    assert StageDone(WithMetadata, cfg, deployment, pod, mid, envs, r);
  }

  // ----- the agent path -----

  method GetEnv(containers: seq<Container>, key: string) returns (value: string)
    ensures value == FirstValue(containers, key)
  {
    for i := 0 to |containers|
      invariant FirstValue(containers, key) == FirstValue(containers[i..], key)
    {
      var env := containers[i].env;
      assert containers[i..][1..] == containers[i + 1..];
      for j := 0 to |env|
        invariant HasEnv(env, key) <==> HasEnv(env[j..], key)
        invariant HasEnv(env, key) ==> FirstEnv(env, key) == FirstEnv(env[j..], key)
      {
        assert env[j..] == [env[j]] + env[j + 1..];
        if env[j].name == key {
          assert env[j..][0].name == key;
          return env[j].value;
        }
        SkipFirst(env[j..], key);
      }
    }
    value := "";
  }

  lemma SkipFirst(env: seq<EnvVar>, key: string)
    requires env != [] && env[0].name != key
    ensures HasEnv(env, key) <==> HasEnv(env[1..], key)
  {
    if HasEnv(env, key) {
      var i :| 0 <= i < |env| && env[i].name == key;
      assert env[1..][i - 1].name == key;
    }
  }

  method MakeInitEnvs(agentEnvs: StringMap, containers: seq<Container>) returns (env: seq<EnvVar>)
    ensures DistinctNames(env) && ToMap(env) == InitEnvs(agentEnvs, containers)
  {
    env := [];
    var todo := agentEnvs.Keys;
    while todo != {}
      invariant todo <= agentEnvs.Keys
      invariant DistinctNames(env) && ToMap(env) == InitEnvs(agentEnvs, containers) - todo
      decreases |todo|
    {
      var key :| key in todo;
      var value := agentEnvs[key];
      if key == JAVA_TOOL_OPTIONS {
        var v := GetEnv(containers, key);
        value := value + " " + v;
      }
      ListNext(InitEnvs(agentEnvs, containers), todo, env, key);
      env := env + [PlainEnv(key, value)];
      todo := todo - {key};
    }
  }

  method ScanContainers(containers: seq<Container>, name: string) returns (found: bool)
    ensures found <==> HasContainer(containers, name)
  {
    for i := 0 to |containers|
      invariant forall j :: 0 <= j < i ==> containers[j].name != name
    {
      if containers[i].name == name {
        return true;
      }
    }
    found := false;
  }

  method AddPodInitContainer(cfg: PodConfig, deployment: string, pod: Pod) returns (r: seq<Container>)
    ensures InitContainerAdded(cfg, deployment, pod, r)
  {
    var found := ScanContainers(pod.initContainers, cfg.initContainerName);
    if found {
      return pod.initContainers;
    }
    var version := cfg.agent.version;
    if AGENT_VERSION_LABEL in pod.labels {
      var av := pod.labels[AGENT_VERSION_LABEL];
      if av in cfg.versions && cfg.versions[av].enable && cfg.versions[av].configMapName in cfg.maps {
        version := cfg.versions[av].version;
      }
    }
    var env := MakeInitEnvs(cfg.agent.envs, pod.containers);
    r := pod.initContainers + [Container(cfg.initContainerName, cfg.agent.image + ":" + version, env,
                                         CreateAgentVolumeMounts(INIT_EMPTY_DIR_MOUNT_PATH, deployment))];
  }

  method ApplyRules(cfg: PodConfig, pod: Pod) returns (mid: Pod)
    requires pod.containers != []
    ensures RulesApplied(cfg, pod, mid)
  {
    var addEnvs, addLabels := MatchRule(cfg.rules, pod.labels);
    var env, _ := AppendMissing(pod.containers[0].env, addEnvs);
    var labels := AddMissingKeys(pod.labels, addLabels);
    mid := pod.(containers := pod.containers[0 := pod.containers[0].(env := env)], labels := labels);
  }

  method InjectAgent(cfg: PodConfig, deployment: string, pod: Pod) returns (r: Pod)
    requires pod.containers != []
    ensures AgentInjected(cfg, deployment, pod, r)
  {
    var envs := MakePodEnvs(cfg.matchLabels, pod.labels, cfg.nodes);
    var mid := ApplyRules(cfg, pod);
    var initContainers := AddPodInitContainer(cfg, deployment, mid);
    var containers := ModifyPodContainer(mid.containers, envs, cfg.agent.envs, deployment);
    r := mid.(initContainers := initContainers, containers := containers,
              volumes := AddPodVolume(mid.volumes, deployment));
    assert AgentInjectedVia(cfg, deployment, pod, mid, envs, r);
  }

  // ----- the sidecar path and the choice between the two -----

  function ToLower(s: string): string {
    if s == "" then ""
    else [if 'A' <= s[0] <= 'Z' then (s[0] as int + 32) as char else s[0]] + ToLower(s[1..])
  }

  /** The label is asked before the annotation. */
  predicate InjectIstioRequired(pod: Pod) {
    var selector := if SIDECAR_ENHANCE in pod.labels then pod.labels[SIDECAR_ENHANCE]
                    else Get(pod.annotations, SIDECAR_ENHANCE);
    ToLower(selector) in {"y", "yes", "true", "on"}
  }

  predicate TakesSidecarPath(pod: Pod) {
    || (ENHANCE_TYPE in pod.labels && pod.labels[ENHANCE_TYPE] == ENHANCE_SIDECAR)
    || (SIDECAR_ENHANCE in pod.labels && pod.labels[SIDECAR_ENHANCE] == "true")
  }

  predicate WantsSettings(cfg: PodConfig, pod: Pod) {
    cfg.enableSidecarSetting == "true" && InjectIstioRequired(pod) && SIDECAR_STATUS !in pod.annotations
  }

  /** The outcome of a create or update request; a DELETE is allowed without looking at the pod. */
  ghost predicate Outcome(cfg: PodConfig, pod: Pod, out: PodOutcome) {
    if pod.containers == [] then out == Unchanged
    else if cfg.deployment.None? then out == Denied
    else if TakesSidecarPath(pod) then
      var config := SidecarConfigFor(pod.labels, cfg.clusterId, cfg.deployment.value, cfg.reply);
      if !WantsSettings(cfg, pod) then out == Target(pod)
      else if config.None? then out == Unchanged
      else out.Target? && Configured(pod, config.value, out.pod)
    else out.Target? && AgentInjected(cfg, cfg.deployment.value, pod, out.pod)
  }

  method InjectionPod(cfg: PodConfig, pod: Pod) returns (out: PodOutcome)
    ensures Outcome(cfg, pod, out)
  {
    if pod.containers == [] {
      return Unchanged;
    }
    if cfg.deployment.None? {
      return Denied;
    }
    if TakesSidecarPath(pod) {
      if !WantsSettings(cfg, pod) {
        return Target(pod);
      }
      var config := GetSidecarConfig(pod.labels, cfg.clusterId, cfg.deployment.value, cfg.reply);
      if config.None? {
        return Unchanged;
      }
      var r := AddPodConfigs(pod, config.value);
      return Target(r);
    }
    var r := InjectAgent(cfg, cfg.deployment.value, pod);
    out := Target(r);
  }
}
