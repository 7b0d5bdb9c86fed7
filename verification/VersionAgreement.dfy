/** The two admissions agree: the deployment's ConfigMap holds the configuration of the version whose image the
    pod gets. */
module VersionAgreement {
  import opened Prelude
  import opened ConfigLabels
  import opened AgentVersionProtocol
  import opened RuleMatching
  import opened Workload
  import opened EnvMerge
  import opened DeployMutation
  import opened DeployAdmission
  import opened ConfigMapLedger
  import opened PodInjection
  import opened PodTheorems
  import opened PodWalks
  import opened InitContainers
  import opened AgentFiles
  import opened InjectorConfig

  /** The usable version the deployment's ConfigMap is taken from; None stands for the defaults. */
  function DeploymentPick(inj: Injector, d: Deployment): Option<string> {
    if Honoured(inj, d) then Some(RequestedVersion(d)) else None
  }

  /** The usable version the pod's image is taken from. */
  function PodPick(cfg: PodConfig, labels: StringMap): Option<string> {
    if AGENT_VERSION_LABEL in labels && Usable(cfg.versions, cfg.maps, labels[AGENT_VERSION_LABEL])
    then Some(labels[AGENT_VERSION_LABEL]) else None
  }

  function DataOf(inj: Injector, pick: Option<string>): StringMap
    requires pick.Some? ==> Usable(inj.versions, inj.maps, pick.value)
  {
    if pick.Some? then inj.maps[inj.versions[pick.value].configMapName] else inj.defaultMap
  }

  function TagOf(cfg: PodConfig, pick: Option<string>): string {
    if pick.Some? then pick.value else cfg.agent.version
  }

  predicate SameCaches(inj: Injector, cfg: PodConfig) {
    inj.versions == cfg.versions && inj.maps == cfg.maps
  }

  ghost predicate ReachableCache(cache: VersionCache) {
    exists s: System, actions :: Initial(s) && AgentVersionProtocol.Runs(s, actions) && Exec(s, actions).cache == cache
  }

  lemma ReachableCachesAreFiled(cache: VersionCache)
    requires ReachableCache(cache)
    ensures FiledUnderOwnVersion(cache)
  {
    var s: System, actions :| Initial(s) && AgentVersionProtocol.Runs(s, actions) && Exec(s, actions).cache == cache;
    EveryRunFilesUnderOwnVersion(s, actions);
  }

  /** A pod made from the stored template, before its own admission. */
  predicate FromTemplate(pod: Pod, stored: Deployment) {
    forall k :: k in stored.templateLabels ==> k in pod.labels && pod.labels[k] == stored.templateLabels[k]
  }

  /** A template that carries a non-empty version label: image and configuration are of that version, or both are
      the defaults, whatever the rules add. */
  lemma LabelledTemplatesAgree(inj: Injector, cfg: PodConfig, raw: Deployment, stored: Deployment, pod: Pod, r: Pod)
    requires SameCaches(inj, cfg) && FiledUnderOwnVersion(cfg.versions)
    requires Admitted(inj, raw, stored) && FromTemplate(pod, stored)
    requires AGENT_VERSION_LABEL in raw.templateLabels && raw.templateLabels[AGENT_VERSION_LABEL] != ""
    requires AgentInjected(cfg, raw.name, pod, r) && !HasContainer(pod.initContainers, cfg.initContainerName)
    ensures |r.initContainers| == |pod.initContainers| + 1
    ensures var w, c := raw.templateLabels[AGENT_VERSION_LABEL], r.initContainers[|pod.initContainers|];
      if Usable(inj.versions, inj.maps, w)
      then c.image == cfg.agent.image + ":" + w && ChosenData(inj, raw) == inj.maps[inj.versions[w].configMapName]
      else c.image == cfg.agent.image + ":" + cfg.agent.version && ChosenData(inj, raw) == inj.defaultMap
  {
    StoredLabelIsTheSentOne(inj, raw, stored);
    LabelsAfter(cfg, raw.name, pod, r, AGENT_VERSION_LABEL);
    ImageTag(cfg, raw.name, pod, r, PickedVersion(cfg, r.labels));
  }

  // ----- any template -----

  /** The deployment picks what a pod with version label v picks. */
  predicate PicksAs(inj: Injector, raw: Deployment, v: string) {
    if Usable(inj.versions, inj.maps, v) then Honoured(inj, raw) && RequestedVersion(raw) == v else !Honoured(inj, raw)
  }

  /** An empty template label must not name a usable version. */
  predicate LabelledTemplateAgrees(inj: Injector, stored: Deployment) {
    Get(stored.templateLabels, AGENT_VERSION_LABEL) != "" || !Usable(inj.versions, inj.maps, "")
  }

  /** Exactly when the picks agree, for a pod whose version label is the stored template's. Without that label the
      injected pod may get one from a rule; and a version asked for by the deployment's own labels never reaches it,
      because its stamp is not in the stored template. */
  lemma AgreementIff(inj: Injector, cfg: PodConfig, raw: Deployment, stored: Deployment, pod: Pod, r: Pod)
    requires SameCaches(inj, cfg) && Admitted(inj, raw, stored)
    requires SameAt(pod.labels, stored.templateLabels, AGENT_VERSION_LABEL)
    requires AgentInjected(cfg, raw.name, pod, r)
    ensures PodPick(cfg, r.labels) == DeploymentPick(inj, raw) <==>
            if AGENT_VERSION_LABEL in stored.templateLabels then LabelledTemplateAgrees(inj, stored)
            else if AGENT_VERSION_LABEL in r.labels then PicksAs(inj, raw, r.labels[AGENT_VERSION_LABEL])
            else !Honoured(inj, raw)
  {
    RequestSurvivesAdmission(inj, raw, stored);
    LabelsAfter(cfg, raw.name, pod, r, AGENT_VERSION_LABEL);
  }

  /** What the admissions are given decides whether they agree in every walk over the rules: where the template has no
      version label, each value that a matching rule gives the label must be what the deployment picks. */
  ghost predicate AgreesInEveryWalk(inj: Injector, cfg: PodConfig, raw: Deployment, stored: Deployment, labels: StringMap) {
    if AGENT_VERSION_LABEL in stored.templateLabels then LabelledTemplateAgrees(inj, stored)
    else if SomeRuleSets(cfg.rules, labels, Labels, AGENT_VERSION_LABEL) then
      forall v :: IsRuleLabel(cfg.rules, labels, AGENT_VERSION_LABEL, v) ==> PicksAs(inj, raw, v)
    else !Honoured(inj, raw)
  }

  ghost predicate Agrees(inj: Injector, cfg: PodConfig, raw: Deployment, pod: Pod, r: Pod) {
    AgentInjected(cfg, raw.name, pod, r) ==> PodPick(cfg, r.labels) == DeploymentPick(inj, raw)
  }

  lemma EveryWalkAgreesIff(inj: Injector, cfg: PodConfig, raw: Deployment, stored: Deployment, pod: Pod)
    requires SameCaches(inj, cfg) && Admitted(inj, raw, stored) && pod.containers != []
    requires SameAt(pod.labels, stored.templateLabels, AGENT_VERSION_LABEL)
    ensures (forall r :: Agrees(inj, cfg, raw, pod, r)) <==> AgreesInEveryWalk(inj, cfg, raw, stored, pod.labels)
  {
    if AgreesInEveryWalk(inj, cfg, raw, stored, pod.labels) {
      forall r | AgentInjected(cfg, raw.name, pod, r) ensures Agrees(inj, cfg, raw, pod, r) {
        AgreementIff(inj, cfg, raw, stored, pod, r);
        LabelsAfter(cfg, raw.name, pod, r, AGENT_VERSION_LABEL);
      }
    } else {
      var r := DisagreeingWalk(inj, cfg, raw, stored, pod);
    }
  }

  /** Where the condition fails, some walk over the rules ends in disagreement. */
  lemma DisagreeingWalk(inj: Injector, cfg: PodConfig, raw: Deployment, stored: Deployment, pod: Pod) returns (r: Pod)
    requires SameCaches(inj, cfg) && Admitted(inj, raw, stored) && pod.containers != []
    requires SameAt(pod.labels, stored.templateLabels, AGENT_VERSION_LABEL)
    requires !AgreesInEveryWalk(inj, cfg, raw, stored, pod.labels)
    ensures !Agrees(inj, cfg, raw, pod, r)
  {
    if AGENT_VERSION_LABEL !in pod.labels && SomeRuleSets(cfg.rules, pod.labels, Labels, AGENT_VERSION_LABEL) {
      var v :| IsRuleLabel(cfg.rules, pod.labels, AGENT_VERSION_LABEL, v) && !PicksAs(inj, raw, v);
      r := WalkWithLabel(cfg, raw.name, pod, AGENT_VERSION_LABEL, v);
    } else {
      var order := SomeOrder(cfg.rules.Keys);
      r := SomeInjection(cfg, raw.name, pod, order);
      LabelsAfter(cfg, raw.name, pod, r, AGENT_VERSION_LABEL);
    }
    AgreementIff(inj, cfg, raw, stored, pod, r);
  }

  /** The label is the stored template's exactly as sent, unless it was missing and is the webhook's own. */
  lemma StoredLabelIsTheSentOne(inj: Injector, raw: Deployment, stored: Deployment)
    requires Admitted(inj, raw, stored)
    requires AGENT_VERSION_LABEL in raw.templateLabels || inj.deploy.matchKey != AGENT_VERSION_LABEL
    ensures SameAt(stored.templateLabels, raw.templateLabels, AGENT_VERSION_LABEL)
  {
    var t :| Mutated(inj.deploy, Stamped(inj, raw), t) && stored == ApplyPatch(raw, Stamped(inj, raw), t);
    VersionLabelAfterMutation(inj.deploy, Stamped(inj, raw));
  }

  // ----- how they come to disagree -----

  const PLAIN_SETTINGS := DeployConfig("x-live-enabled", "true", "", "", ControlPlane.Unreachable)

  function Example(version: string, labels: StringMap, templateLabels: StringMap): (Injector, Deployment) {
    ( Injector(PLAIN_SETTINGS, map["agent.properties" := "default"],
               map[version := AgentVersionSpec(version, "cm", true)], map["cm" := map["agent.properties" := "special"]]),
      Deployment("app", "ns", labels["x-live-enabled" := "true"], templateLabels, []) )
  }

  lemma ExampleIsAdmitted(version: string, labels: StringMap, templateLabels: StringMap) returns (stored: Deployment)
    ensures var (inj, raw) := Example(version, labels, templateLabels); Admitted(inj, raw, stored)
    ensures SameAt(stored.templateLabels, templateLabels, AGENT_VERSION_LABEL)
  {
    var (inj, raw) := Example(version, labels, templateLabels);
    var from := Stamped(inj, raw);
    assert PLAIN_SETTINGS.controlPlaneUrl == "" && raw.labels["x-live-enabled"] == "true";
    var t := from.(templateLabels := MutatedLabels(inj.deploy, from));
    assert Mutated(inj.deploy, from, t);
    stored := ApplyPatch(raw, from, t);
    StoredLabelIsTheSentOne(inj, raw, stored);
  }

  /** The version is asked for on the deployment only: its ConfigMap is the special one, its pods get the default. */
  lemma StampIsLost() returns (stored: Deployment)
    ensures var (inj, raw) := Example("1.1", map[AGENT_VERSION_LABEL := "1.1"], map[]);
      && Admitted(inj, raw, stored) && DeploymentPick(inj, raw) == Some("1.1")
      && ChosenData(inj, raw) != inj.defaultMap
      && forall cfg: PodConfig :: SameCaches(inj, cfg) ==> PodPick(cfg, stored.templateLabels) == None
  {
    var (inj, raw) := Example("1.1", map[AGENT_VERSION_LABEL := "1.1"], map[]);
    stored := ExampleIsAdmitted("1.1", map[AGENT_VERSION_LABEL := "1.1"], map[]);
    assert map["agent.properties" := "special"]["agent.properties"][0] == 's';
    assert inj.defaultMap["agent.properties"][0] == 'd';
  }

  /** An empty template label with a usable empty version: the pod takes that version, the ConfigMap the default. */
  lemma EmptyLabelMixes() returns (stored: Deployment)
    ensures var (inj, raw) := Example("", map[], map[AGENT_VERSION_LABEL := ""]);
      && Admitted(inj, raw, stored) && DeploymentPick(inj, raw) == None
      && forall cfg: PodConfig :: SameCaches(inj, cfg) ==> PodPick(cfg, stored.templateLabels) == Some("")
  {
    stored := ExampleIsAdmitted("", map[], map[AGENT_VERSION_LABEL := ""]);
  }

  function WithRule(inj: Injector, rule: InjectorRule): PodConfig {
    PodConfig("joylive-init", "", "", "", AgentConfig("agent", "1.0", map[]), map["rule" := rule], inj.versions, inj.maps,
              None, Some("app"), SidecarSettings.Unreachable)
  }

  /** Nobody asks for a version, but a rule labels the pod with one: special image, default ConfigMap. */
  lemma RuleAddsTheVersion() returns (stored: Deployment, pod: Pod, r: Pod)
    ensures var (inj, raw) := Example("1.1", map[], map[]);
      var cfg := WithRule(inj, InjectorRule(map[], map[], map[AGENT_VERSION_LABEL := "1.1"]));
      && Admitted(inj, raw, stored) && FromTemplate(pod, stored) && AgentInjected(cfg, raw.name, pod, r)
      && ChosenData(inj, raw) == inj.defaultMap
      && |r.initContainers| == 1 && r.initContainers[0].image == "agent:1.1"
  {
    var (inj, raw) := Example("1.1", map[], map[]);
    stored := ExampleIsAdmitted("1.1", map[], map[]);
    var rule := InjectorRule(map[], map[], map[AGENT_VERSION_LABEL := "1.1"]);
    var cfg := WithRule(inj, rule);
    pod := Pod(stored.templateLabels, map[], [], [Container("app", "app", [], [])], []);
    assert Sets(cfg.rules, pod.labels, Labels, "rule", AGENT_VERSION_LABEL);
    r := WalkWithLabel(cfg, raw.name, pod, AGENT_VERSION_LABEL, "1.1");
    ImageTag(cfg, raw.name, pod, r, PickedVersion(cfg, r.labels));
    assert "agent" + ":" + "1.1" == "agent:1.1";
  }

  // ----- with the ledger -----

  /** After any run of admissions whose last decision for the deployment admitted such a template, the injected pod
      mounts a ConfigMap that exists and holds the configuration of its image version, or both are the defaults. */
  lemma InjectedPodsReadTheirVersion(maps: ConfigMaps, requests: seq<Request>, last: Request, stored: Deployment,
                                     cfg: PodConfig, pod: Pod, r: Pod)
    requires last.Apply? && LastDeciding(requests, last.deployment.name, last.deployment.namespace) == Some(last)
    requires SameCaches(last.inj, cfg) && ReachableCache(cfg.versions)
    requires Admitted(last.inj, last.deployment, stored) && FromTemplate(pod, stored)
    requires AGENT_VERSION_LABEL in last.deployment.templateLabels
    requires last.deployment.templateLabels[AGENT_VERSION_LABEL] != ""
    requires AgentInjected(cfg, last.deployment.name, pod, r)
    requires !HasContainer(pod.initContainers, cfg.initContainerName) && !HasVolume(pod.volumes, AGENT_VOLUME_NAME)
    ensures |r.initContainers| == |pod.initContainers| + 1 && r.volumes != []
    ensures var config, c := r.volumes[|r.volumes| - 1].source, r.initContainers[|pod.initContainers|];
      && config.FromConfigMap?
      && var key := (last.deployment.namespace, config.configMap);
         && key in Run(maps, requests)
         && var w := last.deployment.templateLabels[AGENT_VERSION_LABEL];
            var pick := if Usable(cfg.versions, cfg.maps, w) then Some(w) else None;
            c.image == cfg.agent.image + ":" + TagOf(cfg, pick) && Run(maps, requests)[key].data == DataOf(last.inj, pick)
  {
    ReachableCachesAreFiled(cfg.versions);
    LabelledTemplatesAgree(last.inj, cfg, last.deployment, stored, pod, r);
    LedgerFollowsLastDecision(maps, requests, last.deployment.name, last.deployment.namespace);
    AgentVolumes(cfg, last.deployment.name, pod, r);
    var w := last.deployment.templateLabels[AGENT_VERSION_LABEL];
    var pick := if Usable(cfg.versions, cfg.maps, w) then Some(w) else None;
    assert DataOf(last.inj, pick) == ChosenData(last.inj, last.deployment);
  }
}
