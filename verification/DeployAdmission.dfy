/** injectionDeploy around the mutation: the choice of configuration, the version label that is stamped before the
    deep copy, and the object the API server stores once the patch is applied. */
module DeployAdmission {
  import opened Prelude
  import opened ConfigLabels
  import opened AgentVersionProtocol
  import opened Workload
  import opened LabelUpdates
  import opened DeployMutation
  import opened DeployTheorems

  /** What one admission reads: the settings and the caches. */
  datatype Injector = Injector(deploy: DeployConfig, defaultMap: StringMap, versions: VersionCache,
                               maps: map<string, StringMap>)

  predicate Selected(cfg: DeployConfig, d: Deployment) {
    Lookup(d.labels, cfg.matchKey) == Some(cfg.matchValue)
  }

  // ----- the chosen configuration -----

  /** A template label wins over the deployment's, even when it is empty. */
  function RequestedVersion(d: Deployment): string {
    if AGENT_VERSION_LABEL in d.templateLabels then d.templateLabels[AGENT_VERSION_LABEL]
    else Get(d.labels, AGENT_VERSION_LABEL)
  }

  predicate Honoured(inj: Injector, d: Deployment) {
    RequestedVersion(d) != "" && Usable(inj.versions, inj.maps, RequestedVersion(d))
  }

  function ChosenData(inj: Injector, d: Deployment): StringMap {
    if Honoured(inj, d) then inj.maps[inj.versions[RequestedVersion(d)].configMapName] else inj.defaultMap
  }

  /** The template carries an honoured version before the copy that becomes the target is taken. */
  function Stamped(inj: Injector, d: Deployment): Deployment {
    if Honoured(inj, d) then d.(templateLabels := d.templateLabels[AGENT_VERSION_LABEL := RequestedVersion(d)]) else d
  }

  /** Whether a version is used for a deployment, from its labels, its template and the caches. */
  predicate UsesVersion(inj: Injector, d: Deployment, version: string) {
    && version == (if "x-live-version" in d.templateLabels then d.templateLabels["x-live-version"]
                   else Get(d.labels, "x-live-version"))
    && version != "" && version in inj.versions && inj.versions[version].enable
    && inj.versions[version].configMapName in inj.maps
  }

  /** The used version gives the data and the stamp; anything less than a used version means the default data and no
      stamp. */
  lemma VersionChoice(inj: Injector, d: Deployment)
    ensures forall version :: UsesVersion(inj, d, version) ==>
              && ChosenData(inj, d) == inj.maps[inj.versions[version].configMapName]
              && Stamped(inj, d) == d.(templateLabels := d.templateLabels["x-live-version" := version])
    ensures (forall version :: !UsesVersion(inj, d, version)) ==> ChosenData(inj, d) == inj.defaultMap && Stamped(inj, d) == d
    ensures Honoured(inj, d) <==> exists version :: UsesVersion(inj, d, version)
  {
    assert Honoured(inj, d) ==> UsesVersion(inj, d, RequestedVersion(d));
  }

  // ----- the stored object -----

  /** A key of the template labels is in the patch exactly when the two compared objects differ on it. */
  function PatchedLabels(raw: StringMap, from: StringMap, to: StringMap): (r: StringMap)
    ensures forall k :: SameAt(from, to, k) ==> SameAt(r, raw, k)
    ensures forall k :: !SameAt(from, to, k) ==> SameAt(r, to, k)
  {
    map k | k in raw.Keys + to.Keys && (if SameAt(from, to, k) then k in raw else k in to) ::
      if SameAt(from, to, k) then raw[k] else to[k]
  }

  function ApplyPatch(raw: Deployment, from: Deployment, to: Deployment): Deployment {
    raw.(templateLabels := PatchedLabels(raw.templateLabels, from.templateLabels, to.templateLabels),
         containers := if from.containers == to.containers then raw.containers else to.containers)
  }

  /** Some stored object of a successful admission of raw. */
  ghost predicate Admitted(inj: Injector, raw: Deployment, stored: Deployment) {
    && Selected(inj.deploy, raw)
    && exists t :: Mutated(inj.deploy, Stamped(inj, raw), t) && stored == ApplyPatch(raw, Stamped(inj, raw), t)
  }

  /** The label steps may only bring the version label when it is the webhook's own label. */
  lemma VersionLabelAfterMutation(cfg: DeployConfig, d: Deployment)
    ensures AGENT_VERSION_LABEL in d.templateLabels ==>
              SameAt(MutatedLabels(cfg, d), d.templateLabels, AGENT_VERSION_LABEL)
    ensures AGENT_VERSION_LABEL !in d.templateLabels && AGENT_VERSION_LABEL in MutatedLabels(cfg, d) ==>
              cfg.matchKey == AGENT_VERSION_LABEL && MutatedLabels(cfg, d)[AGENT_VERSION_LABEL] == cfg.matchValue
  {
    assert AGENT_VERSION_LABEL[0] == 'x';
    if cfg.matchKey == AGENT_VERSION_LABEL {
      WebhookLabelValue(cfg, d);
    } else {
      TemplateLabels(cfg, d, AGENT_VERSION_LABEL);
    }
  }

  /** A stamped version label is on both sides of the comparison, so the patch never carries it. */
  lemma StampIsNotInThePatch(inj: Injector, raw: Deployment, t: Deployment)
    requires Honoured(inj, raw) && Mutated(inj.deploy, Stamped(inj, raw), t)
    ensures SameAt(Stamped(inj, raw).templateLabels, t.templateLabels, AGENT_VERSION_LABEL)
    ensures SameAt(ApplyPatch(raw, Stamped(inj, raw), t).templateLabels, raw.templateLabels, AGENT_VERSION_LABEL)
  {
    VersionLabelAfterMutation(inj.deploy, Stamped(inj, raw));
  }

  // ----- admitting a stored object again -----

  /** The stored object asks for the same version as the object that was sent. */
  lemma RequestSurvivesAdmission(inj: Injector, raw: Deployment, stored: Deployment)
    requires Admitted(inj, raw, stored)
    ensures RequestedVersion(stored) == RequestedVersion(raw)
    ensures ChosenData(inj, stored) == ChosenData(inj, raw)
  {
    var t :| Mutated(inj.deploy, Stamped(inj, raw), t) && stored == ApplyPatch(raw, Stamped(inj, raw), t);
    VersionLabelAfterMutation(inj.deploy, Stamped(inj, raw));
  }

  /** Stamping the stored object gives back the very target of the first mutation. */
  lemma RestampGivesTarget(inj: Injector, raw: Deployment, t: Deployment)
    requires Selected(inj.deploy, raw) && Mutated(inj.deploy, Stamped(inj, raw), t)
    ensures Stamped(inj, ApplyPatch(raw, Stamped(inj, raw), t)) == t
  {
    var from := Stamped(inj, raw);
    var stored := ApplyPatch(raw, from, t);
    RequestSurvivesAdmission(inj, raw, stored);
    VersionLabelAfterMutation(inj.deploy, from);
    var again := Stamped(inj, stored);
    forall k ensures SameAt(again.templateLabels, t.templateLabels, k) {
      assert SameAt(from.templateLabels, t.templateLabels, k) ==> SameAt(stored.templateLabels, raw.templateLabels, k);
    }
    SameEverywhere(again.templateLabels, t.templateLabels);
  }

  /** Admission is idempotent, the patch and the dropped stamp included. */
  lemma AdmittingTwice(inj: Injector, raw: Deployment, stored: Deployment, again: Deployment)
    requires Admitted(inj, raw, stored) && Admitted(inj, stored, again)
    ensures again == stored
  {
    var t :| Mutated(inj.deploy, Stamped(inj, raw), t) && stored == ApplyPatch(raw, Stamped(inj, raw), t);
    RestampGivesTarget(inj, raw, t);
    var t' :| Mutated(inj.deploy, t, t') && again == ApplyPatch(stored, t, t');
    MutateTwice(inj.deploy, Stamped(inj, raw), t, t');
    SameEverywhere(again.templateLabels, stored.templateLabels);
  }
}
