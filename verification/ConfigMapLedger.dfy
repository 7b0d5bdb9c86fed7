/** injectionDeploy with its effect on the cluster: the ConfigMap calls of pkg/resource/resource.go, and what a
    sequence of admissions leaves in the ledger of per-deployment ConfigMaps. */
module ConfigMapLedger {
  import opened Prelude
  import opened ConfigLabels
  import opened Workload
  import opened ControlPlane
  import opened EnvMerge
  import opened DeployMutation
  import opened DeployTheorems
  import opened DeployAdmission

  /** An update replaces the data and keeps the rest of the object. */
  datatype ConfigMap = ConfigMap(data: StringMap, metadata: StringMap)

  type Key = (string, string)
  type ConfigMaps = map<Key, ConfigMap>

  /** Which API calls fail; a failed call has no effect. */
  datatype Faults = Faults(get: bool, write: bool)

  datatype Request =
    | OtherKind
    | Unreadable
    | Apply(deployment: Deployment, noTemplateLabels: bool, inj: Injector, faults: Faults)
    | Delete(name: string, namespace: string, fails: bool)

  datatype Response = Allowed | Denied | Crashed | Patch(original: Deployment, target: Deployment)

  datatype Deletion = Deleted | NotFound | Error

  // ----- specification of one request -----

  function LedgerKey(name: string, namespace: string): Key {
    (namespace, ConfigVolumeName(name))
  }

  function Put(maps: ConfigMaps, key: Key, data: StringMap): ConfigMaps {
    maps[key := if key in maps then maps[key].(data := data) else ConfigMap(data, map[])]
  }

  /** Stamping a template without a label map crashes before any call is made. */
  predicate CrashesOnStamp(r: Request)
    requires r.Apply?
  {
    r.noTemplateLabels && Honoured(r.inj, r.deployment)
  }

  /** The requests that write the ConfigMap of their deployment, admitted or not. */
  predicate Writes(r: Request) {
    r.Apply? && Selected(r.inj.deploy, r.deployment) && !CrashesOnStamp(r) && !r.faults.get && !r.faults.write
  }

  function Effect(maps: ConfigMaps, r: Request): ConfigMaps {
    if Writes(r) then Put(maps, LedgerKey(r.deployment.name, r.deployment.namespace), ChosenData(r.inj, r.deployment))
    else if r.Delete? && !r.fails then maps - {LedgerKey(r.name, r.namespace)}
    else maps
  }

  ghost predicate Answers(r: Request, out: Response) {
    match r
    case OtherKind => out == Allowed
    case Unreadable => out == Denied
    case Delete(_, _, fails) => out == if fails then Denied else Allowed
    case Apply(d, _, inj, faults) =>
      if !Selected(inj.deploy, d) then out == Allowed
      else if CrashesOnStamp(r) then out == Response.Crashed
      else if faults.get || faults.write then out == Denied
      else MutationAnswer(inj.deploy, Stamped(inj, d), out)
  }

  ghost predicate MutationAnswer(cfg: DeployConfig, d: Deployment, out: Response) {
    match out
    case Denied => MutationResult(cfg, d, Mutation.Failed)
    case Crashed => MutationResult(cfg, d, Mutation.Crashed)
    case Allowed => MutationResult(cfg, d, Done(d, false))
    case Patch(original, target) => original == d && MutationResult(cfg, d, Done(target, true))
  }

  function StoredObject(raw: Deployment, out: Response): Deployment {
    if out.Patch? then ApplyPatch(raw, out.original, out.target) else raw
  }

  /** Whether a patch is sent or skipped, the stored object is the mutated one: skipping loses nothing. */
  lemma AllowedIsAdmitted(r: Request, out: Response)
    requires r.Apply? && Answers(r, out) && Selected(r.inj.deploy, r.deployment) && (out.Allowed? || out.Patch?)
    ensures Admitted(r.inj, r.deployment, StoredObject(r.deployment, out))
  {
    var from := Stamped(r.inj, r.deployment);
    var t := if out.Patch? then out.target else from;
    assert Mutated(r.inj.deploy, from, t);
    var stored := ApplyPatch(r.deployment, from, t);
    if out.Allowed? {
      SameEverywhere(stored.templateLabels, r.deployment.templateLabels);
    }
  }

  /** An allowed deployment is allowed again for the same settings, caches and reply, with nothing more to store. */
  lemma AllowedAgain(r: Request, out: Response, r': Request, out': Response)
    requires r.Apply? && Answers(r, out) && Selected(r.inj.deploy, r.deployment) && (out.Allowed? || out.Patch?)
    requires r' == r.(deployment := StoredObject(r.deployment, out), noTemplateLabels := false, faults := Faults(false, false))
    requires Answers(r', out')
    ensures (out'.Allowed? || out'.Patch?) && StoredObject(r'.deployment, out') == r'.deployment
  {
    AllowedIsAdmitted(r, out);
    var from := Stamped(r.inj, r.deployment);
    var t := if out.Patch? then out.target else from;
    var stored := ApplyPatch(r.deployment, from, t);
    if out.Allowed? {
      SameEverywhere(stored.templateLabels, r.deployment.templateLabels);
    }
    RestampGivesTarget(r.inj, r.deployment, t);
    AllowedIsAdmitted(r', out');
    AdmittingTwice(r.inj, r.deployment, r'.deployment, StoredObject(r'.deployment, out'));
  }

  // ----- the routines -----

  class Cluster {
    var configMaps: ConfigMaps

    method CreateOrUpdateConfigMap(key: Key, data: StringMap, faults: Faults) returns (ok: bool)
      modifies this
      ensures ok <==> !faults.get && !faults.write
      ensures configMaps == if ok then Put(old(configMaps), key, data) else old(configMaps)
    {
      if faults.get {
        return false;
      }
      if key !in configMaps {
        if faults.write {
          return false;
        }
        configMaps := configMaps[key := ConfigMap(data, map[])];
      } else {
        var cm := configMaps[key];
        if faults.write {
          return false;
        }
        configMaps := configMaps[key := cm.(data := data)];
      }
      ok := true;
    }

    method DeleteConfigMap(key: Key, fails: bool) returns (r: Deletion)
      modifies this
      ensures r == if fails then Error else if key in old(configMaps) then Deleted else NotFound
      ensures configMaps == if fails then old(configMaps) else old(configMaps) - {key}
    {
      if fails {
        return Error;
      }
      if key !in configMaps {
        return NotFound;
      }
      configMaps := configMaps - {key};
      r := Deleted;
    }

    /** deleteConfigMap: a missing ConfigMap is no error. */
    method DeleteForDeployment(name: string, namespace: string, fails: bool) returns (ok: bool)
      modifies this
      ensures ok <==> !fails
      ensures configMaps == if fails then old(configMaps) else old(configMaps) - {LedgerKey(name, namespace)}
    {
      var r := DeleteConfigMap(LedgerKey(name, namespace), fails);
      ok := r.Deleted? || r.NotFound?;
    }

    /** createOrUpdateConfigMap: None for the crash, otherwise the stamped deployment and whether the calls worked. */
    method WriteForDeployment(r: Request) returns (out: Option<(Deployment, bool)>)
      requires r.Apply?
      modifies this
      ensures if CrashesOnStamp(r) then out.None? && configMaps == old(configMaps)
              else out == Some((Stamped(r.inj, r.deployment), !r.faults.get && !r.faults.write))
      ensures out.Some? ==>
        configMaps ==
          if out.value.1
          then Put(old(configMaps), LedgerKey(r.deployment.name, r.deployment.namespace), ChosenData(r.inj, r.deployment))
          else old(configMaps)
    {
      var deploy, inj, data := r.deployment, r.inj, r.inj.defaultMap;
      var version := Get(deploy.labels, AGENT_VERSION_LABEL);
      if AGENT_VERSION_LABEL in deploy.templateLabels {
        version := deploy.templateLabels[AGENT_VERSION_LABEL];
      }
      if version != "" && version in inj.versions {
        var av := inj.versions[version];
        if av.enable && av.configMapName in inj.maps {
          data := inj.maps[av.configMapName];
          if r.noTemplateLabels {
            return None;
          }
          deploy := deploy.(templateLabels := deploy.templateLabels[AGENT_VERSION_LABEL := version]);
        }
      }
      var ok := CreateOrUpdateConfigMap(LedgerKey(deploy.name, deploy.namespace), data, r.faults);
      out := Some((deploy, ok));
    }

    method InjectionDeploy(r: Request) returns (out: Response)
      modifies this
      ensures configMaps == Effect(old(configMaps), r)
      ensures Answers(r, out)
    {
      match r
      case OtherKind =>
        out := Allowed;
      case Unreadable =>
        out := Denied;
      case Delete(name, namespace, fails) =>
        var ok := DeleteForDeployment(name, namespace, fails);
        out := if ok then Allowed else Denied;
      case Apply(d, _, inj, _) =>
        if inj.deploy.matchKey !in d.labels || d.labels[inj.deploy.matchKey] != inj.deploy.matchValue {
          return Allowed;
        }
        var written := WriteForDeployment(r);
        if written.None? {
          return Response.Crashed;
        }
        if !written.value.1 {
          return Denied;
        }
        var m := Mutate(inj.deploy, written.value.0);
        out := Answer(written.value.0, m);
    }
  }

  function Answer(d: Deployment, m: Mutation): Response {
    match m
    case Failed => Denied
    case Crashed => Response.Crashed
    case Done(target, added) => if added then Patch(d, target) else Allowed
  }

  // ----- the ledger over any sequence of requests -----

  function Run(maps: ConfigMaps, requests: seq<Request>): ConfigMaps {
    if requests == [] then maps
    else Effect(Run(maps, requests[..|requests| - 1]), requests[|requests| - 1])
  }

  /** A request that decides the ConfigMap of this deployment. */
  predicate Decides(r: Request, name: string, namespace: string) {
    || (Writes(r) && r.deployment.name == name && r.deployment.namespace == namespace)
    || (r.Delete? && !r.fails && r.name == name && r.namespace == namespace)
  }

  function LastDeciding(requests: seq<Request>, name: string, namespace: string): (r: Option<Request>)
    ensures r.None? ==> forall i :: 0 <= i < |requests| ==> !Decides(requests[i], name, namespace)
    ensures r.Some? ==> Decides(r.value, name, namespace) && exists i ::
      0 <= i < |requests| && requests[i] == r.value
      && forall j :: i < j < |requests| ==> !Decides(requests[j], name, namespace)
  {
    if requests == [] then None
    else
      var n := |requests| - 1;
      if Decides(requests[n], name, namespace) then
        assert requests[n] == requests[n];
        Some(requests[n])
      else LastDeciding(requests[..n], name, namespace)
  }

  lemma NamesAreInjective(name: string, namespace: string, name': string, namespace': string)
    requires LedgerKey(name, namespace) == LedgerKey(name', namespace')
    ensures name == name' && namespace == namespace'
  {
    var suffix := "-live-configmap";
    assert (name + suffix)[..|name|] == name;
    assert (name' + suffix)[..|name'|] == name';
  }

  /** The ConfigMap of a deployment is decided by the last deciding request for that very deployment. */
  lemma {:induction false} LedgerFollowsLastDecision(maps: ConfigMaps, requests: seq<Request>, name: string, namespace: string)
    ensures var key, after := LedgerKey(name, namespace), Run(maps, requests);
      match LastDeciding(requests, name, namespace)
      case None => (key in after <==> key in maps) && (key in maps ==> after[key] == maps[key])
      case Some(r) => (key in after <==> r.Apply?) && (r.Apply? ==> after[key].data == ChosenData(r.inj, r.deployment))
  {
    if requests != [] {
      var n := |requests| - 1;
      LedgerFollowsLastDecision(maps, requests[..n], name, namespace);
      if !Decides(requests[n], name, namespace) {
        OthersDoNotTouch(requests[n], name, namespace);
        OnlyItsOwnKey(Run(maps, requests[..n]), requests[n], LedgerKey(name, namespace));
      }
    }
  }

  /** Labels, annotations and the like stay with a ConfigMap that is updated, until it is deleted. */
  lemma {:induction false} MetadataStays(maps: ConfigMaps, requests: seq<Request>, key: Key)
    requires key in maps
    requires forall i :: 0 <= i < |requests| && requests[i].Delete? ==> LedgerKey(requests[i].name, requests[i].namespace) != key
    ensures key in Run(maps, requests) && Run(maps, requests)[key].metadata == maps[key].metadata
  {
    if requests != [] {
      MetadataStays(maps, requests[..|requests| - 1], key);
    }
  }

  /** The only entry a request can change. */
  function Touched(r: Request): Option<Key> {
    if Writes(r) then Some(LedgerKey(r.deployment.name, r.deployment.namespace))
    else if r.Delete? && !r.fails then Some(LedgerKey(r.name, r.namespace))
    else None
  }

  lemma OnlyItsOwnKey(maps: ConfigMaps, r: Request, key: Key)
    requires Touched(r) != Some(key)
    ensures (key in Effect(maps, r) <==> key in maps) && (key in maps ==> Effect(maps, r)[key] == maps[key])
  {
  }

  lemma OthersDoNotTouch(r: Request, name: string, namespace: string)
    requires !Decides(r, name, namespace)
    ensures Touched(r) != Some(LedgerKey(name, namespace))
  {
    if Touched(r) == Some(LedgerKey(name, namespace)) {
      if Writes(r) {
        NamesAreInjective(name, namespace, r.deployment.name, r.deployment.namespace);
      } else {
        NamesAreInjective(name, namespace, r.name, r.namespace);
      }
    }
  }

  /** ConfigMaps that are no deployment's own are never touched. */
  lemma {:induction false} ForeignConfigMapsStay(maps: ConfigMaps, requests: seq<Request>, key: Key)
    requires forall name: string :: key.1 != ConfigVolumeName(name)
    ensures (key in Run(maps, requests) <==> key in maps) && (key in maps ==> Run(maps, requests)[key] == maps[key])
  {
    if requests != [] {
      var n := |requests| - 1;
      ForeignConfigMapsStay(maps, requests[..n], key);
      OnlyItsOwnKey(Run(maps, requests[..n]), requests[n], key);
    }
  }

  // ----- requests by what they carry -----

  /** A request writes exactly when its deployment carries the webhook's label and value, both calls work, and it
      need not stamp a template that has no label map. */
  lemma WritesIff(r: Request)
    requires r.Apply?
    ensures var inj, d := r.inj, r.deployment;
      Writes(r) <==>
        && inj.deploy.matchKey in d.labels && d.labels[inj.deploy.matchKey] == inj.deploy.matchValue
        && !(r.noTemplateLabels && exists version :: UsesVersion(inj, d, version))
        && !r.faults.get && !r.faults.write
  {
    VersionChoice(r.inj, r.deployment);
  }

  /** After any requests, the ConfigMap of a deployment that was created or updated last holds the data of the version
      it asked for if that version is used, and the default data otherwise. */
  lemma LedgerHoldsTheChosenVersion(maps: ConfigMaps, requests: seq<Request>, r: Request)
    requires r.Apply? && LastDeciding(requests, r.deployment.name, r.deployment.namespace) == Some(r)
    ensures var key, after := (r.deployment.namespace, r.deployment.name + "-live-configmap"), Run(maps, requests);
      && key in after
      && (forall version :: UsesVersion(r.inj, r.deployment, version) ==>
            after[key].data == r.inj.maps[r.inj.versions[version].configMapName])
      && ((forall version :: !UsesVersion(r.inj, r.deployment, version)) ==> after[key].data == r.inj.defaultMap)
  {
    LedgerFollowsLastDecision(maps, requests, r.deployment.name, r.deployment.namespace);
    VersionChoice(r.inj, r.deployment);
  }

  /** When an admission is denied or crashes. A deployment without the webhook's label is always allowed. Otherwise a
      stamp on a missing label map crashes, a failing call denies, a control plane that was asked and refuses denies,
      and a deployment without containers that wants env vars crashes, in this order. */
  lemma AnswerOf(r: Request, out: Response, space: string, application: string)
    requires r.Apply? && Answers(r, out) && AskedAbout(r.deployment.labels, space, application)
    ensures var d, cfg := r.deployment, r.inj.deploy;
      var wanted := cfg.controlPlaneUrl != "" && Lookup(d.labels, ENHANCE_TYPE) == Some("agent");
      if !(cfg.matchKey in d.labels && d.labels[cfg.matchKey] == cfg.matchValue) then out == Allowed
      else if r.noTemplateLabels && (exists version :: UsesVersion(r.inj, d, version)) then out == Response.Crashed
      else if r.faults.get || r.faults.write then out == Denied
      else if wanted && cfg.reply.Refused? && space != "" && application != "" then out == Denied
      else if wanted && d.containers == [] then out == Response.Crashed
      else out.Allowed? || out.Patch?
  {
    VersionChoice(r.inj, r.deployment);
    var from := Stamped(r.inj, r.deployment);
    var m := match out
      case Denied => Mutation.Failed
      case Crashed => Mutation.Crashed
      case Allowed => Done(from, false)
      case Patch(_, target) => Done(target, true);
    if MutationResult(r.inj.deploy, from, m) {
      MutationStopsIff(r.inj.deploy, from, m, space, application);
    }
  }

  /** The other requests: kinds the webhook does not handle are allowed, unreadable objects are denied, and a delete is
      denied exactly when its call fails. */
  lemma AnswerOfOthers(r: Request, out: Response)
    requires !r.Apply? && Answers(r, out)
    ensures out == if r.Unreadable? || (r.Delete? && r.fails) then Denied else Allowed
  {
  }

  /** A patch is sent exactly when the deployment is a sidecar's, its template labels change, an env var of the control
      plane is missing, or CONFIG_CENTER_ENABLED has to go. */
  lemma PatchSentIff(r: Request, out: Response)
    requires r.Apply? && Answers(r, out) && (out.Allowed? || out.Patch?)
    requires Lookup(r.deployment.labels, r.inj.deploy.matchKey) == Some(r.inj.deploy.matchValue)
    ensures var d, cfg := r.deployment, r.inj.deploy;
      var envs := ApplicationEnvs(d.labels, cfg.filter, cfg.reply);
      out.Patch? <==>
        || Lookup(d.labels, ENHANCE_TYPE) == Some("sidecar")
        || StoredObject(d, out).templateLabels != d.templateLabels
        || (&& cfg.controlPlaneUrl != "" && Lookup(d.labels, ENHANCE_TYPE) == Some("agent")
            && envs.Some? && d.containers != []
            && (|| (exists k :: k in envs.value && !HasEnv(d.containers[0].env, k))
                || (CONFIGURE_TYPE !in d.labels && HasEnv(d.containers[0].env, "CONFIG_CENTER_ENABLED"))))
  {
    var from := Stamped(r.inj, r.deployment);
    if out.Patch? {
      assert from.labels == r.deployment.labels && from.containers == r.deployment.containers;
      PatchedLabelsDiffer(r.inj, r.deployment, out.target);
    }
  }

  /** Label changes of the mutation are label changes of the stored object; the stamp is none. */
  lemma PatchedLabelsDiffer(inj: Injector, raw: Deployment, t: Deployment)
    requires Mutated(inj.deploy, Stamped(inj, raw), t)
    ensures ApplyPatch(raw, Stamped(inj, raw), t).templateLabels == raw.templateLabels <==>
            t.templateLabels == Stamped(inj, raw).templateLabels
  {
    var from := Stamped(inj, raw);
    var stored := ApplyPatch(raw, from, t);
    VersionLabelAfterMutation(inj.deploy, from);
    if t.templateLabels == from.templateLabels {
      SameEverywhere(stored.templateLabels, raw.templateLabels);
    } else if stored.templateLabels == raw.templateLabels {
      forall k ensures SameAt(t.templateLabels, from.templateLabels, k) {
        assert !SameAt(from.templateLabels, t.templateLabels, k) ==> SameAt(stored.templateLabels, t.templateLabels, k);
      }
      SameEverywhere(t.templateLabels, from.templateLabels);
    }
  }
}
