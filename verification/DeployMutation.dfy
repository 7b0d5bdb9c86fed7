/** The in-place mutation of a deployment: pkg/mutation/mutation_deploy.go and the label appender of pkg/apm/sgm.go. */
module DeployMutation {
  import opened Prelude
  import opened ConfigLabels
  import opened Workload
  import opened EnvAppend
  import opened ControlPlane
  import opened LabelUpdates

  const SGM_APP := "sgm.jd.com/app"
  const SGM_GROUP := "sgm.jd.com/group"
  const SGM_PROBE := "sgm.jd.com/probe-inject"
  const SGM_SINK := "sgm.jd.com/sink"
  const SGM_TENANT := "sgm.jd.com/tenant"

  datatype DeployConfig = DeployConfig(matchKey: string, matchValue: string, controlPlaneUrl: string,
                                       filter: string, reply: EnvReply)

  // ----- template labels -----

  function Mirror(labels: StringMap, k: string): Pair {
    (k, Get(labels, k))
  }

  function SidecarPairs(labels: StringMap): seq<Pair> {
    [(SIDECAR_ENHANCE, "true"), Mirror(labels, APPLICATION), Mirror(labels, SERVICE_NAME),
     Mirror(labels, SERVICE_GROUP), Mirror(labels, JDAP_SERVICE_SPACE)]
  }

  function SwimLane(labels: StringMap): Pair {
    (SWIM_LANE, if SWIM_LANE in labels then labels[SWIM_LANE] else BASE_SWIMLANE_CODE)
  }

  function WebhookPair(cfg: DeployConfig): Pair {
    (cfg.matchKey, cfg.matchValue)
  }

  /** Sidecar: the deployment's labels are mirrored every time; the webhook label only fills a gap. */
  function SidecarLabels(cfg: DeployConfig, labels: StringMap, t: StringMap): StringMap {
    Overwrite(FillIn(Overwrite(t, SidecarPairs(labels)), [WebhookPair(cfg)]), [SwimLane(labels)])
  }

  /** Otherwise: a template that carries the webhook label is left alone. */
  function AgentLabels(cfg: DeployConfig, labels: StringMap, t: StringMap): StringMap {
    if cfg.matchKey in t then t
    else Overwrite(t, [WebhookPair(cfg), Mirror(labels, APPLICATION), Mirror(labels, SERVICE_NAME),
                       Mirror(labels, SERVICE_GROUP)])
  }

  function SgmPairs(labels: StringMap): seq<Pair> {
    [(SGM_APP, Get(labels, APPLICATION)), (SGM_GROUP, Get(labels, SERVICE_GROUP)), (SGM_PROBE, "true"),
     (SGM_SINK, "Http"), (SGM_TENANT, Get(labels, TENANT))]
  }

  predicate IsSidecar(d: Deployment) {
    Lookup(d.labels, ENHANCE_TYPE) == Some(ENHANCE_SIDECAR)
  }

  predicate UsesSgm(d: Deployment) {
    Lookup(d.labels, APM_TYPE) == Some("sgm")
  }

  function EnhanceLabels(cfg: DeployConfig, d: Deployment): StringMap {
    if IsSidecar(d) then SidecarLabels(cfg, d.labels, d.templateLabels)
    else AgentLabels(cfg, d.labels, d.templateLabels)
  }

  /** The template labels after both label steps; APM "sgm" fills five gaps. */
  function MutatedLabels(cfg: DeployConfig, d: Deployment): StringMap {
    if UsesSgm(d) then FillIn(EnhanceLabels(cfg, d), SgmPairs(d.labels)) else EnhanceLabels(cfg, d)
  }

  // ----- env of container 0 -----

  predicate WantsEnvs(cfg: DeployConfig, d: Deployment) {
    cfg.controlPlaneUrl != "" && Lookup(d.labels, ENHANCE_TYPE) == Some(ENHANCE_AGENT)
  }

  function Without(env: seq<EnvVar>, name: string): seq<EnvVar> {
    if env == [] then []
    else
      var n := |env| - 1;
      Without(env[..n], name) + if env[n].name != name then [env[n]] else []
  }

  /** The name is gone, and nothing else: the list is shorter exactly when it had the name, and the same otherwise. */
  lemma {:induction false} WithoutDrops(env: seq<EnvVar>, name: string)
    ensures var r := Without(env, name);
      && !HasEnv(r, name)
      && (|r| == |env| ==> r == env)
      && |r| <= |env| && (|r| < |env| <==> HasEnv(env, name))
  {
    if env != [] {
      var front, e := env[..|env| - 1], env[|env| - 1];
      assert env == front + [e];
      WithoutDrops(front, name);
      WithoutAppend(front, e, name);
      HasEnvAppend(front, e, name);
      HasEnvAppend(Without(front, name), e, name);
    }
  }

  lemma WithoutAppend(env: seq<EnvVar>, e: EnvVar, name: string)
    ensures Without(env + [e], name) == if e.name != name then Without(env, name) + [e] else Without(env, name)
  {
    assert (env + [e])[..|env|] == env;
  }

  lemma WithoutNext(env: seq<EnvVar>, i: nat, name: string)
    requires i < |env|
    ensures Without(env[..i + 1], name) == if env[i].name != name then Without(env[..i], name) + [env[i]]
                                           else Without(env[..i], name)
    ensures HasEnv(env[..i + 1], name) <==> HasEnv(env[..i], name) || env[i].name == name
  {
    TakeNext(env, i);
    HasEnvAppend(env[..i], env[i], name);
    WithoutAppend(env[..i], env[i], name);
  }

  /** CONFIG_CENTER_ENABLED survives only on deployments with the configure label. */
  function Cleaned(d: Deployment, env: seq<EnvVar>): seq<EnvVar> {
    if CONFIGURE_TYPE in d.labels then env else Without(env, CONFIG_CENTER_ENABLED)
  }

  ghost predicate EnvsAdded(d: Deployment, envs: StringMap, env: seq<EnvVar>, r: seq<EnvVar>) {
    exists mid :: Appended(env, envs, mid) && r == Cleaned(d, mid)
  }

  // ----- the whole mutation -----

  datatype Mutation = Failed | Crashed | Done(target: Deployment, added: bool)

  ghost predicate ContainersMutated(cfg: DeployConfig, d: Deployment, r: seq<Container>) {
    if !WantsEnvs(cfg, d) then r == d.containers
    else
      && d.containers != [] && |r| == |d.containers|
      && ApplicationEnvs(d.labels, cfg.filter, cfg.reply).Some?
      && EnvsAdded(d, ApplicationEnvs(d.labels, cfg.filter, cfg.reply).value, d.containers[0].env, r[0].env)
      && r == d.containers[0 := d.containers[0].(env := r[0].env)]
  }

  /** A possible result of mutating deployment d; only the order of appended envs is open. */
  ghost predicate Mutated(cfg: DeployConfig, d: Deployment, t: Deployment) {
    && t == d.(templateLabels := t.templateLabels, containers := t.containers)
    && t.templateLabels == MutatedLabels(cfg, d)
    && ContainersMutated(cfg, d, t.containers)
  }

  /** The env step reports a change: a name was missing, or CONFIG_CENTER_ENABLED had to go, even if both were the same
      entry. */
  predicate EnvsFlagged(d: Deployment, envs: StringMap, env: seq<EnvVar>) {
    (exists k :: k in envs && !HasEnv(env, k)) || (CONFIGURE_TYPE !in d.labels && HasEnv(env, CONFIG_CENTER_ENABLED))
  }

  /** The mutation reports a change: always for a sidecar, otherwise when a label or an env var was touched. */
  predicate Flagged(cfg: DeployConfig, d: Deployment, t: Deployment) {
    || IsSidecar(d) || t.templateLabels != d.templateLabels
    || (WantsEnvs(cfg, d) && d.containers != [] && ApplicationEnvs(d.labels, cfg.filter, cfg.reply).Some?
        && EnvsFlagged(d, ApplicationEnvs(d.labels, cfg.filter, cfg.reply).value, d.containers[0].env))
  }

  ghost predicate MutationResult(cfg: DeployConfig, d: Deployment, m: Mutation) {
    match m
    case Failed => WantsEnvs(cfg, d) && ApplicationEnvs(d.labels, cfg.filter, cfg.reply).None?
    case Crashed => WantsEnvs(cfg, d) && ApplicationEnvs(d.labels, cfg.filter, cfg.reply).Some? && d.containers == []
    case Done(t, added) => Mutated(cfg, d, t) && (!added ==> t == d) && (added <==> Flagged(cfg, d, t))
  }

  // ----- the routines, on the object they update -----

  class Target {
    const name: string
    const namespace: string
    const labels: StringMap
    var templateLabels: StringMap
    var containers: seq<Container>

    constructor DeepCopy(d: Deployment)
      ensures Value() == d
    {
      name, namespace, labels := d.name, d.namespace, d.labels;
      templateLabels, containers := d.templateLabels, d.containers;
    }

    function Value(): Deployment
      reads this
    {
      Deployment(name, namespace, labels, templateLabels, containers)
    }

    method MirrorForSidecar(cfg: DeployConfig)
      modifies this`templateLabels
      ensures templateLabels == SidecarLabels(cfg, labels, old(templateLabels))
    {
      ghost var t, p := templateLabels, SidecarPairs(labels);
      templateLabels := templateLabels[SIDECAR_ENHANCE := "true"];
      templateLabels := templateLabels[APPLICATION := Get(labels, APPLICATION)];
      templateLabels := templateLabels[SERVICE_NAME := Get(labels, SERVICE_NAME)];
      templateLabels := templateLabels[SERVICE_GROUP := Get(labels, SERVICE_GROUP)];
      templateLabels := templateLabels[JDAP_SERVICE_SPACE := Get(labels, JDAP_SERVICE_SPACE)];
      FiveUpdates(t, p[0], p[1], p[2], p[3], p[4]);
      ghost var mirrored := templateLabels;
      if cfg.matchKey !in templateLabels {
        templateLabels := templateLabels[cfg.matchKey := cfg.matchValue];
      }
      FiveUpdates(mirrored, WebhookPair(cfg), p[0], p[0], p[0], p[0]);
      ghost var filled := templateLabels;
      if SWIM_LANE in labels {
        templateLabels := templateLabels[SWIM_LANE := labels[SWIM_LANE]];
      } else {
        templateLabels := templateLabels[SWIM_LANE := BASE_SWIMLANE_CODE];
      }
      FiveUpdates(filled, SwimLane(labels), p[0], p[0], p[0], p[0]);
    }

    method AddWebhookLabel(cfg: DeployConfig) returns (added: bool)
      modifies this`templateLabels
      ensures templateLabels == AgentLabels(cfg, labels, old(templateLabels))
      ensures added <==> cfg.matchKey !in old(templateLabels)
      ensures cfg.matchKey in templateLabels
    {
      if cfg.matchKey in templateLabels {
        return false;
      }
      ghost var p := SidecarPairs(labels);
      FiveUpdates(templateLabels, WebhookPair(cfg), p[1], p[2], p[3], p[0]);
      templateLabels := templateLabels[cfg.matchKey := cfg.matchValue];
      templateLabels := templateLabels[APPLICATION := Get(labels, APPLICATION)];
      templateLabels := templateLabels[SERVICE_NAME := Get(labels, SERVICE_NAME)];
      templateLabels := templateLabels[SERVICE_GROUP := Get(labels, SERVICE_GROUP)];
      added := true;
    }

    method AddIfMissing(key: string, value: string) returns (added: bool)
      modifies this`templateLabels
      ensures templateLabels == Fill(old(templateLabels), (key, value))
      ensures added <==> key !in old(templateLabels)
    {
      added := key !in templateLabels;
      if added {
        templateLabels := templateLabels[key := value];
      }
    }

    /** SgmAppender.Modify. */
    method ModifyForSgm() returns (added: bool)
      modifies this`templateLabels
      ensures templateLabels == FillIn(old(templateLabels), SgmPairs(labels))
      ensures added <==> templateLabels != old(templateLabels)
    {
      ghost var t, p := templateLabels, SgmPairs(labels);
      FiveUpdates(t, p[0], p[1], p[2], p[3], p[4]);
      var app := AddIfMissing(SGM_APP, Get(labels, APPLICATION));
      var group := AddIfMissing(SGM_GROUP, Get(labels, SERVICE_GROUP));
      var probe := AddIfMissing(SGM_PROBE, "true");
      var sink := AddIfMissing(SGM_SINK, "Http");
      var tenant := AddIfMissing(SGM_TENANT, Get(labels, TENANT));
      added := app || group || probe || sink || tenant;
      FiveFills(t, p[0], p[1], p[2], p[3], p[4]);
    }

    method AddApplicationEnvironments(envs: StringMap) returns (added: bool)
      requires containers != []
      modifies this`containers
      ensures |containers| == |old(containers)|
      ensures containers == old(containers)[0 := old(containers)[0].(env := containers[0].env)]
      ensures Appended(old(containers)[0].env, envs, containers[0].env)
      ensures added <==> containers != old(containers)
      ensures added <==> exists k :: k in envs && !HasEnv(old(containers)[0].env, k)
    {
      var env;
      env, added := AppendMissing(containers[0].env, envs);
      UnchangedIffNothingMissing(containers[0].env, envs, env);
      containers := containers[0 := containers[0].(env := env)];
    }

    method RemoveConfigCenter() returns (removed: bool)
      requires containers != []
      modifies this`containers
      ensures var env := Without(old(containers)[0].env, CONFIG_CENTER_ENABLED);
              containers == old(containers)[0 := old(containers)[0].(env := env)]
      ensures removed <==> containers != old(containers)
      ensures removed <==> HasEnv(old(containers)[0].env, CONFIG_CENTER_ENABLED)
    {
      var env;
      WithoutDrops(containers[0].env, CONFIG_CENTER_ENABLED);
      env, removed := RemoveEnvVar(containers[0].env, CONFIG_CENTER_ENABLED);
      containers := containers[0 := containers[0].(env := env)];
    }
  }

  /** The two label steps of injectionDeploy. */
  method MutateLabels(cfg: DeployConfig, d: Deployment, target: Target) returns (added: bool)
    requires target.Value() == d
    modifies target`templateLabels
    ensures target.templateLabels == MutatedLabels(cfg, d)
    ensures added <==> IsSidecar(d) || target.templateLabels != d.templateLabels
  {
    if ENHANCE_TYPE in d.labels && d.labels[ENHANCE_TYPE] == ENHANCE_SIDECAR {
      target.MirrorForSidecar(cfg);
      added := true;
    } else {
      added := target.AddWebhookLabel(cfg);
    }
    assert target.templateLabels == EnhanceLabels(cfg, d);
    FillInAt(EnhanceLabels(cfg, d), SgmPairs(d.labels), cfg.matchKey);
    if APM_TYPE in d.labels && d.labels[APM_TYPE] == "sgm" {
      var addedApm := target.ModifyForSgm();
      added := added || addedApm;
    }
  }

  /** The env step on container 0. */
  method MutateEnvs(d: Deployment, envs: StringMap, target: Target) returns (added: bool)
    requires target.containers == d.containers != []
    modifies target`containers
    ensures |target.containers| == |d.containers|
    ensures EnvsAdded(d, envs, d.containers[0].env, target.containers[0].env)
    ensures target.containers == d.containers[0 := d.containers[0].(env := target.containers[0].env)]
    ensures !added ==> target.containers == d.containers
    ensures added <==> EnvsFlagged(d, envs, d.containers[0].env)
  {
    added := target.AddApplicationEnvironments(envs);
    ghost var mid := target.containers[0].env;
    AppendedNames(d.containers[0].env, envs, mid, CONFIG_CENTER_ENABLED);
    if CONFIGURE_TYPE !in d.labels {
      var removed := target.RemoveConfigCenter();
      added := added || removed;
    }
    assert target.containers[0].env == Cleaned(d, mid);
  }

  /** From the deep copy to the patch decision of injectionDeploy. */
  method Mutate(cfg: DeployConfig, d: Deployment) returns (m: Mutation)
    ensures MutationResult(cfg, d, m)
  {
    var target := new Target.DeepCopy(d);
    var added := MutateLabels(cfg, d, target);
    if |cfg.controlPlaneUrl| != 0 && ENHANCE_TYPE in d.labels && d.labels[ENHANCE_TYPE] == ENHANCE_AGENT {
      var envs := GetApplicationEnvironments(d.labels, cfg.filter, cfg.reply);
      if envs.None? {
        return Failed;
      }
      if target.containers == [] {
        return Crashed;
      }
      var addedEnv := MutateEnvs(d, envs.value, target);
      added := added || addedEnv;
    }
    m := Done(target.Value(), added);
  }

  method RemoveEnvVar(envs: seq<EnvVar>, name: string) returns (result: seq<EnvVar>, removed: bool)
    ensures result == Without(envs, name) && (removed <==> HasEnv(envs, name))
  {
    result, removed := [], false;
    assert envs[..0] == [];
    for i := 0 to |envs|
      invariant result == Without(envs[..i], name)
      invariant removed <==> HasEnv(envs[..i], name)
    {
      WithoutNext(envs, i, name);
      if envs[i].name != name {
        result := result + [envs[i]];
      } else {
        removed := true;
      }
    }
    assert envs[..|envs|] == envs;
  }
}
