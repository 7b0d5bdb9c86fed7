/** Mutating a deployment twice is mutating it once, and what a mutation leaves alone. */
module DeployTheorems {
  import opened Prelude
  import opened ConfigLabels
  import opened Workload
  import opened EnvAppend
  import opened ControlPlane
  import opened LabelUpdates
  import opened DeployMutation

  // ----- what a mutated template carries -----

  function TouchedKeys(cfg: DeployConfig, d: Deployment): set<string> {
    {cfg.matchKey, APPLICATION, SERVICE_NAME, SERVICE_GROUP}
    + (if IsSidecar(d) then {SIDECAR_ENHANCE, JDAP_SERVICE_SPACE, SWIM_LANE} else {})
    + (if UsesSgm(d) then {SGM_APP, SGM_GROUP, SGM_PROBE, SGM_SINK, SGM_TENANT} else {})
  }

  /** Every mutated template carries the webhook label, so its pods reach the pod admission; no key is lost and only the
      touched keys change; and a template that carried the webhook label keeps all its values, sidecars excepted. */
  lemma TemplateLabels(cfg: DeployConfig, d: Deployment, k: string)
    ensures cfg.matchKey in MutatedLabels(cfg, d)
    ensures k in d.templateLabels ==> k in MutatedLabels(cfg, d)
    ensures k !in TouchedKeys(cfg, d) ==> SameAt(MutatedLabels(cfg, d), d.templateLabels, k)
    ensures !IsSidecar(d) && cfg.matchKey in d.templateLabels && k in d.templateLabels ==>
              MutatedLabels(cfg, d)[k] == d.templateLabels[k]
  {
    EnhancedAt(cfg, d, k);
    EnhancedAt(cfg, d, cfg.matchKey);
    FillInAt(EnhanceLabels(cfg, d), SgmPairs(d.labels), k);
    FillInAt(EnhanceLabels(cfg, d), SgmPairs(d.labels), cfg.matchKey);
  }

  lemma EnhancedAt(cfg: DeployConfig, d: Deployment, k: string)
    ensures k in d.templateLabels || k == cfg.matchKey ==> k in EnhanceLabels(cfg, d)
    ensures k !in {cfg.matchKey, SIDECAR_ENHANCE, APPLICATION, SERVICE_NAME, SERVICE_GROUP, JDAP_SERVICE_SPACE, SWIM_LANE} ==>
              SameAt(EnhanceLabels(cfg, d), d.templateLabels, k)
    ensures !IsSidecar(d) && k !in {cfg.matchKey, APPLICATION, SERVICE_NAME, SERVICE_GROUP} ==>
              SameAt(EnhanceLabels(cfg, d), d.templateLabels, k)
  {
    var t := d.templateLabels;
    if IsSidecar(d) {
      SidecarAt(cfg, d.labels, t, k);
    } else if cfg.matchKey !in t {
      var p := SidecarPairs(d.labels);
      FiveUpdates(t, WebhookPair(cfg), p[1], p[2], p[3], p[0]);
    }
  }

  lemma SidecarAt(cfg: DeployConfig, labels: StringMap, t: StringMap, k: string)
    ensures k in t || k == cfg.matchKey ==> k in SidecarLabels(cfg, labels, t)
    ensures k !in {cfg.matchKey, SIDECAR_ENHANCE, APPLICATION, SERVICE_NAME, SERVICE_GROUP, JDAP_SERVICE_SPACE, SWIM_LANE} ==>
              SameAt(SidecarLabels(cfg, labels, t), t, k)
  {
    var mirrored := Overwrite(t, SidecarPairs(labels));
    MirroredKeepsOthers(labels, t, k);
    OneUpdate(mirrored, WebhookPair(cfg));
    OneUpdate(FillIn(mirrored, [WebhookPair(cfg)]), SwimLane(labels));
  }

  lemma MirroredKeepsOthers(labels: StringMap, t: StringMap, k: string)
    ensures k in t ==> k in Overwrite(t, SidecarPairs(labels))
    ensures k !in {SIDECAR_ENHANCE, APPLICATION, SERVICE_NAME, SERVICE_GROUP, JDAP_SERVICE_SPACE} ==>
              SameAt(Overwrite(t, SidecarPairs(labels)), t, k)
  {
    var p := SidecarPairs(labels);
    FiveUpdates(t, p[0], p[1], p[2], p[3], p[4]);
  }

  lemma OneUpdate(t: StringMap, p: Pair)
    ensures Overwrite(t, [p]) == t[p.0 := p.1] && FillIn(t, [p]) == Fill(t, p)
  {
    FiveUpdates(t, p, p, p, p, p);
  }

  /** The pods of a sidecar deployment carry its own application, service, group and space, its lane or the base lane,
      and the injection mark, whatever the template said, so later changes of the deployment's labels reach them. */
  lemma SidecarTemplateMirrors(cfg: DeployConfig, d: Deployment, k: string)
    requires Lookup(d.labels, ENHANCE_TYPE) == Some("sidecar")
    requires k in {SIDECAR_ENHANCE, APPLICATION, SERVICE_NAME, SERVICE_GROUP, JDAP_SERVICE_SPACE, SWIM_LANE}
    ensures k in MutatedLabels(cfg, d)
    ensures MutatedLabels(cfg, d)[k] ==
            if k == SIDECAR_ENHANCE then "true"
            else if k == SWIM_LANE && k !in d.labels then BASE_SWIMLANE_CODE
            else Get(d.labels, k)
  {
    MirroredAt(cfg, d.labels, d.templateLabels, k);
    FillInAt(EnhanceLabels(cfg, d), SgmPairs(d.labels), k);
  }

  lemma MirroredAt(cfg: DeployConfig, labels: StringMap, t: StringMap, k: string)
    requires k in {SIDECAR_ENHANCE, APPLICATION, SERVICE_NAME, SERVICE_GROUP, JDAP_SERVICE_SPACE, SWIM_LANE}
    ensures k in SidecarLabels(cfg, labels, t)
    ensures SidecarLabels(cfg, labels, t)[k] ==
            if k == SIDECAR_ENHANCE then "true"
            else if k == SWIM_LANE && k !in labels then BASE_SWIMLANE_CODE
            else Get(labels, k)
  {
    var p := SidecarPairs(labels);
    var mirrored := Overwrite(t, p);
    FiveUpdates(t, p[0], p[1], p[2], p[3], p[4]);
    FillInAt(mirrored, [WebhookPair(cfg)], k);
    OneUpdate(FillIn(mirrored, [WebhookPair(cfg)]), SwimLane(labels));
    assert Distinct([SIDECAR_ENHANCE, APPLICATION, SERVICE_NAME, SERVICE_GROUP, JDAP_SERVICE_SPACE, SWIM_LANE]);
  }

  /** Other templates get application, service and group of the deployment, whatever they said of them before, and only
      when they come without the webhook label. */
  lemma AgentTemplateMirrors(cfg: DeployConfig, d: Deployment, k: string)
    requires Lookup(d.labels, ENHANCE_TYPE) != Some("sidecar") && cfg.matchKey !in d.templateLabels
    requires k in {APPLICATION, SERVICE_NAME, SERVICE_GROUP}
    ensures k in MutatedLabels(cfg, d) && MutatedLabels(cfg, d)[k] == Get(d.labels, k)
  {
    var p := SidecarPairs(d.labels);
    FiveUpdates(d.templateLabels, WebhookPair(cfg), p[1], p[2], p[3], p[0]);
    FillInAt(EnhanceLabels(cfg, d), SgmPairs(d.labels), k);
  }

  /** The webhook label is given its configured value where the template lacks it and keeps its value otherwise, unless
      it is one of the mirrored labels. */
  lemma WebhookLabelValue(cfg: DeployConfig, d: Deployment)
    requires cfg.matchKey !in {SIDECAR_ENHANCE, APPLICATION, SERVICE_NAME, SERVICE_GROUP, JDAP_SERVICE_SPACE, SWIM_LANE}
    ensures Lookup(MutatedLabels(cfg, d), cfg.matchKey) ==
            Some(if cfg.matchKey in d.templateLabels then d.templateLabels[cfg.matchKey] else cfg.matchValue)
  {
    var p, t := SidecarPairs(d.labels), d.templateLabels;
    if IsSidecar(d) {
      var mirrored := Overwrite(t, p);
      MirroredKeepsOthers(d.labels, t, cfg.matchKey);
      OneUpdate(mirrored, WebhookPair(cfg));
      OneUpdate(FillIn(mirrored, [WebhookPair(cfg)]), SwimLane(d.labels));
    } else {
      FiveUpdates(t, WebhookPair(cfg), p[1], p[2], p[3], p[0]);
    }
    FillInAt(EnhanceLabels(cfg, d), SgmPairs(d.labels), cfg.matchKey);
  }

  /** The APM labels: a missing one is filled from the deployment or with its constant, and only for the type "sgm". */
  lemma SgmTemplate(cfg: DeployConfig, d: Deployment, k: string)
    requires k in {"sgm.jd.com/app", "sgm.jd.com/group", "sgm.jd.com/probe-inject", "sgm.jd.com/sink", "sgm.jd.com/tenant"}
    requires k != cfg.matchKey
    ensures Lookup(MutatedLabels(cfg, d), k) ==
            if k in d.templateLabels then Some(d.templateLabels[k])
            else if Lookup(d.labels, APM_TYPE) != Some("sgm") then None
            else Some(
              match k
              case "sgm.jd.com/app" => Get(d.labels, "jmsf.jd.com/app")
              case "sgm.jd.com/group" => Get(d.labels, "jmsf.jd.com/group")
              case "sgm.jd.com/probe-inject" => "true"
              case "sgm.jd.com/sink" => "Http"
              case _ => Get(d.labels, "jmsf.jd.com/tenant"))
  {
    SgmKeysAreOthers(k);
    EnhancedAt(cfg, d, k);
    if UsesSgm(d) {
      SgmFills(d.labels, EnhanceLabels(cfg, d), k);
    }
  }

  lemma SgmFills(labels: StringMap, t: StringMap, k: string)
    requires k in {SGM_APP, SGM_GROUP, SGM_PROBE, SGM_SINK, SGM_TENANT}
    ensures Lookup(FillIn(t, SgmPairs(labels)), k) ==
            if k in t then Some(t[k])
            else Some(if k == SGM_APP then Get(labels, APPLICATION) else if k == SGM_GROUP then Get(labels, SERVICE_GROUP)
                      else if k == SGM_PROBE then "true" else if k == SGM_SINK then "Http" else Get(labels, TENANT))
  {
    FillInAt(t, SgmPairs(labels), k);
    if k !in t {
      var i := if k == SGM_APP then 0 else if k == SGM_GROUP then 1 else if k == SGM_PROBE then 2
               else if k == SGM_SINK then 3 else 4;
      FillInFirst(t, SgmPairs(labels), i);
    }
  }

  lemma SgmKeysAreOthers(k: string)
    requires k in {SGM_APP, SGM_GROUP, SGM_PROBE, SGM_SINK, SGM_TENANT}
    ensures k !in {SIDECAR_ENHANCE, APPLICATION, SERVICE_NAME, SERVICE_GROUP, JDAP_SERVICE_SPACE, SWIM_LANE}
  {
    assert k[1] == 'g' && SIDECAR_ENHANCE[1] == 'i';
  }

  // ----- mutating twice -----

  lemma LabelsTwice(cfg: DeployConfig, d: Deployment, t: Deployment)
    requires t.labels == d.labels && t.templateLabels == MutatedLabels(cfg, d)
    ensures MutatedLabels(cfg, t) == t.templateLabels
  {
    var base, u := EnhanceLabels(cfg, d), t.templateLabels;
    EnhanceTwice(cfg, d, t);
    if UsesSgm(d) {
      FillInTwice(base, SgmPairs(d.labels), u);
    }
  }

  lemma EnhanceTwice(cfg: DeployConfig, d: Deployment, t: Deployment)
    requires t.labels == d.labels && t.templateLabels == MutatedLabels(cfg, d)
    ensures EnhanceLabels(cfg, t) == t.templateLabels
  {
    var base, u, sgm := EnhanceLabels(cfg, d), t.templateLabels, SgmPairs(d.labels);
    if IsSidecar(d) {
      StagesTwice(d.templateLabels, SidecarPairs(d.labels), [WebhookPair(cfg)], [SwimLane(d.labels)], base);
      if UsesSgm(d) {
        StagesUnderFill(base, SidecarPairs(d.labels), [WebhookPair(cfg)], [SwimLane(d.labels)], sgm);
      }
    } else {
      assert cfg.matchKey in base by {
        if cfg.matchKey !in d.templateLabels {
          var pairs := [WebhookPair(cfg), Mirror(d.labels, APPLICATION), Mirror(d.labels, SERVICE_NAME),
                        Mirror(d.labels, SERVICE_GROUP)];
          assert pairs[0].0 == cfg.matchKey;
          OverwriteAt(d.templateLabels, pairs, cfg.matchKey);
        }
      }
      FillInAt(base, sgm, cfg.matchKey);
    }
  }

  /** Labels that the sidecar step leaves as they are stay so after gaps were filled. */
  lemma StagesUnderFill(base: StringMap, first: seq<Pair>, gap: seq<Pair>, last: seq<Pair>, more: seq<Pair>)
    requires Overwrite(FillIn(Overwrite(base, first), gap), last) == base
    ensures var u := FillIn(base, more); Overwrite(FillIn(Overwrite(u, first), gap), last) == u
  {
    var u := FillIn(base, more);
    var v := Overwrite(FillIn(Overwrite(u, first), gap), last);
    forall k ensures SameAt(v, u, k) {
      FillInAt(base, more, k);
      OverwriteAt(base, first, k);
      FillInAt(Overwrite(base, first), gap, k);
      OverwriteAt(FillIn(Overwrite(base, first), gap), last, k);
      OverwriteAt(u, first, k);
      FillInAt(Overwrite(u, first), gap, k);
      OverwriteAt(FillIn(Overwrite(u, first), gap), last, k);
    }
    SameEverywhere(v, u);
  }

  lemma {:induction false} WithoutKeepsOthers(env: seq<EnvVar>, name: string, other: string)
    requires other != name
    ensures HasEnv(Without(env, name), other) <==> HasEnv(env, other)
    ensures HasEnv(env, other) ==> LastEnv(Without(env, name), other) == LastEnv(env, other)
  {
    if env != [] {
      var front, e := env[..|env| - 1], env[|env| - 1];
      assert env == front + [e];
      WithoutKeepsOthers(front, name, other);
      WithoutAppend(front, e, name);
      HasEnvAppend(front, e, other);
      HasEnvAppend(Without(front, name), e, other);
    }
  }

  lemma WithoutLast(env: seq<EnvVar>, name: string)
    requires env != []
    ensures var n := |env| - 1;
      Without(env, name) == Without(env[..n], name) + (if env[n].name != name then [env[n]] else [])
  {
  }

  lemma {:induction false} WithoutConcat(a: seq<EnvVar>, b: seq<EnvVar>, name: string)
    ensures Without(a + b, name) == Without(a, name) + Without(b, name)
  {
    if b == [] {
      assert a + b == a;
    } else {
      var n := |b| - 1;
      assert (a + b)[..|a + b| - 1] == a + b[..n];
      WithoutConcat(a, b[..n], name);
      WithoutLast(b, name);
      WithoutLast(a + b, name);
      Associates(Without(a, name), Without(b[..n], name), if b[n].name != name then [b[n]] else []);
    }
  }

  lemma Associates(a: seq<EnvVar>, b: seq<EnvVar>, c: seq<EnvVar>)
    ensures (a + b) + c == a + (b + c)
  {
  }

  /** The second round appends at most CONFIG_CENTER_ENABLED, and then removes it again. */
  lemma EnvsTwice(d: Deployment, envs: StringMap, env: seq<EnvVar>, r: seq<EnvVar>, again: seq<EnvVar>)
    requires EnvsAdded(d, envs, env, r) && EnvsAdded(d, envs, r, again)
    ensures again == r
  {
    var mid :| Appended(env, envs, mid) && r == Cleaned(d, mid);
    var mid' :| Appended(r, envs, mid') && again == Cleaned(d, mid');
    if CONFIGURE_TYPE in d.labels {
      AppendedTwice(env, envs, r, again);
    } else {
      CleanedTwice(env, envs, mid, mid');
    }
  }

  lemma AppendedTwice(env: seq<EnvVar>, envs: StringMap, r: seq<EnvVar>, again: seq<EnvVar>)
    requires Appended(env, envs, r) && Appended(r, envs, again)
    ensures again == r
  {
    forall k | k in envs ensures HasEnv(r, k) {
      AppendedNames(env, envs, r, k);
    }
    UnchangedIffNothingMissing(r, envs, again);
  }

  lemma CleanedTwice(env: seq<EnvVar>, envs: StringMap, mid: seq<EnvVar>, mid': seq<EnvVar>)
    requires Appended(env, envs, mid) && Appended(Without(mid, CONFIG_CENTER_ENABLED), envs, mid')
    ensures Without(mid', CONFIG_CENTER_ENABLED) == Without(mid, CONFIG_CENTER_ENABLED)
  {
    var r := Without(mid, CONFIG_CENTER_ENABLED);
    var tail := mid'[|r|..];
    assert mid' == r + tail;
    forall i | 0 <= i < |tail| ensures tail[i].name == CONFIG_CENTER_ENABLED {
      OnlyConfigCenterIsMissing(env, envs, mid, tail[i].name);
      assert HasEnv(tail, tail[i].name);
      ToMapIsLast(tail, tail[i].name);
    }
    OnlyThatName(tail, CONFIG_CENTER_ENABLED);
    WithoutConcat(r, tail, CONFIG_CENTER_ENABLED);
    WithoutDrops(mid, CONFIG_CENTER_ENABLED);
    WithoutDrops(r, CONFIG_CENTER_ENABLED);
  }

  lemma OnlyConfigCenterIsMissing(env: seq<EnvVar>, envs: StringMap, mid: seq<EnvVar>, k: string)
    requires Appended(env, envs, mid)
    ensures k in Missing(Without(mid, CONFIG_CENTER_ENABLED), envs) ==> k == CONFIG_CENTER_ENABLED
  {
    if k in envs && k != CONFIG_CENTER_ENABLED {
      AppendedNames(env, envs, mid, k);
      WithoutKeepsOthers(mid, CONFIG_CENTER_ENABLED, k);
    }
  }

  lemma {:induction false} OnlyThatName(env: seq<EnvVar>, name: string)
    requires forall i :: 0 <= i < |env| ==> env[i].name == name
    ensures Without(env, name) == []
  {
    if env != [] {
      OnlyThatName(env[..|env| - 1], name);
    }
  }

  /** For a fixed configuration and reply, a mutated deployment is a fixed point, list order included. */
  lemma MutateTwice(cfg: DeployConfig, d: Deployment, t: Deployment, again: Deployment)
    requires Mutated(cfg, d, t) && Mutated(cfg, t, again)
    ensures again == t
  {
    LabelsTwice(cfg, d, t);
    if WantsEnvs(cfg, d) {
      var envs := ApplicationEnvs(d.labels, cfg.filter, cfg.reply).value;
      EnvsTwice(d, envs, d.containers[0].env, t.containers[0].env, again.containers[0].env);
    }
  }

  /** A mutated deployment can be mutated again: the second round neither fails nor crashes. */
  lemma MutatedAgainSucceeds(cfg: DeployConfig, d: Deployment, t: Deployment, m: Mutation)
    requires Mutated(cfg, d, t) && MutationResult(cfg, t, m)
    ensures m.Done? && m.target == t
  {
    if m.Done? {
      MutateTwice(cfg, d, t, m.target);
    }
  }

  /** Containers other than the first are untouched; the first keeps its entries, their values and their order,
      and only CONFIG_CENTER_ENABLED may go. */
  lemma OtherContainersUntouched(cfg: DeployConfig, d: Deployment, t: Deployment)
    requires Mutated(cfg, d, t)
    ensures |t.containers| == |d.containers|
    ensures forall i :: 0 < i < |d.containers| ==> t.containers[i] == d.containers[i]
    ensures d.containers != [] ==>
      && t.containers[0] == d.containers[0].(env := t.containers[0].env)
      && (d.containers[0].env <= t.containers[0].env
          || (CONFIGURE_TYPE !in d.labels && Without(d.containers[0].env, CONFIG_CENTER_ENABLED) <= t.containers[0].env))
  {
    if WantsEnvs(cfg, d) {
      var envs := ApplicationEnvs(d.labels, cfg.filter, cfg.reply).value;
      EnvsKeepOriginals(d, envs, d.containers[0].env, t.containers[0].env);
    }
  }

  lemma EnvsKeepOriginals(d: Deployment, envs: StringMap, env: seq<EnvVar>, r: seq<EnvVar>)
    requires EnvsAdded(d, envs, env, r)
    ensures env <= r || (CONFIGURE_TYPE !in d.labels && Without(env, CONFIG_CENTER_ENABLED) <= r)
  {
    var mid :| Appended(env, envs, mid) && r == Cleaned(d, mid);
    assert mid == env + mid[|env|..];
    WithoutConcat(env, mid[|env|..], CONFIG_CENTER_ENABLED);
  }

  // ----- the env of container 0, name by name -----

  /** With a control plane and the enhance label "agent", container 0 has its own names and those of the control
      plane, its own values winning; but CONFIG_CENTER_ENABLED is gone, whoever set it, unless the deployment has the
      configure label. Without either, no container changes. */
  lemma EnvsOfFirstContainer(cfg: DeployConfig, d: Deployment, t: Deployment, k: string)
    requires Mutated(cfg, d, t)
    ensures if cfg.controlPlaneUrl == "" || Lookup(d.labels, ENHANCE_TYPE) != Some("agent") then t.containers == d.containers
      else
        && d.containers != [] && |t.containers| == |d.containers|
        && ApplicationEnvs(d.labels, cfg.filter, cfg.reply).Some?
        && var envs := ApplicationEnvs(d.labels, cfg.filter, cfg.reply).value;
           var own, env := d.containers[0].env, t.containers[0].env;
           if k == "CONFIG_CENTER_ENABLED" && CONFIGURE_TYPE !in d.labels then !HasEnv(env, k)
           else
             && (HasEnv(env, k) <==> HasEnv(own, k) || k in envs)
             && (HasEnv(env, k) ==> LastEnv(env, k) == if HasEnv(own, k) then LastEnv(own, k) else PlainEnv(k, envs[k]))
  {
    if WantsEnvs(cfg, d) {
      var envs := ApplicationEnvs(d.labels, cfg.filter, cfg.reply).value;
      EnvAfterCleaning(d, envs, d.containers[0].env, t.containers[0].env, k);
    }
  }

  lemma EnvAfterCleaning(d: Deployment, envs: StringMap, env: seq<EnvVar>, r: seq<EnvVar>, k: string)
    requires EnvsAdded(d, envs, env, r)
    ensures if k == CONFIG_CENTER_ENABLED && CONFIGURE_TYPE !in d.labels then !HasEnv(r, k)
      else
        && (HasEnv(r, k) <==> HasEnv(env, k) || k in envs)
        && (HasEnv(r, k) ==> LastEnv(r, k) == if HasEnv(env, k) then LastEnv(env, k) else PlainEnv(k, envs[k]))
  {
    var mid :| Appended(env, envs, mid) && r == Cleaned(d, mid);
    AppendedNames(env, envs, mid, k);
    AppendedAsMap(env, envs, mid);
    ToMapIsLast(env, k);
    ToMapIsLast(mid, k);
    WithoutDrops(mid, CONFIG_CENTER_ENABLED);
    if CONFIGURE_TYPE !in d.labels && k != CONFIG_CENTER_ENABLED {
      WithoutKeepsOthers(mid, CONFIG_CENTER_ENABLED, k);
    }
  }

  /** When a mutation fails or crashes: both only with a control plane and the enhance label "agent". It fails exactly
      when the control plane was asked and refused, and crashes exactly when it did not fail and there is no container. */
  lemma MutationStopsIff(cfg: DeployConfig, d: Deployment, m: Mutation, space: string, application: string)
    requires MutationResult(cfg, d, m) && AskedAbout(d.labels, space, application)
    ensures var wanted := cfg.controlPlaneUrl != "" && Lookup(d.labels, ENHANCE_TYPE) == Some("agent");
      var refused := cfg.reply.Refused? && space != "" && application != "";
      && (m.Failed? <==> wanted && refused)
      && (m.Crashed? <==> wanted && !refused && d.containers == [])
  {
    RepliesThatStop(d.labels, cfg.filter, cfg.reply, space, application);
  }
}
