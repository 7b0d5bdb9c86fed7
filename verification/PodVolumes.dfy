/** Mounts and volumes of an injected pod: when every mount still names exactly one volume. */
module PodVolumes {
  import opened Prelude
  import opened Workload
  import opened EnvMerge
  import opened PodInjection

  ghost predicate NamesOne(volumes: seq<Volume>, name: string) {
    HasVolume(volumes, name) && forall i, j :: 0 <= i < j < |volumes| ==> volumes[i].name != name || volumes[j].name != name
  }

  ghost predicate DistinctVolumes(volumes: seq<Volume>) {
    forall i, j :: 0 <= i < j < |volumes| ==> volumes[i].name != volumes[j].name
  }

  predicate MountsName(mounts: seq<VolumeMount>, name: string) {
    exists i :: 0 <= i < |mounts| && mounts[i].name == name
  }

  predicate AnyMounts(containers: seq<Container>, name: string) {
    exists i :: 0 <= i < |containers| && MountsName(containers[i].mounts, name)
  }

  /** Some container or init container mounts a volume of that name. */
  predicate Mounted(pod: Pod, name: string) {
    AnyMounts(pod.containers, name) || AnyMounts(pod.initContainers, name)
  }

  /** Every mount names exactly one volume. */
  ghost predicate MountClosed(pod: Pod) {
    forall name :: Mounted(pod, name) ==> NamesOne(pod.volumes, name)
  }

  /** The injection will add mounts: a named container lacks the agent's, or the init container is missing. */
  predicate AddsMounts(cfg: PodConfig, pod: Pod) {
    || !HasContainer(pod.initContainers, cfg.initContainerName)
    || exists i :: 0 <= i < |Named(pod.containers)| && !MountsAgent(Named(pod.containers)[i].mounts)
  }

  /** Mounts that survive: those of unnamed containers go with them. */
  predicate Kept(pod: Pod, name: string) {
    AnyMounts(Named(pod.containers), name) || AnyMounts(pod.initContainers, name)
  }

  predicate IsAgentMount(deployment: string, name: string) {
    name == AGENT_VOLUME_NAME || name == ConfigVolumeName(deployment)
  }

  lemma TheTwoVolumesDiffer(deployment: string)
    ensures ConfigVolumeName(deployment) != AGENT_VOLUME_NAME
  {
    var cm := ConfigVolumeName(deployment);
    assert cm[|cm| - 1] == 'p' && AGENT_VOLUME_NAME[|AGENT_VOLUME_NAME| - 1] == 'r';
  }

  lemma MountsAfter(mounts: seq<VolumeMount>, path: string, deployment: string, name: string)
    ensures MountsName(CreateAgentVolumeMounts(path, deployment), name) <==> IsAgentMount(deployment, name)
    ensures MountsName(mounts + CreateAgentVolumeMounts(path, deployment), name) <==>
            MountsName(mounts, name) || IsAgentMount(deployment, name)
  {
    var added := CreateAgentVolumeMounts(path, deployment);
    assert added[0].name == AGENT_VOLUME_NAME && added[1].name == ConfigVolumeName(deployment);
    var all := mounts + added;
    assert forall i :: 0 <= i < |mounts| ==> all[i] == mounts[i];
    assert forall i :: 0 <= i < |added| ==> all[|mounts| + i] == added[i];
    assert forall i :: |mounts| <= i < |all| ==> all[i] == added[i - |mounts|];
  }

  predicate SameMounts(a: seq<Container>, b: seq<Container>) {
    |a| == |b| && forall i :: 0 <= i < |a| ==> a[i].name == b[i].name && a[i].mounts == b[i].mounts
  }

  lemma {:induction false} NamedKeepsMounts(a: seq<Container>, b: seq<Container>)
    requires SameMounts(a, b)
    ensures SameMounts(Named(a), Named(b))
  {
    if a != [] {
      NamedKeepsMounts(a[..|a| - 1], b[..|b| - 1]);
    }
  }

  lemma ContainersMountAfter(named: seq<Container>, labelEnvs: seq<EnvVar>, agentEnvs: StringMap, deployment: string,
                             r: seq<Container>, name: string)
    requires Modified(named, labelEnvs, agentEnvs, deployment, r)
    ensures AnyMounts(r, name) <==>
            || AnyMounts(named, name)
            || (IsAgentMount(deployment, name) && exists i :: 0 <= i < |named| && !MountsAgent(named[i].mounts))
  {
    forall i | 0 <= i < |named|
      ensures MountsName(r[i].mounts, name) <==>
              MountsName(named[i].mounts, name) || (IsAgentMount(deployment, name) && !MountsAgent(named[i].mounts))
    {
      assert ModifiedAt(named, labelEnvs, agentEnvs, deployment, r, i);
      MountsAfter(named[i].mounts, EMPTY_DIR_MOUNT_PATH, deployment, name);
    }
  }

  lemma InitContainersMountAfter(cfg: PodConfig, deployment: string, pod: Pod, r: seq<Container>, name: string)
    requires InitContainerAdded(cfg, deployment, pod, r)
    ensures AnyMounts(r, name) <==>
            || AnyMounts(pod.initContainers, name)
            || (IsAgentMount(deployment, name) && !HasContainer(pod.initContainers, cfg.initContainerName))
  {
    var n := |pod.initContainers|;
    if |r| == n + 1 {
      MountsAfter([], INIT_EMPTY_DIR_MOUNT_PATH, deployment, name);
      assert forall i :: 0 <= i < n ==> r[i] == pod.initContainers[i] by {
        assert forall i :: 0 <= i < n ==> r[..n][i] == r[i];
      }
    }
  }

  /** The mounts after the injection are the kept ones and, if any are added, the agent's two. */
  lemma MountedAfter(cfg: PodConfig, deployment: string, pod: Pod, r: Pod, name: string)
    requires AgentInjected(cfg, deployment, pod, r)
    ensures Mounted(r, name) <==> Kept(pod, name) || (IsAgentMount(deployment, name) && AddsMounts(cfg, pod))
  {
    var mid, envs := Stages(cfg, deployment, pod, r);
    NamedKeepsMounts(pod.containers, mid.containers);
    ContainersMountAfter(Named(mid.containers), envs, cfg.agent.envs, deployment, r.containers, name);
    InitContainersMountAfter(cfg, deployment, mid, r.initContainers, name);
    SameMountsMountTheSame(Named(pod.containers), Named(mid.containers), name);
  }

  lemma SameMountsMountTheSame(a: seq<Container>, b: seq<Container>, name: string)
    requires SameMounts(a, b)
    ensures AnyMounts(a, name) <==> AnyMounts(b, name)
    ensures (exists i :: 0 <= i < |a| && !MountsAgent(a[i].mounts)) <==>
            (exists i :: 0 <= i < |b| && !MountsAgent(b[i].mounts))
  {
    if AnyMounts(a, name) {
      var i :| 0 <= i < |a| && MountsName(a[i].mounts, name);
      assert MountsName(b[i].mounts, name);
    }
    if AnyMounts(b, name) {
      var i :| 0 <= i < |b| && MountsName(b[i].mounts, name);
      assert MountsName(a[i].mounts, name);
    }
  }

  lemma NamesOneAppend(volumes: seq<Volume>, v: Volume, name: string)
    ensures HasVolume(volumes + [v], name) <==> HasVolume(volumes, name) || v.name == name
    ensures NamesOne(volumes + [v], name) <==>
            if v.name == name then !HasVolume(volumes, name) else NamesOne(volumes, name)
  {
    var all := volumes + [v];
    assert all[|volumes|] == v;
    assert forall i :: 0 <= i < |volumes| ==> all[i] == volumes[i];
  }

  lemma VolumesAfter(volumes: seq<Volume>, deployment: string, name: string)
    requires !HasVolume(volumes, AGENT_VOLUME_NAME)
    ensures var after := AddPodVolume(volumes, deployment);
      NamesOne(after, name) <==>
        if name == AGENT_VOLUME_NAME then true
        else if name == ConfigVolumeName(deployment) then !HasVolume(volumes, name)
        else NamesOne(volumes, name)
  {
    TheTwoVolumesDiffer(deployment);
    var first := AddPodVolume(volumes, deployment)[|volumes|];
    var second := AddPodVolume(volumes, deployment)[|volumes| + 1];
    assert AddPodVolume(volumes, deployment) == (volumes + [first]) + [second];
    NamesOneAppend(volumes, first, name);
    NamesOneAppend(volumes + [first], second, name);
  }

  lemma KeptWasMounted(pod: Pod, name: string)
    requires Kept(pod, name)
    ensures Mounted(pod, name)
  {
    if AnyMounts(Named(pod.containers), name) {
      var i :| 0 <= i < |Named(pod.containers)| && MountsName(Named(pod.containers)[i].mounts, name);
      NamedAre(pod.containers, Named(pod.containers)[i]);
      var j :| 0 <= j < |pod.containers| && pod.containers[j] == Named(pod.containers)[i];
      assert MountsName(pod.containers[j].mounts, name);
    }
  }

  /** Exactly when an injection leaves every mount naming exactly one volume. With the agent volume there already,
      the config volume must be there too unless no mount is added; without it, the config volume must be absent
      too unless nothing mounts it. */
  lemma MountsStayClosedIff(cfg: PodConfig, deployment: string, pod: Pod, r: Pod)
    requires AgentInjected(cfg, deployment, pod, r) && MountClosed(pod)
    ensures MountClosed(r) <==>
      var hasConfig := HasVolume(pod.volumes, ConfigVolumeName(deployment));
      if HasVolume(pod.volumes, AGENT_VOLUME_NAME)
      then (AddsMounts(cfg, pod) ==> NamesOne(pod.volumes, AGENT_VOLUME_NAME)
                                     && NamesOne(pod.volumes, ConfigVolumeName(deployment)))
      else hasConfig ==> !AddsMounts(cfg, pod) && !Kept(pod, ConfigVolumeName(deployment))
  {
    var cm := ConfigVolumeName(deployment);
    TheTwoVolumesDiffer(deployment);
    var mid, envs := Stages(cfg, deployment, pod, r);
    forall name
      ensures Mounted(r, name) <==> Kept(pod, name) || (IsAgentMount(deployment, name) && AddsMounts(cfg, pod))
      ensures Kept(pod, name) ==> NamesOne(pod.volumes, name)
      ensures !HasVolume(pod.volumes, AGENT_VOLUME_NAME) ==>
        (NamesOne(r.volumes, name) <==>
          if name == AGENT_VOLUME_NAME then true else if name == cm then !HasVolume(pod.volumes, cm)
          else NamesOne(pod.volumes, name))
    {
      MountedAfter(cfg, deployment, pod, r, name);
      if Kept(pod, name) {
        KeptWasMounted(pod, name);
      }
      if !HasVolume(pod.volumes, AGENT_VOLUME_NAME) {
        VolumesAfter(pod.volumes, deployment, name);
      }
    }
    assert MountClosed(r) ==> (Mounted(r, cm) ==> NamesOne(r.volumes, cm));
    assert MountClosed(r) ==> (Mounted(r, AGENT_VOLUME_NAME) ==> NamesOne(r.volumes, AGENT_VOLUME_NAME));
  }

  /** With distinct volume names and the two volumes both present or both absent, mounts always stay closed. */
  lemma MountsStayClosed(cfg: PodConfig, deployment: string, pod: Pod, r: Pod)
    requires AgentInjected(cfg, deployment, pod, r) && DistinctVolumes(pod.volumes)
    requires forall name :: Mounted(pod, name) ==> HasVolume(pod.volumes, name)
    requires HasVolume(pod.volumes, AGENT_VOLUME_NAME) <==> HasVolume(pod.volumes, ConfigVolumeName(deployment))
    ensures MountClosed(r)
  {
    assert forall name :: HasVolume(pod.volumes, name) ==> NamesOne(pod.volumes, name);
    MountsStayClosedIff(cfg, deployment, pod, r);
  }
}
