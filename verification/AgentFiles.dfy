/** Where the agent and its configuration appear in an injected pod: the containers that mount them, at which paths, and
    the two volumes behind the mounts. */
module AgentFiles {
  import opened Prelude
  import opened Workload
  import opened EnvMerge
  import opened PodInjection

  /** The configuration files, each mounted by its own name under one directory. */
  function ConfigMounts(deployment: string): seq<VolumeMount> {
    [VolumeMount(deployment + "-live-configmap", "/joylive/config/config.yaml", "config.yaml"),
     VolumeMount(deployment + "-live-configmap", "/joylive/config/bootstrap.properties", "bootstrap.properties"),
     VolumeMount(deployment + "-live-configmap", "/joylive/config/logback.xml", "logback.xml")]
  }

  function AgentMountAt(path: string): VolumeMount {
    VolumeMount("joylive-agent-dir", path, "")
  }

  lemma MountsAsWritten(path: string, deployment: string)
    ensures CreateAgentVolumeMounts(path, deployment) == [AgentMountAt(path)] + ConfigMounts(deployment)
  {
    assert "/joylive/config" + "/" == "/joylive/config/";
    assert "/joylive/config/" + "config.yaml" == "/joylive/config/config.yaml";
    assert "/joylive/config/" + "bootstrap.properties" == "/joylive/config/bootstrap.properties";
    assert "/joylive/config/" + "logback.xml" == "/joylive/config/logback.xml";
  }

  /** What becomes of a container besides its env. */
  predicate BecomesMounted(c: Container, deployment: string, r: Container) {
    && r.name == c.name && r.image == c.image
    && r.mounts == if exists i :: 0 <= i < |c.mounts| && c.mounts[i].name == "joylive-agent-dir" then c.mounts
                   else c.mounts + [AgentMountAt("/joylive")] + ConfigMounts(deployment)
  }

  /** Each named container stays and mounts the agent. */
  lemma NamedContainerStays(cfg: PodConfig, deployment: string, pod: Pod, r: Pod, i: nat)
    requires AgentInjected(cfg, deployment, pod, r) && i < |pod.containers| && pod.containers[i].name != ""
    ensures exists j :: 0 <= j < |r.containers| && BecomesMounted(pod.containers[i], deployment, r.containers[j])
  {
    var mid, envs := Stages(cfg, deployment, pod, r);
    var named := Named(mid.containers);
    NamedAre(mid.containers, mid.containers[i]);
    var j :| 0 <= j < |named| && named[j] == mid.containers[i];
    ModifiedMounts(named, envs, cfg, deployment, r.containers, j);
    assert BecomesMounted(pod.containers[i], deployment, r.containers[j]);
  }

  /** No other container is in the injected pod. */
  lemma OnlyNamedContainersStay(cfg: PodConfig, deployment: string, pod: Pod, r: Pod, j: nat)
    requires AgentInjected(cfg, deployment, pod, r) && j < |r.containers|
    ensures exists i :: 0 <= i < |pod.containers| && pod.containers[i].name != ""
                        && BecomesMounted(pod.containers[i], deployment, r.containers[j])
  {
    var mid, envs := Stages(cfg, deployment, pod, r);
    var named := Named(mid.containers);
    NamedAre(mid.containers, named[j]);
    var i :| 0 <= i < |mid.containers| && mid.containers[i] == named[j];
    ModifiedMounts(named, envs, cfg, deployment, r.containers, j);
    assert BecomesMounted(pod.containers[i], deployment, r.containers[j]);
  }

  lemma ModifiedMounts(named: seq<Container>, envs: seq<EnvVar>, cfg: PodConfig, deployment: string, r: seq<Container>, j: nat)
    requires Modified(named, envs, cfg.agent.envs, deployment, r) && j < |r|
    ensures BecomesMounted(named[j], deployment, r[j])
  {
    ModifiedShape(named, envs, cfg.agent.envs, deployment, r, j);
    MountsAsWritten("/joylive", deployment);
    assert named[j].mounts + ([AgentMountAt("/joylive")] + ConfigMounts(deployment)) ==
           named[j].mounts + [AgentMountAt("/joylive")] + ConfigMounts(deployment);
  }

  /** An empty directory for the agent and the deployment's own ConfigMap are added together, unless a volume has the
      directory's name already; the ConfigMap's items are exactly the files that are mounted. The init container that
      fills the directory mounts it at its own path. */
  lemma AgentVolumes(cfg: PodConfig, deployment: string, pod: Pod, r: Pod)
    requires AgentInjected(cfg, deployment, pod, r)
    ensures var files := ConfigMounts(deployment);
      r.volumes ==
        if exists i :: 0 <= i < |pod.volumes| && pod.volumes[i].name == "joylive-agent-dir" then pod.volumes
        else pod.volumes + [
          Volume("joylive-agent-dir", EmptyDir),
          Volume(deployment + "-live-configmap",
                 FromConfigMap(deployment + "-live-configmap", [files[0].subPath, files[1].subPath, files[2].subPath]))]
    ensures if exists i :: 0 <= i < |pod.initContainers| && pod.initContainers[i].name == cfg.initContainerName
            then r.initContainers == pod.initContainers
            else |r.initContainers| == |pod.initContainers| + 1
                 && r.initContainers[|pod.initContainers|].mounts == [AgentMountAt("/agent")] + ConfigMounts(deployment)
  {
    var mid, envs := Stages(cfg, deployment, pod, r);
    MountsAsWritten("/agent", deployment);
  }
}
