/** What the agent's init container runs with: its image tag, and its env vars down to the Java options it takes over
    from the pod. */
module InitContainers {
  import opened Prelude
  import opened RuleMatching
  import opened Workload
  import opened EnvAppend
  import opened EnvMerge
  import opened PodInjection
  import opened PodTheorems
  import opened PodPrecedence

  /** The tag is the version the injected pod's label asks for, if that is cached, enabled and its ConfigMap is cached;
      otherwise it is the default agent's. */
  lemma ImageTag(cfg: PodConfig, deployment: string, pod: Pod, r: Pod, version: string)
    requires AgentInjected(cfg, deployment, pod, r) && !HasContainer(pod.initContainers, cfg.initContainerName)
    requires version == if "x-live-version" in r.labels && r.labels["x-live-version"] in cfg.versions
                          && cfg.versions[r.labels["x-live-version"]].enable
                          && cfg.versions[r.labels["x-live-version"]].configMapName in cfg.maps
                        then cfg.versions[r.labels["x-live-version"]].version
                        else cfg.agent.version
    ensures |r.initContainers| == |pod.initContainers| + 1 && r.initContainers[..|pod.initContainers|] == pod.initContainers
    ensures r.initContainers[|pod.initContainers|].image == cfg.agent.image + ":" + version
    ensures r.initContainers[|pod.initContainers|].name == cfg.initContainerName
  {
    var mid, envs := Stages(cfg, deployment, pod, r);
  }

  function InitEnv(pod: Pod, r: Pod): seq<EnvVar>
    requires |r.initContainers| == |pod.initContainers| + 1
  {
    r.initContainers[|pod.initContainers|].env
  }

  /** The init container has exactly the agent's env vars, once each, and all but one with the agent's values. */
  lemma InitEnvIsTheAgents(cfg: PodConfig, deployment: string, pod: Pod, r: Pod, k: string)
    requires AgentInjected(cfg, deployment, pod, r) && !HasContainer(pod.initContainers, cfg.initContainerName)
    ensures |r.initContainers| == |pod.initContainers| + 1 && DistinctNames(InitEnv(pod, r))
    ensures HasEnv(InitEnv(pod, r), k) <==> k in cfg.agent.envs
    ensures k in cfg.agent.envs && k != "JAVA_TOOL_OPTIONS" ==>
              LastEnv(InitEnv(pod, r), k) == PlainEnv(k, cfg.agent.envs[k])
  {
    var mid, envs := Stages(cfg, deployment, pod, r);
    ToMapIsLast(InitEnv(pod, r), k);
  }

  // ----- the Java options -----

  /** Entry j of container i is the first of that name in the whole list. */
  predicate IsFirst(containers: seq<Container>, name: string, i: int, j: int) {
    && 0 <= i < |containers| && 0 <= j < |containers[i].env| && containers[i].env[j].name == name
    && (forall l :: 0 <= l < i ==> !HasEnv(containers[l].env, name))
    && (forall l :: 0 <= l < j ==> containers[i].env[l].name != name)
  }

  /** Reading `options` for `name` from the containers: the value of the first entry, or nothing without one. */
  ghost predicate ReadsFirst(containers: seq<Container>, name: string, options: string) {
    && (forall i, j :: IsFirst(containers, name, i, j) ==> options == containers[i].env[j].value)
    && ((forall i :: 0 <= i < |containers| ==> !HasEnv(containers[i].env, name)) ==> options == "")
  }

  lemma {:induction false} FirstEnvIsFirst(env: seq<EnvVar>, name: string, j: nat)
    requires j < |env| && env[j].name == name && forall l :: 0 <= l < j ==> env[l].name != name
    ensures HasEnv(env, name) && FirstEnv(env, name) == env[j]
  {
    if j > 0 {
      SkipFirst(env, name);
      FirstEnvIsFirst(env[1..], name, j - 1);
    }
  }

  lemma {:induction false} FirstValueOfFirst(containers: seq<Container>, name: string, i: nat, j: nat)
    requires IsFirst(containers, name, i, j)
    ensures FirstValue(containers, name) == containers[i].env[j].value
  {
    if i == 0 {
      FirstEnvIsFirst(containers[0].env, name, j);
    } else {
      FirstValueOfFirst(containers[1..], name, i - 1, j);
    }
  }

  lemma {:induction false} FirstValueOfNone(containers: seq<Container>, name: string)
    requires forall i :: 0 <= i < |containers| ==> !HasEnv(containers[i].env, name)
    ensures FirstValue(containers, name) == ""
  {
    if containers != [] {
      FirstValueOfNone(containers[1..], name);
    }
  }

  lemma FirstValueReadsFirst(containers: seq<Container>, name: string)
    ensures ReadsFirst(containers, name, FirstValue(containers, name))
  {
    forall i, j | IsFirst(containers, name, i, j) ensures FirstValue(containers, name) == containers[i].env[j].value {
      FirstValueOfFirst(containers, name, i, j);
    }
    if forall i :: 0 <= i < |containers| ==> !HasEnv(containers[i].env, name) {
      FirstValueOfNone(containers, name);
    }
  }

  /** The pod's own Java options are appended to the agent's: those of the first entry in the first container that has
      one, named or not. Where container 0 has none, a rule that sets them comes before the later containers. */
  lemma JavaOptionsJoined(cfg: PodConfig, deployment: string, pod: Pod, r: Pod) returns (options: string)
    requires AgentInjected(cfg, deployment, pod, r) && !HasContainer(pod.initContainers, cfg.initContainerName)
    requires "JAVA_TOOL_OPTIONS" in cfg.agent.envs
    ensures |r.initContainers| == |pod.initContainers| + 1 && HasEnv(InitEnv(pod, r), "JAVA_TOOL_OPTIONS")
    ensures LastEnv(InitEnv(pod, r), "JAVA_TOOL_OPTIONS") ==
            PlainEnv("JAVA_TOOL_OPTIONS", cfg.agent.envs["JAVA_TOOL_OPTIONS"] + " " + options)
    ensures pod.containers != []
    ensures if HasEnv(pod.containers[0].env, "JAVA_TOOL_OPTIONS")
               || !SomeRuleSets(cfg.rules, pod.labels, Envs, "JAVA_TOOL_OPTIONS")
            then ReadsFirst(pod.containers, "JAVA_TOOL_OPTIONS", options)
            else exists n :: Sets(cfg.rules, pod.labels, Envs, n, "JAVA_TOOL_OPTIONS")
                             && options == cfg.rules[n].envs["JAVA_TOOL_OPTIONS"]
  {
    var mid, envs := Stages(cfg, deployment, pod, r);
    options := FirstValue(mid.containers, "JAVA_TOOL_OPTIONS");
    FirstValueReadsFirst(mid.containers, "JAVA_TOOL_OPTIONS");
    ToMapIsLast(InitEnv(pod, r), "JAVA_TOOL_OPTIONS");
    RulesOnlyFillGaps(cfg, pod, mid, "JAVA_TOOL_OPTIONS");
    if HasEnv(mid.containers[0].env, "JAVA_TOOL_OPTIONS") && !HasEnv(pod.containers[0].env, "JAVA_TOOL_OPTIONS") {
      RuleEnvComesFirst(cfg, pod, mid, "JAVA_TOOL_OPTIONS");
    } else {
      SameFirst(cfg, pod, mid, "JAVA_TOOL_OPTIONS", options);
    }
  }

  /** The rules put an entry into container 0 at most once, and it is then the first in the pod. */
  lemma RuleEnvComesFirst(cfg: PodConfig, pod: Pod, mid: Pod, k: string)
    requires RulesApplied(cfg, pod, mid) && !HasEnv(pod.containers[0].env, k) && HasEnv(mid.containers[0].env, k)
    ensures exists n :: Sets(cfg.rules, pod.labels, Envs, n, k) && FirstValue(mid.containers, k) == cfg.rules[n].envs[k]
  {
    RuleEnvInFirst(cfg, pod, mid, k);
    var add :| Appended(pod.containers[0].env, add, mid.containers[0].env);
    AddedOnce(pod.containers[0].env, add, mid.containers[0].env, k);
  }

  lemma AddedOnce(own: seq<EnvVar>, add: StringMap, env: seq<EnvVar>, k: string)
    requires Appended(own, add, env) && !HasEnv(own, k) && HasEnv(env, k)
    ensures FirstEnv(env, k) == LastEnv(env, k)
  {
    var j: nat :| j < |env| && env[j] == LastEnv(env, k) && env[j].name == k;
    var tail := env[|own|..];
    forall l | 0 <= l < j ensures env[l].name != k {
      if l < |own| {
        assert env[l] == own[l];
      } else {
        assert tail[l - |own|] == env[l] && tail[j - |own|] == env[j];
      }
    }
    FirstEnvIsFirst(env, k, j);
  }

  /** Where the rules add no such entry to container 0, the first one in the pod is where it was. */
  lemma SameFirst(cfg: PodConfig, pod: Pod, mid: Pod, k: string, options: string)
    requires RulesApplied(cfg, pod, mid) && ReadsFirst(mid.containers, k, options)
    requires HasEnv(mid.containers[0].env, k) ==> HasEnv(pod.containers[0].env, k)
    ensures ReadsFirst(pod.containers, k, options)
  {
    assert pod.containers[0].env <= mid.containers[0].env;
    assert forall i :: 0 < i < |pod.containers| ==> mid.containers[i] == pod.containers[i];
    forall i, j | IsFirst(pod.containers, k, i, j) ensures options == pod.containers[i].env[j].value {
      assert mid.containers[i].env[j] == pod.containers[i].env[j];
      assert forall l :: 0 <= l < j ==> mid.containers[i].env[l] == pod.containers[i].env[l];
      assert HasEnv(pod.containers[i].env, k);
      assert IsFirst(mid.containers, k, i, j);
    }
  }
}
