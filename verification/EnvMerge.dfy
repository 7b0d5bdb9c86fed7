/** modifyPodContainer of pkg/mutation/mutation_pod.go: an env merge that accumulates along the container list,
    and the agent's volume mounts. */
module EnvMerge {
  import opened Prelude
  import opened Workload

  const AGENT_VOLUME_NAME := "joylive-agent-dir"
  const CONFIG_MOUNT_PATH := "/joylive/config"
  const EMPTY_DIR_MOUNT_PATH := "/joylive"
  const AGENT_CONFIG := "config.yaml"
  const BOOT_CONFIG := "bootstrap.properties"
  const LOG_CONFIG := "logback.xml"

  function ConfigVolumeName(deployment: string): string {
    deployment + "-live-configmap"
  }

  function CreateAgentVolumeMounts(path: string, deployment: string): seq<VolumeMount> {
    [ VolumeMount(AGENT_VOLUME_NAME, path, ""),
      VolumeMount(ConfigVolumeName(deployment), CONFIG_MOUNT_PATH + "/" + AGENT_CONFIG, AGENT_CONFIG),
      VolumeMount(ConfigVolumeName(deployment), CONFIG_MOUNT_PATH + "/" + BOOT_CONFIG, BOOT_CONFIG),
      VolumeMount(ConfigVolumeName(deployment), CONFIG_MOUNT_PATH + "/" + LOG_CONFIG, LOG_CONFIG) ]
  }

  predicate MountsAgent(mounts: seq<VolumeMount>) {
    exists i :: 0 <= i < |mounts| && mounts[i].name == AGENT_VOLUME_NAME
  }

  /** A container keeps its mounts, and gains the agent's unless it mounts the agent volume already. */
  function WithAgentMounts(mounts: seq<VolumeMount>, deployment: string): seq<VolumeMount> {
    if MountsAgent(mounts) then mounts else mounts + CreateAgentVolumeMounts(EMPTY_DIR_MOUNT_PATH, deployment)
  }

  // ----- specification -----

  /** Containers without a name are dropped. */
  function Named(containers: seq<Container>): (r: seq<Container>)
    ensures forall i :: 0 <= i < |r| ==> r[i].name != ""
    ensures (forall i :: 0 <= i < |containers| ==> containers[i].name != "") ==> r == containers
  {
    if containers == [] then []
    else
      var n := |containers| - 1;
      assert containers == containers[..n] + [containers[n]];
      Named(containers[..n]) + if containers[n].name != "" then [containers[n]] else []
  }

  lemma {:induction false} NamedAre(containers: seq<Container>, c: Container)
    ensures c in Named(containers) <==> c in containers && c.name != ""
  {
    if containers != [] {
      NamedAre(containers[..|containers| - 1], c);
    }
  }

  function AllEnv(containers: seq<Container>): seq<EnvVar> {
    if containers == [] then []
    else AllEnv(containers[..|containers| - 1]) + containers[|containers| - 1].env
  }

  /** The agent configuration adds a name only when nothing defines it yet; an existing value stays as it is. */
  function WithAgentEnvs(m: EnvMap, agentEnvs: StringMap): EnvMap {
    (map k | k in agentEnvs :: PlainEnv(k, agentEnvs[k])) + m
  }

  /** One resulting container: its env holds each name once, in any order, with the accumulated values. */
  ghost predicate ModifiedContainer(c: Container, accumulated: seq<EnvVar>, agentEnvs: StringMap,
                                    deployment: string, r: Container) {
    && r.name == c.name && r.image == c.image
    && r.mounts == WithAgentMounts(c.mounts, deployment)
    && DistinctNames(r.env)
    && ToMap(r.env) == WithAgentEnvs(ToMap(accumulated), agentEnvs)
  }

  ghost predicate Modified(named: seq<Container>, labelEnvs: seq<EnvVar>, agentEnvs: StringMap,
                           deployment: string, r: seq<Container>) {
    && |r| == |named|
    && forall i :: 0 <= i < |r| ==> ModifiedAt(named, labelEnvs, agentEnvs, deployment, r, i)
  }

  ghost predicate ModifiedAt(named: seq<Container>, labelEnvs: seq<EnvVar>, agentEnvs: StringMap,
                             deployment: string, r: seq<Container>, i: int)
    requires 0 <= i < |named| == |r|
  {
    ModifiedContainer(named[i], labelEnvs + AllEnv(named[..i + 1]), agentEnvs, deployment, r[i])
  }

  // ----- the routine -----

  method BuildEnvMap(envs: seq<EnvVar>) returns (envMap: EnvMap)
    ensures envMap == ToMap(envs)
  {
    envMap := map[];
    for i := 0 to |envs|
      invariant envMap == ToMap(envs[..i])
    {
      assert envs[..i + 1][..i] == envs[..i];
      envMap := envMap[envs[i].name := envs[i]];
    }
    assert envs[..|envs|] == envs;
  }

  method AddAgentEnvs(m: EnvMap, agentEnvs: StringMap) returns (envMap: EnvMap)
    ensures envMap == WithAgentEnvs(m, agentEnvs)
  {
    envMap := m;
    var todo := agentEnvs.Keys;
    AgentEnvsToCome(m, agentEnvs);
    while todo != {}
      invariant todo <= agentEnvs.Keys
      invariant envMap == WithAgentEnvs(m, agentEnvs) - (todo - m.Keys)
      decreases |todo|
    {
      var key :| key in todo;
      AgentEnvNext(m, agentEnvs, todo, key);
      envMap := AddAgentEnv(envMap, key, agentEnvs[key]);
      todo := todo - {key};
    }
  }

  lemma AgentEnvsToCome(m: EnvMap, agentEnvs: StringMap)
    ensures WithAgentEnvs(m, agentEnvs) - (agentEnvs.Keys - m.Keys) == m
  {
  }

  lemma AgentEnvNext(m: EnvMap, agentEnvs: StringMap, todo: set<string>, key: string)
    requires key in todo && todo <= agentEnvs.Keys
    ensures var all := WithAgentEnvs(m, agentEnvs);
      var before, after := all - (todo - m.Keys), all - ((todo - {key}) - m.Keys);
      after == if key in before then before else before[key := PlainEnv(key, agentEnvs[key])]
  {
    var all := WithAgentEnvs(m, agentEnvs);
    if key in m {
      assert (todo - {key}) - m.Keys == todo - m.Keys;
    } else {
      assert (todo - {key}) - m.Keys == (todo - m.Keys) - {key};
      KeepOne(all, todo - m.Keys, key);
    }
  }

  /** One entry of the agent configuration: an existing env var keeps its value. */
  method AddAgentEnv(m: EnvMap, key: string, value: string) returns (envMap: EnvMap)
    ensures envMap == if key in m then m else m[key := PlainEnv(key, value)]
  {
    envMap := m;
    if key in envMap {
      // the concatenated value goes to a copy that is thrown away
      var envVar := envMap[key];
      envVar := envVar.(value := envVar.value + " " + value);
    } else {
      envMap := envMap[key := PlainEnv(key, value)];
    }
  }

  /** The values of an env map, in any order. */
  method ListEnvs(envMap: EnvMap) returns (env: seq<EnvVar>)
    requires forall k :: k in envMap ==> envMap[k].name == k
    ensures DistinctNames(env) && ToMap(env) == envMap
  {
    env := [];
    var todo := envMap.Keys;
    while todo != {}
      invariant todo <= envMap.Keys
      invariant DistinctNames(env) && ToMap(env) == envMap - todo
      decreases |todo|
    {
      var k :| k in todo;
      ListNext(envMap, todo, env, k);
      env := env + [envMap[k]];
      todo := todo - {k};
    }
  }

  method ScanForAgentMount(mounts: seq<VolumeMount>) returns (found: bool)
    ensures found <==> MountsAgent(mounts)
  {
    for i := 0 to |mounts|
      invariant forall j :: 0 <= j < i ==> mounts[j].name != AGENT_VOLUME_NAME
    {
      if mounts[i].name == AGENT_VOLUME_NAME {
        return true;
      }
    }
    found := false;
  }

  method ModifyPodContainer(containers: seq<Container>, labelEnvs: seq<EnvVar>, agentEnvs: StringMap,
                            deployment: string) returns (r: seq<Container>)
    ensures Modified(Named(containers), labelEnvs, agentEnvs, deployment, r)
  {
    r := [];
    var envs := labelEnvs;
    for i := 0 to |containers|
      invariant Modified(Named(containers[..i]), labelEnvs, agentEnvs, deployment, r)
      invariant envs == labelEnvs + AllEnv(Named(containers[..i]))
    {
      ghost var seen := containers[..i];
      TakeNext(containers, i);
      NamedGrows(seen, containers[i], labelEnvs);
      if containers[i].name != "" {
        envs := envs + containers[i].env;
        var container := ModifyOne(containers[i], envs, agentEnvs, deployment);
        ModifiedGrows(Named(seen), containers[i], labelEnvs, agentEnvs, deployment, r, container);
        r := r + [container];
      }
    }
    assert containers[..|containers|] == containers;
  }

  lemma NamedGrows(containers: seq<Container>, c: Container, labelEnvs: seq<EnvVar>)
    ensures Named(containers + [c]) == if c.name != "" then Named(containers) + [c] else Named(containers)
    ensures labelEnvs + AllEnv(Named(containers) + [c]) == labelEnvs + AllEnv(Named(containers)) + c.env
  {
    assert (containers + [c])[..|containers|] == containers;
    assert (Named(containers) + [c])[..|Named(containers)|] == Named(containers);
  }

  /** The body of the loop for one named container and the env accumulated so far. */
  method ModifyOne(c: Container, envs: seq<EnvVar>, agentEnvs: StringMap, deployment: string) returns (r: Container)
    ensures ModifiedContainer(c, envs, agentEnvs, deployment, r)
  {
    var envMap := BuildEnvMap(envs);
    envMap := AddAgentEnvs(envMap, agentEnvs);
    var env := ListEnvs(envMap);
    r := c.(env := env);
    var mounted := ScanForAgentMount(c.mounts);
    if !mounted {
      r := r.(mounts := c.mounts + CreateAgentVolumeMounts(EMPTY_DIR_MOUNT_PATH, deployment));
    }
  }

  lemma ModifiedGrows(named: seq<Container>, c: Container, labelEnvs: seq<EnvVar>, agentEnvs: StringMap,
                      deployment: string, r: seq<Container>, last: Container)
    requires Modified(named, labelEnvs, agentEnvs, deployment, r)
    requires ModifiedContainer(c, labelEnvs + AllEnv(named + [c]), agentEnvs, deployment, last)
    ensures Modified(named + [c], labelEnvs, agentEnvs, deployment, r + [last])
  {
    var longer := named + [c];
    forall i | 0 <= i <= |r|
      ensures ModifiedAt(longer, labelEnvs, agentEnvs, deployment, r + [last], i)
    {
      if i < |r| {
        assert ModifiedAt(named, labelEnvs, agentEnvs, deployment, r, i);
        assert longer[..i + 1] == named[..i + 1];
      } else {
        assert longer[..i + 1] == longer;
      }
    }
  }

  lemma ModifiedShape(named: seq<Container>, labelEnvs: seq<EnvVar>, agentEnvs: StringMap, deployment: string,
                      r: seq<Container>, i: nat)
    requires Modified(named, labelEnvs, agentEnvs, deployment, r) && i < |named|
    ensures r[i].name == named[i].name && r[i].mounts == WithAgentMounts(named[i].mounts, deployment)
    ensures r[i].image == named[i].image
  {
    assert ModifiedAt(named, labelEnvs, agentEnvs, deployment, r, i);
  }

  // ----- the precedence it implements -----

  /** Container j is the nearest one up to i that defines the name. */
  predicate Nearest(named: seq<Container>, i: int, j: int, name: string)
    requires 0 <= i < |named|
  {
    0 <= j <= i && HasEnv(named[j].env, name) && forall l :: j < l <= i ==> !HasEnv(named[l].env, name)
  }

  predicate DefinedUpTo(named: seq<Container>, i: int, name: string)
    requires -1 <= i < |named|
  {
    exists j :: 0 <= j <= i && HasEnv(named[j].env, name)
  }

  lemma {:induction false} NearestExists(named: seq<Container>, i: int, name: string) returns (j: int)
    requires 0 <= i < |named| && DefinedUpTo(named, i, name)
    ensures Nearest(named, i, j, name)
    decreases i
  {
    if HasEnv(named[i].env, name) {
      j := i;
    } else {
      j := NearestExists(named, i - 1, name);
    }
  }

  /** The nearest container decides what m says about a name, else the label envs. */
  ghost predicate DecidedByNearest(m: EnvMap, named: seq<Container>, i: int, labelEnvs: seq<EnvVar>, name: string)
    requires -1 <= i < |named|
  {
    && (name in m <==> DefinedUpTo(named, i, name) || HasEnv(labelEnvs, name))
    && (!DefinedUpTo(named, i, name) && HasEnv(labelEnvs, name) ==> m[name] == LastEnv(labelEnvs, name))
    && (i >= 0 ==> forall j :: Nearest(named, i, j, name) ==> name in m && m[name] == LastEnv(named[j].env, name))
  }

  /** What the list that grows along the containers says about a name. */
  lemma {:induction false} AccumulatedPrecedence(named: seq<Container>, i: int, labelEnvs: seq<EnvVar>, name: string)
    requires -1 <= i < |named|
    ensures DecidedByNearest(ToMap(labelEnvs + AllEnv(named[..i + 1])), named, i, labelEnvs, name)
    decreases i
  {
    if i == -1 {
      assert labelEnvs + AllEnv(named[..0]) == labelEnvs;
      ToMapIsLast(labelEnvs, name);
    } else {
      AccumulatedPrecedence(named, i - 1, labelEnvs, name);
      AllEnvNext(named, i, labelEnvs);
      ToMapConcat(labelEnvs + AllEnv(named[..i]), named[i].env);
      NextDecides(ToMap(labelEnvs + AllEnv(named[..i])), named, i, labelEnvs, name);
    }
  }

  lemma AllEnvNext(named: seq<Container>, i: nat, labelEnvs: seq<EnvVar>)
    requires i < |named|
    ensures labelEnvs + AllEnv(named[..i + 1]) == (labelEnvs + AllEnv(named[..i])) + named[i].env
  {
    assert named[..i + 1][..i] == named[..i];
  }

  lemma NextDecides(m: EnvMap, named: seq<Container>, i: nat, labelEnvs: seq<EnvVar>, name: string)
    requires i < |named| && DecidedByNearest(m, named, i - 1, labelEnvs, name)
    ensures DecidedByNearest(m + ToMap(named[i].env), named, i, labelEnvs, name)
  {
    ToMapIsLast(named[i].env, name);
    assert DefinedUpTo(named, i, name) <==> DefinedUpTo(named, i - 1, name) || HasEnv(named[i].env, name);
    var next := m + ToMap(named[i].env);
    forall j | Nearest(named, i, j, name) ensures name in next && next[name] == LastEnv(named[j].env, name) {
      NearestNext(named, i, j, name);
    }
  }

  lemma NearestNext(named: seq<Container>, i: nat, j: int, name: string)
    requires i < |named| && Nearest(named, i, j, name)
    ensures if HasEnv(named[i].env, name) then j == i else i > 0 && Nearest(named, i - 1, j, name)
  {
  }

  /** A container's own last value of a name is what it ends up with. */
  lemma OwnValueWins(named: seq<Container>, labelEnvs: seq<EnvVar>, agentEnvs: StringMap, deployment: string,
                     r: seq<Container>, i: nat, name: string)
    requires Modified(named, labelEnvs, agentEnvs, deployment, r) && i < |r| && HasEnv(named[i].env, name)
    ensures name in ToMap(r[i].env) && ToMap(r[i].env)[name] == LastEnv(named[i].env, name)
  {
    assert ModifiedAt(named, labelEnvs, agentEnvs, deployment, r, i);
    assert Nearest(named, i, i, name);
    AccumulatedPrecedence(named, i, labelEnvs, name);
  }

  /** The accumulating merge is a precedence rule. In container i every name appears once; its value is the last
      one in the nearest container up to i that defines it, else in the label envs, else the agent
      configuration's; and no other name appears. */
  lemma MergeIsPrecedence(named: seq<Container>, labelEnvs: seq<EnvVar>, agentEnvs: StringMap, deployment: string,
                          r: seq<Container>, i: nat, name: string)
    requires Modified(named, labelEnvs, agentEnvs, deployment, r) && i < |r|
    ensures DistinctNames(r[i].env)
    ensures HasEnv(r[i].env, name) <==>
            DefinedUpTo(named, i, name) || HasEnv(labelEnvs, name) || name in agentEnvs
    ensures HasEnv(r[i].env, name) ==>
      var value := LastEnv(r[i].env, name);
      if DefinedUpTo(named, i, name) then
        exists j :: Nearest(named, i, j, name) && value == LastEnv(named[j].env, name)
      else if HasEnv(labelEnvs, name) then value == LastEnv(labelEnvs, name)
      else value == PlainEnv(name, agentEnvs[name])
  {
    assert ModifiedAt(named, labelEnvs, agentEnvs, deployment, r, i);
    AccumulatedPrecedence(named, i, labelEnvs, name);
    ToMapIsLast(r[i].env, name);
    if DefinedUpTo(named, i, name) {
      var j := NearestExists(named, i, name);
    }
  }
}
