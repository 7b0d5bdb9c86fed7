/** Every order in which Go may walk the rules has an outcome: the relational specification of the agent path is met by
    some pod for each of them. */
module PodWalks {
  import opened Prelude
  import opened RuleMatching
  import opened NodeZones
  import opened Workload
  import opened EnvAppend
  import opened EnvMerge
  import opened PodEnvs
  import opened PodInjection
  import opened PodTheorems

  /** Every env map can be listed. */
  lemma {:induction false} SomeListing(m: EnvMap) returns (env: seq<EnvVar>)
    requires forall k :: k in m ==> m[k].name == k
    ensures DistinctNames(env) && ToMap(env) == m
    decreases |m.Keys|
  {
    if m == map[] {
      env := [];
    } else {
      var k :| k in m;
      var rest := m - {k};
      assert rest.Keys == m.Keys - {k};
      var front := SomeListing(rest);
      ToMapIsLast(front, k);
      ToMapAppend(front, m[k]);
      assert rest[k := m[k]] == m;
      env := front + [m[k]];
    }
  }

  lemma SomeAppend(env: seq<EnvVar>, add: StringMap) returns (r: seq<EnvVar>)
    ensures Appended(env, add, r)
  {
    var tail := SomeListing(Missing(env, add));
    r := env + tail;
    assert r[|env|..] == tail;
  }

  lemma SomePodEnvs(raw: string, labels: StringMap, nodes: Option<seq<Node>>) returns (envs: seq<EnvVar>)
    ensures ArePodEnvs(raw, labels, nodes, envs)
  {
    if ValidPrefixes(raw) == [] {
      envs := [];
    } else {
      var order := SomeOrder(SelectedLabels(raw, labels));
      var zones := "";
      if nodes.Some? {
        var groups := GroupByZone(nodes.value);
        var walk := SomeOrder(groups.Keys);
        zones := Encode(groups, walk);
      }
      assert Enumerates(order, SelectedLabels(raw, labels)) && ZonesText(nodes, zones);
      envs := LabelEnvs(labels, order) + NodeEnvs(zones);
    }
  }

  lemma {:induction false} SomeModifiedList(named: seq<Container>, envs: seq<EnvVar>, agentEnvs: StringMap,
                                            deployment: string)
    returns (r: seq<Container>)
    ensures Modified(named, envs, agentEnvs, deployment, r)
  {
    if named == [] {
      r := [];
    } else {
      var n := |named| - 1;
      assert named == named[..n] + [named[n]];
      var front := SomeModifiedList(named[..n], envs, agentEnvs, deployment);
      var env := SomeListing(WithAgentEnvs(ToMap(envs + AllEnv(named)), agentEnvs));
      var last := named[n].(env := env, mounts := WithAgentMounts(named[n].mounts, deployment));
      ModifiedGrows(named[..n], named[n], envs, agentEnvs, deployment, front, last);
      r := front + [last];
    }
  }

  lemma SomeInitContainers(cfg: PodConfig, deployment: string, pod: Pod) returns (r: seq<Container>)
    ensures InitContainerAdded(cfg, deployment, pod, r)
  {
    if HasContainer(pod.initContainers, cfg.initContainerName) {
      r := pod.initContainers;
    } else {
      var env := SomeListing(InitEnvs(cfg.agent.envs, pod.containers));
      var image := cfg.agent.image + ":" + PickedVersion(cfg, pod.labels);
      r := pod.initContainers + [Container(cfg.initContainerName, image, env,
                                           CreateAgentVolumeMounts(INIT_EMPTY_DIR_MOUNT_PATH, deployment))];
    }
  }

  /** Each walk over the rules is the walk of some injection. */
  lemma SomeInjection(cfg: PodConfig, deployment: string, pod: Pod, order: seq<string>) returns (r: Pod)
    requires pod.containers != [] && Enumerates(order, cfg.rules.Keys)
    ensures AgentInjected(cfg, deployment, pod, r)
    ensures r.labels == Merge(cfg.rules, pod.labels, Labels, order) + pod.labels
  {
    var env := SomeAppend(pod.containers[0].env, Merge(cfg.rules, pod.labels, Envs, order));
    var mid := pod.(containers := pod.containers[0 := pod.containers[0].(env := env)],
                    labels := Merge(cfg.rules, pod.labels, Labels, order) + pod.labels);
    assert RulesApplied(cfg, pod, mid);
    var envs := SomePodEnvs(cfg.matchLabels, pod.labels, cfg.nodes);
    var initContainers := SomeInitContainers(cfg, deployment, mid);
    var containers := SomeModifiedList(Named(mid.containers), envs, cfg.agent.envs, deployment);
    r := mid.(initContainers := initContainers, containers := containers,
              volumes := AddPodVolume(mid.volumes, deployment));
    assert AgentInjectedVia(cfg, deployment, pod, mid, envs, r);
  }

  /** Each value that a matching rule gives a missing label is what the pod gets in some walk. */
  lemma WalkWithLabel(cfg: PodConfig, name: string, pod: Pod, k: string, v: string) returns (r: Pod)
    requires pod.containers != [] && k !in pod.labels && IsRuleLabel(cfg.rules, pod.labels, k, v)
    ensures AgentInjected(cfg, name, pod, r) && k in r.labels && r.labels[k] == v
  {
    var n :| n in cfg.rules && Sets(cfg.rules, pod.labels, Labels, n, k) && cfg.rules[n].labels[k] == v;
    var order := OrderEndingWith(cfg.rules.Keys, n);
    LastRuleWins(cfg.rules, pod.labels, Labels, order, k);
    r := SomeInjection(cfg, name, pod, order);
  }
}
