/** The sidecar path: settings from the control plane (pkg/resource/control.go) merged into the pod
    (AddPodConfigs of pkg/mutation/mutation_pod.go). */
module SidecarSettings {
  import opened Prelude
  import opened ConfigLabels
  import opened Workload
  import opened EnvAppend

  const SETTING_LABEL := "label"
  const SETTING_ENVIRONMENT := "environment"
  const SETTING_ANNOTATION := "annotation"

  type Setting = StringMap

  datatype SidecarConfig = SidecarConfig(labels: StringMap, envs: StringMap, annotations: StringMap)

  /** The control plane's reply: unreachable reads as no settings, an error reply stops the injection. */
  datatype SettingReply = Unreachable | Refused | Settings(data: seq<Setting>)

  // ----- folding the settings -----

  /** A setting of the given type for the given key, with all three fields present. */
  predicate IsEntry(s: Setting, type': string, key: string) {
    "type" in s && "key" in s && "value" in s && s["type"] == type' && s["key"] == key
  }

  function Fold(settings: seq<Setting>, type': string): StringMap {
    if settings == [] then map[]
    else
      var rest, s := Fold(settings[..|settings| - 1], type'), settings[|settings| - 1];
      if "type" in s && "key" in s && "value" in s && s["type"] == type' then rest[s["key"] := s["value"]] else rest
  }

  method ProcessSettingData(settings: seq<Setting>) returns (config: SidecarConfig)
    ensures config == SidecarConfig(Fold(settings, SETTING_LABEL), Fold(settings, SETTING_ENVIRONMENT),
                                    Fold(settings, SETTING_ANNOTATION))
  {
    config := SidecarConfig(map[], map[], map[]);
    for i := 0 to |settings|
      invariant config == SidecarConfig(Fold(settings[..i], SETTING_LABEL), Fold(settings[..i], SETTING_ENVIRONMENT),
                                        Fold(settings[..i], SETTING_ANNOTATION))
    {
      var setting := settings[i];
      assert settings[..i + 1][..i] == settings[..i];
      if "type" !in setting || "key" !in setting || "value" !in setting {
        continue;
      }
      var key, value := setting["key"], setting["value"];
      if setting["type"] == SETTING_LABEL {
        config := config.(labels := config.labels[key := value]);
      } else if setting["type"] == SETTING_ENVIRONMENT {
        config := config.(envs := config.envs[key := value]);
      } else if setting["type"] == SETTING_ANNOTATION {
        config := config.(annotations := config.annotations[key := value]);
      }
    }
    assert settings[..|settings|] == settings;
  }

  /** Each type and key keeps its last complete entry; nothing else gets in. */
  lemma {:induction false} LastEntryWins(settings: seq<Setting>, type': string, key: string)
    ensures key in Fold(settings, type') <==> exists i :: 0 <= i < |settings| && IsEntry(settings[i], type', key)
    ensures forall i | 0 <= i < |settings| && IsEntry(settings[i], type', key)
              && (forall j :: i < j < |settings| ==> !IsEntry(settings[j], type', key)) ::
              key in Fold(settings, type') && Fold(settings, type')[key] == settings[i]["value"]
  {
    if settings != [] {
      var n := |settings| - 1;
      var front := settings[..n];
      LastEntryWins(front, type', key);
      if key in Fold(front, type') {
        var i :| 0 <= i < |front| && IsEntry(front[i], type', key);
        assert IsEntry(settings[i], type', key);
      }
    }
  }

  // ----- asking for them -----

  function ExtractServiceInfo(labels: StringMap): (string, string) {
    var space := Get(labels, SERVICE_SPACE);
    (if space == "" then Get(labels, JDAP_SERVICE_SPACE) else space, Get(labels, SERVICE_NAME))
  }

  function SidecarConfigFor(labels: StringMap, clusterId: string, deployment: string, reply: SettingReply)
    : Option<SidecarConfig>
  {
    var (space, service) := ExtractServiceInfo(labels);
    if space == "" || service == "" || clusterId == "" || deployment == "" || reply.Unreachable? then
      Some(SidecarConfig(map[], map[], map[]))
    else if reply.Refused? then None
    else Some(SidecarConfig(Fold(reply.data, SETTING_LABEL), Fold(reply.data, SETTING_ENVIRONMENT),
                            Fold(reply.data, SETTING_ANNOTATION)))
  }

  method GetSidecarConfig(labels: StringMap, clusterId: string, deployment: string, reply: SettingReply)
    returns (config: Option<SidecarConfig>)
    ensures config == SidecarConfigFor(labels, clusterId, deployment, reply)
  {
    var (space, service) := ExtractServiceInfo(labels);
    var empty := SidecarConfig(map[], map[], map[]);
    if space == "" || service == "" || clusterId == "" || deployment == "" {
      return Some(empty);
    }
    match reply
    case Unreachable => config := Some(empty);
    case Refused => config := None;
    case Settings(data) =>
      var processed := ProcessSettingData(data);
      config := Some(processed);
  }

  // ----- merging them into the pod -----

  /** The pod's own envs, labels and annotations win; only container 0 is touched. */
  ghost predicate Configured(pod: Pod, config: SidecarConfig, r: Pod) {
    && pod.containers != [] && |r.containers| == |pod.containers|
    && Appended(pod.containers[0].env, config.envs, r.containers[0].env)
    && r.containers == pod.containers[0 := pod.containers[0].(env := r.containers[0].env)]
    && r.labels == config.labels + pod.labels
    && r.annotations == config.annotations + pod.annotations
    && r.initContainers == pod.initContainers && r.volumes == pod.volumes
  }

  method AddMissingKeys(own: StringMap, add: StringMap) returns (r: StringMap)
    ensures r == add + own
  {
    r := own;
    var todo := add.Keys;
    while todo != {}
      invariant todo <= add.Keys
      invariant r.Keys == own.Keys + (add.Keys - todo)
      invariant forall k :: k in r ==> r[k] == if k in own then own[k] else add[k]
      decreases |todo|
    {
      var k :| k in todo;
      if k !in r {
        r := r[k := add[k]];
      }
      todo := todo - {k};
    }
  }

  /** Drops the settings the container has already, then appends what is left. */
  method AddSettingEnvs(env: seq<EnvVar>, settings: StringMap) returns (r: seq<EnvVar>)
    ensures Appended(env, settings, r)
  {
    var left := DropOwn(env, settings);
    var tail: seq<EnvVar> := [];
    var todo := left.Keys;
    while todo != {}
      invariant todo <= left.Keys
      invariant DistinctNames(tail) && ToMap(tail) == Missing(env, settings) - todo
      decreases |todo|
    {
      var k :| k in todo;
      ListNext(Missing(env, settings), todo, tail, k);
      tail := tail + [PlainEnv(k, left[k])];
      todo := todo - {k};
    }
    r := env + tail;
    assert r[|env|..] == tail;
  }

  method DropOwn(env: seq<EnvVar>, settings: StringMap) returns (left: StringMap)
    ensures left == map k | k in settings && !HasEnv(env, k) :: settings[k]
  {
    left := settings;
    for i := 0 to |env|
      invariant left == map k | k in settings && !HasEnv(env[..i], k) :: settings[k]
    {
      TakeNext(env, i);
      forall k { HasEnvAppend(env[..i], env[i], k); }
      left := left - {env[i].name};
    }
    assert env[..|env|] == env;
  }

  method AddPodConfigs(pod: Pod, config: SidecarConfig) returns (r: Pod)
    requires pod.containers != []
    ensures Configured(pod, config, r)
  {
    var env := AddSettingEnvs(pod.containers[0].env, config.envs);
    var labels := AddMissingKeys(pod.labels, config.labels);
    var annotations := AddMissingKeys(pod.annotations, config.annotations);
    r := pod.(containers := pod.containers[0 := pod.containers[0].(env := env)],
              labels := labels, annotations := annotations);
  }

  /** The pod's own values survive, each missing one is the setting's, and as maps the outcome does not depend on the
      walks. */
  lemma OwnValuesWin(pod: Pod, config: SidecarConfig, r: Pod, key: string)
    requires Configured(pod, config, r)
    ensures ToMap(r.containers[0].env) ==
            (map k | k in config.envs :: PlainEnv(k, config.envs[k])) + ToMap(pod.containers[0].env)
    ensures Lookup(r.labels, key) == if key in pod.labels then Some(pod.labels[key]) else Lookup(config.labels, key)
    ensures Lookup(r.annotations, key) ==
            if key in pod.annotations then Some(pod.annotations[key]) else Lookup(config.annotations, key)
  {
    AppendedAsMap(pod.containers[0].env, config.envs, r.containers[0].env);
  }

  /** The same settings applied again change nothing, list order included. */
  lemma ReapplyingChangesNothing(pod: Pod, config: SidecarConfig, r: Pod, again: Pod)
    requires Configured(pod, config, r) && Configured(r, config, again)
    ensures again == r
  {
    forall k | k in config.envs ensures HasEnv(r.containers[0].env, k) {
      AppendedNames(pod.containers[0].env, config.envs, r.containers[0].env, k);
    }
    UnchangedIffNothingMissing(r.containers[0].env, config.envs, again.containers[0].env);
    assert config.labels + r.labels == r.labels;
    assert config.annotations + r.annotations == r.annotations;
  }
}
