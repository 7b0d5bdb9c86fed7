/** The parts of pods and deployments the webhook reads or writes. Nil and empty lists and maps are identified. */
module Workload {
  import opened Prelude

  /** Either a plain value or a reference to a field of the pod. */
  datatype EnvVar = EnvVar(name: string, value: string, fieldPath: Option<string>)

  datatype VolumeMount = VolumeMount(name: string, mountPath: string, subPath: string)

  datatype Container = Container(name: string, image: string, env: seq<EnvVar>, mounts: seq<VolumeMount>)

  datatype VolumeSource = EmptyDir | FromConfigMap(configMap: string, items: seq<string>) | OtherSource(id: int)

  datatype Volume = Volume(name: string, source: VolumeSource)

  datatype Pod = Pod(labels: StringMap, annotations: StringMap, initContainers: seq<Container>,
                     containers: seq<Container>, volumes: seq<Volume>)

  datatype Deployment = Deployment(name: string, namespace: string, labels: StringMap,
                                   templateLabels: StringMap, containers: seq<Container>)

  type EnvMap = map<string, EnvVar>

  function PlainEnv(name: string, value: string): EnvVar {
    EnvVar(name, value, None)
  }

  predicate HasEnv(env: seq<EnvVar>, name: string) {
    exists i :: 0 <= i < |env| && env[i].name == name
  }

  lemma HasEnvAppend(env: seq<EnvVar>, e: EnvVar, name: string)
    ensures HasEnv(env + [e], name) <==> HasEnv(env, name) || e.name == name
  {
    assert (env + [e])[|env|] == e;
    if HasEnv(env, name) {
      var i :| 0 <= i < |env| && env[i].name == name;
      assert (env + [e])[i].name == name;
    }
  }

  /** The last entry of that name. */
  function LastEnv(env: seq<EnvVar>, name: string): (r: EnvVar)
    requires HasEnv(env, name)
    ensures exists i :: 0 <= i < |env| && env[i] == r && r.name == name
                        && forall j :: i < j < |env| ==> env[j].name != name
  {
    var n := |env| - 1;
    if env[n].name == name then env[n] else LastEnv(env[..n], name)
  }

  /** An env list as a map, the last entry of a name winning. */
  function ToMap(env: seq<EnvVar>): (m: EnvMap)
    ensures forall k :: k in m ==> m[k].name == k
  {
    if env == [] then map[]
    else
      var n := |env| - 1;
      ToMap(env[..n])[env[n].name := env[n]]
  }

  predicate DistinctNames(env: seq<EnvVar>) {
    forall i, j :: 0 <= i < j < |env| ==> env[i].name != env[j].name
  }

  lemma {:induction false} ToMapIsLast(env: seq<EnvVar>, name: string)
    ensures name in ToMap(env) <==> HasEnv(env, name)
    ensures HasEnv(env, name) ==> ToMap(env)[name] == LastEnv(env, name)
  {
    if env != [] {
      var n := |env| - 1;
      ToMapIsLast(env[..n], name);
      if HasEnv(env, name) && env[n].name != name {
        var i :| 0 <= i < |env| && env[i].name == name;
        assert env[..n][i].name == name;
      }
    }
  }

  lemma ToMapAppend(env: seq<EnvVar>, e: EnvVar)
    ensures ToMap(env + [e]) == ToMap(env)[e.name := e]
  {
    assert (env + [e])[..|env|] == env;
  }

  /** One step of listing the values of m, in any order: todo holds the keys still to come. */
  lemma ListNext(m: EnvMap, todo: set<string>, env: seq<EnvVar>, k: string)
    requires k in todo && k in m && m[k].name == k
    requires DistinctNames(env) && ToMap(env) == m - todo
    ensures DistinctNames(env + [m[k]]) && ToMap(env + [m[k]]) == m - (todo - {k})
  {
    ToMapIsLast(env, k);
    ToMapAppend(env, m[k]);
    KeepOne(m, todo, k);
  }

  lemma KeepOne(m: EnvMap, todo: set<string>, k: string)
    requires k in todo
    ensures m - (todo - {k}) == if k in m then (m - todo)[k := m[k]] else m - todo
  {
  }

  lemma {:induction false} ToMapConcat(a: seq<EnvVar>, b: seq<EnvVar>)
    ensures ToMap(a + b) == ToMap(a) + ToMap(b)
  {
    if b == [] {
      assert a + b == a;
    } else {
      var n := |b| - 1;
      ToMapConcat(a, b[..n]);
      assert b == b[..n] + [b[n]];
      assert a + b == (a + b[..n]) + [b[n]];
      ToMapAppend(a + b[..n], b[n]);
      UpdateOfUnion(ToMap(a), ToMap(b[..n]), b[n].name, b[n]);
    }
  }

  lemma UpdateOfUnion(m: EnvMap, n: EnvMap, k: string, e: EnvVar)
    ensures (m + n)[k := e] == m + n[k := e]
  {
  }
}
