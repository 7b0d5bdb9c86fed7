/** makePodEnvs of pkg/mutation/mutation_pod.go: env vars for the labels with a configured prefix, and two
    about the node. */
module PodEnvs {
  import opened Prelude
  import opened Strings
  import opened Workload
  import opened NodeZones

  const NODE_NAME := "NODE_NAME"
  const NODE_ZONES := "NODE_ZONES"

  function NonEmptyTrimmed(parts: seq<string>): seq<string> {
    if parts == [] then []
    else
      var n := |parts| - 1;
      NonEmptyTrimmed(parts[..n]) + if TrimSpace(parts[n]) != "" then [TrimSpace(parts[n])] else []
  }

  function ValidPrefixes(raw: string): seq<string> {
    NonEmptyTrimmed(Split(raw, ','))
  }

  predicate HasAnyPrefix(k: string, prefixes: seq<string>) {
    exists i :: 0 <= i < |prefixes| && HasPrefix(k, prefixes[i])
  }

  /** The labels that become env vars: a value, and one of the prefixes. */
  function SelectedLabels(raw: string, labels: StringMap): set<string> {
    set k | k in labels && labels[k] != "" && HasAnyPrefix(k, ValidPrefixes(raw))
  }

  /** The names the pod env vars have; none at all when no prefix is configured. */
  function PodEnvNames(raw: string, labels: StringMap): set<string> {
    if ValidPrefixes(raw) == [] then {} else SelectedLabels(raw, labels) + {NODE_NAME, NODE_ZONES}
  }

  function LabelEnvs(labels: StringMap, order: seq<string>): seq<EnvVar>
    requires forall k :: k in order ==> k in labels
  {
    if order == [] then []
    else
      var n := |order| - 1;
      LabelEnvs(labels, order[..n]) + [PlainEnv(order[n], labels[order[n]])]
  }

  ghost predicate ZonesText(nodes: Option<seq<Node>>, text: string) {
    if nodes.None? then text == ""
    else var groups := GroupByZone(nodes.value);
      exists order :: Enumerates(order, groups.Keys) && text == Encode(groups, order)
  }

  function NodeEnvs(zones: string): seq<EnvVar> {
    [EnvVar(NODE_NAME, "", Some("spec.nodeName")), PlainEnv(NODE_ZONES, zones)]
  }

  /** The selected labels in any order, then the node's name and the cluster's zones. */
  ghost predicate ArePodEnvs(raw: string, labels: StringMap, nodes: Option<seq<Node>>, envs: seq<EnvVar>) {
    if ValidPrefixes(raw) == [] then envs == []
    else exists order, zones ::
      Enumerates(order, SelectedLabels(raw, labels)) && ZonesText(nodes, zones)
      && envs == LabelEnvs(labels, order) + NodeEnvs(zones)
  }

  method CleanPrefixes(raw: string) returns (valid: seq<string>)
    ensures valid == ValidPrefixes(raw)
  {
    var prefixes := Split(raw, ',');
    valid := [];
    for i := 0 to |prefixes|
      invariant valid == NonEmptyTrimmed(prefixes[..i])
    {
      assert prefixes[..i + 1][..i] == prefixes[..i];
      var trimmed := TrimSpace(prefixes[i]);
      if trimmed != "" {
        valid := valid + [trimmed];
      }
    }
    assert prefixes[..|prefixes|] == prefixes;
  }

  method ScanPrefixes(k: string, prefixes: seq<string>) returns (found: bool)
    ensures found <==> HasAnyPrefix(k, prefixes)
  {
    for i := 0 to |prefixes|
      invariant forall j :: 0 <= j < i ==> !HasPrefix(k, prefixes[j])
    {
      if HasPrefix(k, prefixes[i]) {
        return true;
      }
    }
    found := false;
  }

  method MakePodEnvs(raw: string, labels: StringMap, nodes: Option<seq<Node>>) returns (envs: seq<EnvVar>)
    ensures ArePodEnvs(raw, labels, nodes, envs)
  {
    var prefixes := CleanPrefixes(raw);
    if prefixes == [] {
      return [];
    }
    envs := [];
    var todo := labels.Keys;
    ghost var order: seq<string> := [];
    while todo != {}
      invariant todo <= labels.Keys
      invariant Enumerates(order, SelectedLabels(raw, labels) - todo) && envs == LabelEnvs(labels, order)
      decreases |todo|
    {
      var k :| k in todo;
      var found := ScanPrefixes(k, prefixes);
      if labels[k] != "" && found {
        assert (order + [k])[..|order|] == order;
        envs := envs + [PlainEnv(k, labels[k])];
        order := order + [k];
      }
      todo := todo - {k};
    }
    assert SelectedLabels(raw, labels) - {} == SelectedLabels(raw, labels);
    var zones := GetNodeWithZone(nodes);
    assert Enumerates(order, SelectedLabels(raw, labels)) && ZonesText(nodes, zones);
    envs := envs + NodeEnvs(zones);
  }

  /** Whatever the walks, the names are the same. */
  lemma PodEnvsHaveTheirNames(raw: string, labels: StringMap, nodes: Option<seq<Node>>, envs: seq<EnvVar>, name: string)
    requires ArePodEnvs(raw, labels, nodes, envs)
    ensures HasEnv(envs, name) <==> name in PodEnvNames(raw, labels)
  {
    if ValidPrefixes(raw) != [] {
      var order, zones :| Enumerates(order, SelectedLabels(raw, labels)) && ZonesText(nodes, zones)
        && envs == LabelEnvs(labels, order) + NodeEnvs(zones);
      LabelEnvNames(labels, order, name);
      WithNodeEnvs(LabelEnvs(labels, order), zones, name);
    }
  }

  lemma WithNodeEnvs(env: seq<EnvVar>, zones: string, name: string)
    ensures HasEnv(env + NodeEnvs(zones), name) <==> HasEnv(env, name) || name in {NODE_NAME, NODE_ZONES}
  {
    var first, second := NodeEnvs(zones)[0], NodeEnvs(zones)[1];
    assert env + NodeEnvs(zones) == (env + [first]) + [second];
    HasEnvAppend(env, first, name);
    HasEnvAppend(env + [first], second, name);
  }

  lemma {:induction false} LabelEnvNames(labels: StringMap, order: seq<string>, name: string)
    requires forall k :: k in order ==> k in labels
    ensures HasEnv(LabelEnvs(labels, order), name) <==> name in order
  {
    if order != [] {
      var n := |order| - 1;
      LabelEnvNames(labels, order[..n], name);
      HasEnvAppend(LabelEnvs(labels, order[..n]), PlainEnv(order[n], labels[order[n]]), name);
      assert order == order[..n] + [order[n]];
    }
  }

  /** What the env var of that name says. */
  ghost predicate IsPodEnv(labels: StringMap, nodes: Option<seq<Node>>, name: string, e: EnvVar) {
    if name == NODE_ZONES then exists zones :: ZonesText(nodes, zones) && e == PlainEnv(name, zones)
    else if name == NODE_NAME then e == EnvVar(name, "", Some("spec.nodeName"))
    else name in labels && e == PlainEnv(name, labels[name])
  }

  /** A label's value becomes the env var's, except that the node's two env vars hide labels of those names. */
  lemma PodEnvsHaveTheirValues(raw: string, labels: StringMap, nodes: Option<seq<Node>>, envs: seq<EnvVar>, name: string)
    requires ArePodEnvs(raw, labels, nodes, envs) && HasEnv(envs, name)
    ensures IsPodEnv(labels, nodes, name, LastEnv(envs, name))
  {
    if ValidPrefixes(raw) != [] {
      var order, zones :| Enumerates(order, SelectedLabels(raw, labels)) && ZonesText(nodes, zones)
        && envs == LabelEnvs(labels, order) + NodeEnvs(zones);
      LastOfEachName(labels, order, zones, name);
    }
  }

  lemma LastOfEachName(labels: StringMap, order: seq<string>, zones: string, name: string)
    requires forall k :: k in order ==> k in labels
    requires HasEnv(LabelEnvs(labels, order) + NodeEnvs(zones), name)
    ensures var e := LastEnv(LabelEnvs(labels, order) + NodeEnvs(zones), name);
      if name == NODE_ZONES then e == PlainEnv(name, zones)
      else if name == NODE_NAME then e == EnvVar(name, "", Some("spec.nodeName"))
      else name in labels && e == PlainEnv(name, labels[name])
  {
    ToMapIsLast(LabelEnvs(labels, order) + NodeEnvs(zones), name);
    WithNodeEnvsAsMap(LabelEnvs(labels, order), zones);
    LabelEnvValues(labels, order, name);
    assert NODE_NAME[5] == 'N' && NODE_ZONES[5] == 'Z';
  }

  lemma WithNodeEnvsAsMap(env: seq<EnvVar>, zones: string)
    ensures ToMap(env + NodeEnvs(zones)) ==
            ToMap(env)[NODE_NAME := EnvVar(NODE_NAME, "", Some("spec.nodeName"))][NODE_ZONES := PlainEnv(NODE_ZONES, zones)]
  {
    var pair := NodeEnvs(zones);
    assert env + pair == (env + [pair[0]]) + [pair[1]];
    ToMapAppend(env, pair[0]);
    ToMapAppend(env + [pair[0]], pair[1]);
  }

  lemma {:induction false} LabelEnvValues(labels: StringMap, order: seq<string>, name: string)
    requires forall k :: k in order ==> k in labels
    ensures var m := ToMap(LabelEnvs(labels, order)); name in m ==> name in labels && m[name] == PlainEnv(name, labels[name])
  {
    if order != [] {
      var n := |order| - 1;
      LabelEnvValues(labels, order[..n], name);
      ToMapAppend(LabelEnvs(labels, order[..n]), PlainEnv(order[n], labels[order[n]]));
    }
  }

  // ----- the names, read from the raw prefixes -----

  /** A comma-separated piece of the setting that is more than spaces. */
  predicate IsPrefix(raw: string, prefix: string) {
    prefix != "" && exists i :: 0 <= i < |Split(raw, ',')| && TrimSpace(Split(raw, ',')[i]) == prefix
  }

  lemma {:induction false} NonEmptyTrimmedAre(parts: seq<string>, prefix: string)
    ensures prefix in NonEmptyTrimmed(parts) <==>
            prefix != "" && exists i :: 0 <= i < |parts| && TrimSpace(parts[i]) == prefix
  {
    if parts != [] {
      var n := |parts| - 1;
      NonEmptyTrimmedAre(parts[..n], prefix);
      assert parts == parts[..n] + [parts[n]];
    }
  }

  /** A label becomes an env var exactly when it has a value and starts with one of the configured prefixes; the node's
      two env vars are there exactly when any prefix is configured. */
  lemma EnvsComeFromPrefixes(raw: string, labels: StringMap, nodes: Option<seq<Node>>, envs: seq<EnvVar>, name: string)
    requires ArePodEnvs(raw, labels, nodes, envs)
    ensures HasEnv(envs, name) <==>
      || (name in labels && labels[name] != "" && exists n: nat :: n <= |name| && IsPrefix(raw, name[..n]))
      || (name in {"NODE_NAME", "NODE_ZONES"} && exists prefix :: IsPrefix(raw, prefix))
  {
    PodEnvsHaveTheirNames(raw, labels, nodes, envs, name);
    var prefixes := ValidPrefixes(raw);
    forall prefix ensures prefix in prefixes <==> IsPrefix(raw, prefix) {
      NonEmptyTrimmedAre(Split(raw, ','), prefix);
    }
    if prefixes != [] {
      assert IsPrefix(raw, prefixes[0]);
    }
    if HasAnyPrefix(name, prefixes) {
      var i :| 0 <= i < |prefixes| && HasPrefix(name, prefixes[i]);
      assert name[..|prefixes[i]|] == prefixes[i];
    }
    forall n: nat | n <= |name| && IsPrefix(raw, name[..n]) ensures HasAnyPrefix(name, prefixes) {
      assert name[..n] in prefixes;
      var i :| 0 <= i < |prefixes| && prefixes[i] == name[..n];
      assert HasPrefix(name, prefixes[i]);
    }
  }
}
