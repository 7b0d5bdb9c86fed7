/** The webhook adds env vars in three places by the same rule: an entry the container has already stays, the
    missing ones are appended in the order Go happens to walk the map. */
module EnvAppend {
  import opened Prelude
  import opened Workload

  function Missing(env: seq<EnvVar>, add: StringMap): EnvMap {
    map k | k in add && !HasEnv(env, k) :: PlainEnv(k, add[k])
  }

  /** r is env followed by the missing entries of add, once each, in some order. */
  ghost predicate Appended(env: seq<EnvVar>, add: StringMap, r: seq<EnvVar>) {
    && env <= r
    && DistinctNames(r[|env|..])
    && ToMap(r[|env|..]) == Missing(env, add)
  }

  method ScanForEnv(env: seq<EnvVar>, name: string) returns (exists': bool)
    ensures exists' <==> HasEnv(env, name)
  {
    for i := 0 to |env|
      invariant forall j :: 0 <= j < i ==> env[j].name != name
    {
      if env[i].name == name {
        return true;
      }
    }
    exists' := false;
  }

  /** Walks the map, skips what `env` has, and appends the rest. A map has each key once, so a scan of the growing
      list, as the deployment admission does it, finds the same names. */
  method AppendMissing(env: seq<EnvVar>, add: StringMap) returns (r: seq<EnvVar>, added: bool)
    ensures Appended(env, add, r)
    ensures added <==> r != env
  {
    var tail: seq<EnvVar> := [];
    var todo := add.Keys;
    while todo != {}
      invariant todo <= add.Keys
      invariant DistinctNames(tail) && ToMap(tail) == Missing(env, add) - todo
      decreases |todo|
    {
      var k :| k in todo;
      var found := ScanForEnv(env, k);
      KeepOne(Missing(env, add), todo, k);
      if !found {
        ListNext(Missing(env, add), todo, tail, k);
        tail := tail + [PlainEnv(k, add[k])];
      }
      todo := todo - {k};
    }
    r, added := env + tail, tail != [];
    assert r[|env|..] == tail;
  }

  /** As maps: what the container had wins, and the result does not depend on the walk. */
  lemma AppendedAsMap(env: seq<EnvVar>, add: StringMap, r: seq<EnvVar>)
    requires Appended(env, add, r)
    ensures ToMap(r) == (map k | k in add :: PlainEnv(k, add[k])) + ToMap(env)
  {
    assert r == env + r[|env|..];
    ToMapConcat(env, r[|env|..]);
    forall k ensures k in ToMap(env) <==> HasEnv(env, k) {
      ToMapIsLast(env, k);
    }
  }

  lemma AppendedNames(env: seq<EnvVar>, add: StringMap, r: seq<EnvVar>, name: string)
    requires Appended(env, add, r)
    ensures HasEnv(r, name) <==> HasEnv(env, name) || name in add
  {
    AppendedAsMap(env, add, r);
    ToMapIsLast(r, name);
    ToMapIsLast(env, name);
  }

  /** Nothing is appended exactly when nothing is missing; the list then stays as it is. */
  lemma UnchangedIffNothingMissing(env: seq<EnvVar>, add: StringMap, r: seq<EnvVar>)
    requires Appended(env, add, r)
    ensures r == env <==> forall k :: k in add ==> HasEnv(env, k)
  {
    if forall k :: k in add ==> HasEnv(env, k) {
      var tail := r[|env|..];
      assert r == env + tail;
      if tail != [] {
        assert HasEnv(tail, tail[0].name);
        ToMapIsLast(tail, tail[0].name);
      }
    } else {
      var k :| k in add && !HasEnv(env, k);
      assert k in Missing(env, add);
      ToMapIsLast(r[|env|..], k);
    }
  }
}
