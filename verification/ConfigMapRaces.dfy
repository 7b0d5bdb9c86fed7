/** Runs of the ConfigMap watcher that end wrong: each assumption of ConfigMapProtocol is needed. */
module ConfigMapRaces {
  import opened Prelude
  import opened InjectorConfig
  import opened Informer
  import opened ConfigMapProtocol

  /** A run from a fresh start that ends drained with a stale cache entry. */
  ghost predicate EndsStale(env: Env, s: System, actions: seq<Action>, name: string) {
    && Initial(s) && Runs(env, s, actions)
    && var r := Exec(env, s, actions);
       Drained(r.watch) && name in r.watch.store && !Reflects(env, r.caches, name, r.watch.store[name].content.data)
  }

  function Text(value: string): Object<Content> {
    Object(Content(Some(map["k" := value]), None), 0)
  }

  /** The store holds cm with text `stored`, the caches hold `cached`, InitConfigMap still has `rest` to cache. */
  function Race(stored: string, pending: seq<Event<Content>>, dirty: set<string>, worker: Worker<Content>,
                cached: map<string, StringMap>, init: InitPhase): System {
    System(Watch(map["cm" := Text(stored)], pending, dirty, worker), Caches(map[], None, map[], cached), init)
  }

  /** InitConfigMap beside a working queue can write a listed value over the newer one the worker cached. */
  lemma UnsynchronisedInitLosesAnUpdate(env: Env)
    requires env.defaultName != "cm" && env.ruleName != "cm"
    ensures exists s, actions :: EndsStale(env, s, actions, "cm")
  {
    var rest := Caching([("cm", Text("1").content.data)]);
    var s0 := Race("1", [Added("cm")], {}, Idle, map[], NotListed);
    var s1 := Race("1", [Added("cm")], {}, Idle, map[], rest);
    var s2 := Race("1", [], {"cm"}, Idle, map[], rest);
    var end, a2 := UpdatedMeanwhile(env, s2);
    assert map["k" := "1"]["k"] != map["k" := "2"]["k"];
    var a1 := After(env, s1, Watching(Deliver), s2, a2);
    assert Listed(s0.watch.store, ["cm"]) == rest.rest;
    var a0 := After(env, s0, ListForInit(["cm"]), s1, a1);
    assert EndsStale(env, s0, a0, "cm");
  }

  lemma UpdatedMeanwhile(env: Env, s2: System) returns (end: System, actions: seq<Action>)
    requires env.defaultName != "cm" && env.ruleName != "cm"
    requires s2 == Race("1", [], {"cm"}, Idle, map[], Caching([("cm", Text("1").content.data)]))
    ensures end == Race("2", [], {}, Idle, map["cm" := map["k" := "1"]], Caching([]))
    ensures Runs(env, s2, actions) && Exec(env, s2, actions) == end
  {
    var s3 := Race("2", [Updated("cm", Text("1"), Text("2"))], {"cm"}, Idle, map[], s2.init);
    var s4 := Race("2", [], {"cm"}, Idle, map[], s2.init);
    assert map["k" := "1"]["k"] != map["k" := "2"]["k"];
    var a4;
    a4, end := WorkerThenInit(env, s4);
    var a3 := After(env, s3, Watching(Deliver), s4, a4);
    actions := After(env, s2, Watching(StoreUpdate("cm", Text("2"))), s3, a3);
  }

  lemma WorkerThenInit(env: Env, s: System) returns (actions: seq<Action>, end: System)
    requires env.defaultName != "cm" && env.ruleName != "cm"
    requires s == Race("2", [], {"cm"}, Idle, map[], Caching([("cm", Text("1").content.data)]))
    ensures end == Race("2", [], {}, Idle, map["cm" := map["k" := "1"]], Caching([]))
    ensures Runs(env, s, actions) && Exec(env, s, actions) == end
  {
    var s5 := Race("2", [], {}, Got("cm"), map[], s.init);
    var s6 := Race("2", [], {}, Holding("cm", Some(Text("2"))), map[], s.init);
    var s7 := Race("2", [], {}, Idle, map["cm" := map["k" := "2"]], s.init);
    end := Race("2", [], {}, Idle, map["cm" := map["k" := "1"]], Caching([]));
    assert s.init.rest[1..] == [];
    assert s7.caches.maps["cm" := map["k" := "1"]] == end.caches.maps;
    var a7 := After(env, s7, CacheNextForInit, end, []);
    var a6 := After(env, s6, Watching(Finish), s7, a7);
    var a5 := After(env, s5, Watching(Lookup), s6, a6);
    actions := After(env, s, Watching(TakeKey("cm")), s5, a5);
  }

  /** A run from a fresh start, with the worker waiting for InitConfigMap, that ends drained with rules
      although the rules ConfigMap is gone. */
  ghost predicate EndsWithGhostRules(env: Env, s: System, actions: seq<Action>) {
    && Initial(s) && Runs(env, s, actions) && Waits(env, s, actions)
    && var r := Exec(env, s, actions);
       Drained(r.watch) && env.ruleName !in r.watch.store && r.caches.rules != map[]
  }

  function Present(env: Env): map<string, Object<Content>> {
    map[env.ruleName := Text("1")]
  }

  function Rules(store: map<string, Object<Content>>, pending: seq<Event<Content>>, dirty: set<string>,
                 worker: Worker<Content>, rules: map<string, InjectorRule>): System {
    System(Watch(store, pending, dirty, worker), Caches(map[], None, rules, map[]), Caching([]))
  }

  lemma CachedRules(env: Env, rules: map<string, InjectorRule>)
    requires env.defaultName != env.ruleName && env.parseRule("1").Some?
    requires rules == map["k" := env.parseRule("1").value]
    ensures Cached(env, Caches(map[], None, map[], map[]), env.ruleName, Text("1").content.data) ==
            (Caches(map[], None, rules, map[]), true)
    ensures rules != map[]
  {
    assert "k" in rules;
    assert ParsedRules(env, map["k" := "1"]) == rules;
  }

  /** The worker caches the rules it looked up after the delete handler has cleared them. */
  lemma LateWriteRevivesRules(env: Env)
    requires env.defaultName != env.ruleName && env.parseRule("1").Some?
    ensures exists s, actions :: EndsWithGhostRules(env, s, actions)
  {
    var k, rules := env.ruleName, map["k" := env.parseRule("1").value];
    CachedRules(env, rules);
    var held := Holding(k, Some(Text("1")));
    var s1 := Rules(Present(env), [], {}, held, map[]);
    var s2 := Rules(map[], [Deleted(k, false)], {}, held, map[]);
    var s3 := Rules(map[], [], {}, held, map[]);
    var end := Rules(map[], [], {}, Idle, rules);
    assert Present(env) - {k} == map[];
    var a3 := After(env, s3, Watching(Finish), end, []);
    var a2 := After(env, s2, Watching(Deliver), s3, a3);
    var a1 := After(env, s1, Watching(StoreDelete(k, false)), s2, a2);
    var s, a := RulesLookedUp(env, s1, a1);
    assert EndsWithGhostRules(env, s, a);
  }

  /** A delete seen only as a tombstone leaves the rules in place. */
  lemma TombstoneLeavesRules(env: Env)
    requires env.defaultName != env.ruleName && env.parseRule("1").Some?
    ensures exists s, actions :: EndsWithGhostRules(env, s, actions)
  {
    var k, rules := env.ruleName, map["k" := env.parseRule("1").value];
    CachedRules(env, rules);
    var s1 := Rules(Present(env), [], {}, Holding(k, Some(Text("1"))), map[]);
    var s2 := Rules(Present(env), [], {}, Idle, rules);
    var s3 := Rules(map[], [Deleted(k, true)], {}, Idle, rules);
    var end := Rules(map[], [], {}, Idle, rules);
    assert Present(env) - {k} == map[];
    var a3 := After(env, s3, Watching(Deliver), end, []);
    var a2 := After(env, s2, Watching(StoreDelete(k, true)), s3, a3);
    var a1 := After(env, s1, Watching(Finish), s2, a2);
    var s, a := RulesLookedUp(env, s1, a1);
    assert EndsWithGhostRules(env, s, a);
  }

  /** From an empty cluster to a worker holding the rules ConfigMap. */
  lemma RulesLookedUp(env: Env, held: System, rest: seq<Action>) returns (s: System, actions: seq<Action>)
    requires held == Rules(Present(env), [], {}, Holding(env.ruleName, Some(Text("1"))), map[])
    requires Runs(env, held, rest) && Waits(env, held, rest)
    ensures Initial(s) && Runs(env, s, actions) && Waits(env, s, actions) && Exec(env, s, actions) == Exec(env, held, rest)
  {
    var k := env.ruleName;
    var s4 := Rules(Present(env), [], {}, Got(k), map[]);
    var s3 := Rules(Present(env), [], {k}, Idle, map[]);
    var s2 := Rules(Present(env), [Added(k)], {}, Idle, map[]);
    var s1 := Rules(map[], [], {}, Idle, map[]);
    var a4 := After(env, s4, Watching(Lookup), held, rest);
    var a3 := After(env, s3, Watching(TakeKey(k)), s4, a4);
    var a2 := After(env, s2, Watching(Deliver), s3, a3);
    var a1 := After(env, s1, Watching(StoreAdd(k, Text("1"))), s2, a2);
    s, actions := FreshStart(env, s1, a1);
  }

  lemma FreshStart(env: Env, s1: System, rest: seq<Action>) returns (s: System, actions: seq<Action>)
    requires s1 == Rules(map[], [], {}, Idle, map[]) && Runs(env, s1, rest) && Waits(env, s1, rest)
    ensures Initial(s) && Runs(env, s, actions) && Waits(env, s, actions) && Exec(env, s, actions) == Exec(env, s1, rest)
  {
    s := s1.(init := NotListed);
    assert Enumerates([], s.watch.store.Keys);
    assert Listed(s.watch.store, []) == [];
    actions := After(env, s, ListForInit([]), s1, rest);
  }

  lemma After(env: Env, s: System, a: Action, s': System, rest: seq<Action>) returns (longer: seq<Action>)
    requires Possible(env, s, a) && Act(env, s, a) == s' && Runs(env, s', rest)
    ensures Runs(env, s, longer) && Exec(env, s, longer) == Exec(env, s', rest)
    ensures WorkerWaits(s, a) && Waits(env, s', rest) ==> Waits(env, s, longer)
  {
    longer := [a] + rest;
    assert longer[1..] == rest;
  }
}
