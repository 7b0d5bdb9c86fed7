/** Runs of the AgentVersion watcher that end wrong: each kind of hazard occurs. */
module AgentVersionRaces {
  import opened Prelude
  import opened Informer
  import opened AgentVersionProtocol

  function Race(watch: Watch<AgentVersionSpec>, cache: VersionCache, init: InitPhase): System {
    System(watch, cache, init, false, false)
  }

  /** A run from a fresh start that ends drained with a stored spec that is not filed, no lookup having failed. */
  ghost predicate EndsMisfiled(s: System, actions: seq<Action>, k: string) {
    && Initial(s) && Runs(s, actions)
    && var r := Exec(s, actions);
       && Drained(r.watch) && !r.foreign && Coherent(r.watch.store)
       && k in r.watch.store && !Filed(r.cache, r.watch.store[k].content)
  }

  predicate CoherentThroughout(s: System, actions: seq<Action>)
    requires Runs(s, actions)
    decreases |actions|
  {
    Coherent(s.watch.store) && (actions != [] ==> CoherentThroughout(Act(s, actions[0]), actions[1..]))
  }

  /** Two objects that share a version, one of which is later deleted, leave the wrong spec in a drained cache:
      being coherent at the end is not enough. */
  lemma SharedVersionLeavesWrongSpec()
    ensures exists s, actions :: EndsMisfiled(s, actions, "a")
  {
    var a := Object(AgentVersionSpec("v", "one", true), 0);
    var b := Object(AgentVersionSpec("v", "two", true), 0);
    var s4 := Race(Watch(map["a" := a, "b" := b], [], {"b"}, Idle), map["v" := a.content], Caching([]));
    var end, x4 := SecondSpecThenDelete(a, b, s4);
    var s, x := FirstSpecCached(a, b, s4, x4);
    assert EndsMisfiled(s, x, "a");
  }

  /** The worker files the second object over the first, and then the second is deleted. */
  lemma SecondSpecThenDelete(a: Object<AgentVersionSpec>, b: Object<AgentVersionSpec>, s4: System)
    returns (end: System, actions: seq<Action>)
    requires a.content.version == b.content.version == "v"
    requires s4 == Race(Watch(map["a" := a, "b" := b], [], {"b"}, Idle), map["v" := a.content], Caching([]))
    ensures end == Race(Watch(map["a" := a], [], {}, Idle), map["v" := b.content], Caching([]))
    ensures Runs(s4, actions) && Exec(s4, actions) == end
  {
    var both := s4.watch.store;
    assert s4.cache["v" := b.content] == map["v" := b.content];
    var s7 := Race(Watch(both, [], {}, Idle), map["v" := b.content], Caching([]));
    var x7;
    end, x7 := SecondDeleted(a, b, s7);
    actions := WorkerTurn(both, "b", {"b"}, s4.cache, Caching([]), s7, x7);
  }

  /** The worker takes a key, looks it up and files what it found. */
  lemma WorkerTurn(store: map<string, Object<AgentVersionSpec>>, k: string, dirty: set<string>, cache: VersionCache,
                   init: InitPhase, s': System, rest: seq<Action>) returns (actions: seq<Action>)
    requires k in store && k in dirty
    requires s' == Race(Watch(store, [], dirty - {k}, Idle), CacheSpec(cache, store[k].content), init) && Runs(s', rest)
    ensures var s := Race(Watch(store, [], dirty, Idle), cache, init);
      && Runs(s, actions) && Exec(s, actions) == Exec(s', rest)
      && (Coherent(store) && CoherentThroughout(s', rest) ==> CoherentThroughout(s, actions))
  {
    var s2 := Race(Watch(store, [], dirty - {k}, Holding(k, Some(store[k]))), cache, init);
    var s1 := Race(Watch(store, [], dirty - {k}, Got(k)), cache, init);
    var x2 := CoherentAfter(s2, Watching(Finish), s', rest);
    var x1 := CoherentAfter(s1, Watching(Lookup), s2, x2);
    actions := CoherentAfter(Race(Watch(store, [], dirty, Idle), cache, init), Watching(TakeKey(k)), s1, x1);
  }

  lemma SecondDeleted(a: Object<AgentVersionSpec>, b: Object<AgentVersionSpec>, s7: System)
    returns (end: System, actions: seq<Action>)
    requires s7 == Race(Watch(map["a" := a, "b" := b], [], {}, Idle), map["v" := b.content], Caching([]))
    ensures end == Race(Watch(map["a" := a], [], {}, Idle), map["v" := b.content], Caching([]))
    ensures Runs(s7, actions) && Exec(s7, actions) == end
  {
    assert s7.watch.store - {"b"} == map["a" := a];
    end := Race(Watch(map["a" := a], [], {}, Idle), s7.cache, Caching([]));
    var s8 := Race(Watch(map["a" := a], [Deleted("b", false)], {}, Idle), s7.cache, Caching([]));
    var x8 := After(s8, Watching(Deliver), end, []);
    actions := After(s7, Watching(StoreDelete("b", false)), s8, x8);
  }

  /** Both objects are stored and announced, and the worker caches the first. */
  lemma FirstSpecCached(a: Object<AgentVersionSpec>, b: Object<AgentVersionSpec>, s4: System, rest: seq<Action>)
    returns (s: System, actions: seq<Action>)
    requires a.content.version == "v"
    requires s4 == Race(Watch(map["a" := a, "b" := b], [], {"b"}, Idle), map["v" := a.content], Caching([]))
    requires Runs(s4, rest)
    ensures Initial(s) && Runs(s, actions) && Exec(s, actions) == Exec(s4, rest)
  {
    var both := map["a" := a, "b" := b];
    var s1 := Race(Watch(both, [], {"a", "b"}, Idle), map[], Caching([]));
    assert map[]["v" := a.content] == map["v" := a.content] && {"a", "b"} - {"a"} == {"b"};
    var x1 := WorkerTurn(both, "a", {"a", "b"}, map[], Caching([]), s4, rest);
    s, actions := BothAnnounced(both, s1, x1);
  }

  lemma BothAnnounced(both: map<string, Object<AgentVersionSpec>>, s1: System, rest: seq<Action>)
    returns (s: System, actions: seq<Action>)
    requires both.Keys == {"a", "b"}
    requires s1 == Race(Watch(both, [], {"a", "b"}, Idle), map[], Caching([])) && Runs(s1, rest)
    ensures Initial(s) && Runs(s, actions) && Exec(s, actions) == Exec(s1, rest)
  {
    var s0 := Race(Watch(both, [Added("b")], {"a"}, Idle), map[], Caching([]));
    var x0 := After(s0, Watching(Deliver), s1, rest);
    var start := Race(Watch(both, [Added("a"), Added("b")], {}, Idle), map[], Caching([]));
    var y := After(start, Watching(Deliver), s0, x0);
    s := start.(init := NotListed);
    assert Listed(both, []) == [];
    actions := After(s, ListForInit([]), start, y);
  }

  lemma CoherentAfter(s: System, a: Action, s': System, rest: seq<Action>) returns (longer: seq<Action>)
    requires Possible(s, a) && Act(s, a) == s' && Runs(s', rest)
    ensures Runs(s, longer) && Exec(s, longer) == Exec(s', rest)
    ensures Coherent(s.watch.store) && CoherentThroughout(s', rest) ==> CoherentThroughout(s, longer)
  {
    longer := After(s, a, s', rest);
    assert longer[1..] == rest;
  }

  function Spec(configMapName: string): Object<AgentVersionSpec> {
    Object(AgentVersionSpec("v", configMapName, true), 0)
  }

  function Only(name: string): map<string, Object<AgentVersionSpec>> {
    map["a" := Spec(name)]
  }

  /** InitAgentVersion beside a working queue files a listed spec over the newer one the worker filed; no two objects
      ever share a version. */
  lemma UnsynchronisedInitMisfiles()
    ensures exists s, actions :: EndsMisfiled(s, actions, "a") && CoherentThroughout(s, actions)
  {
    var rest := Caching([Spec("one").content]);
    var s4 := Race(Watch(Only("two"), [], {"a"}, Idle), map[], rest);
    var end, x4 := WorkerThenInit(s4);
    var update := Updated("a", Spec("one"), Spec("two"));
    var s3 := Race(Watch(Only("two"), [update], {"a"}, Idle), map[], rest);
    var s2 := Race(Watch(Only("one"), [], {"a"}, Idle), map[], rest);
    var s1 := Race(Watch(Only("one"), [Added("a")], {}, Idle), map[], rest);
    var s := s1.(init := NotListed);
    assert "one"[0] == 'o' && "two"[0] == 't';
    var x3 := CoherentAfter(s3, Watching(Deliver), s4, x4);
    assert Only("one")["a" := Spec("two")] == Only("two");
    var x2 := CoherentAfter(s2, Watching(StoreUpdate("a", Spec("two"))), s3, x3);
    var x1 := CoherentAfter(s1, Watching(Deliver), s2, x2);
    assert Listed(Only("one"), ["a"]) == rest.rest;
    var x := CoherentAfter(s, ListForInit(["a"]), s1, x1);
    assert EndsMisfiled(s, x, "a");
  }

  lemma WorkerThenInit(s4: System) returns (end: System, actions: seq<Action>)
    requires s4 == Race(Watch(Only("two"), [], {"a"}, Idle), map[], Caching([Spec("one").content]))
    ensures end == Race(Watch(Only("two"), [], {}, Idle), map["v" := Spec("one").content], Caching([]))
    ensures Runs(s4, actions) && Exec(s4, actions) == end && CoherentThroughout(s4, actions)
  {
    end := Race(Watch(Only("two"), [], {}, Idle), map["v" := Spec("one").content], Caching([]));
    var s7 := Race(Watch(Only("two"), [], {}, Idle), map["v" := Spec("two").content], s4.init);
    assert s4.init.rest[1..] == [];
    assert s7.cache["v" := Spec("one").content] == end.cache;
    var x7 := CoherentAfter(s7, CacheNextForInit, end, []);
    assert map[]["v" := Spec("two").content] == s7.cache && {"a"} - {"a"} == {};
    actions := WorkerTurn(Only("two"), "a", {"a"}, map[], s4.init, s7, x7);
  }

  /** A failed lookup: the key is lost, the process dies of the entry queued in its place, and nothing was filed. */
  lemma FailedLookupEndsInCrash() returns (s: System, actions: seq<Action>)
    ensures Initial(s) && Runs(s, actions)
    ensures var r := Exec(s, actions); r.crashed && r.cache == map[] && "a" in r.watch.store
  {
    var watch := Watch(Only("one"), [], {}, Idle);
    var end := System(watch, map[], Caching([]), true, true);
    var s4 := System(watch, map[], Caching([]), true, false);
    var s3 := Race(watch.(worker := Got("a")), map[], Caching([]));
    var s2 := Race(watch.(dirty := {"a"}), map[], Caching([]));
    var s1 := Race(watch.(pending := [Added("a")]), map[], Caching([]));
    s := s1.(init := NotListed);
    assert Runs(end, []) && Exec(end, []) == end;
    var x4 := After(s4, TakeForeign, end, []);
    var x3 := After(s3, LookupFails, s4, x4);
    var x2 := After(s2, Watching(TakeKey("a")), s3, x3);
    var x1 := After(s1, Watching(Deliver), s2, x2);
    assert Listed(Only("one"), []) == [];
    actions := After(s, ListForInit([]), s1, x1);
  }
}
