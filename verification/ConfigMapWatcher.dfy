/** The routines of pkg/watcher/cm_watcher.go, each proved to take exactly its steps of ConfigMapProtocol. */
module ConfigMapWatcher {
  import opened Prelude
  import opened InjectorConfig
  import opened Informer
  import opened ConfigMapProtocol

  /** InitConfigMap without interruption: cache item after item, stop at the first failure. */
  function CacheAll(env: Env, c: Caches, items: seq<(string, Data)>): (Caches, bool)
    decreases |items|
  {
    if items == [] then (c, true)
    else
      var (c', ok) := Cached(env, c, items[0].0, items[0].1);
      if ok then CacheAll(env, c', items[1..]) else (c', false)
  }

  class ConfigMapWatcher {
    const env: Env
    const config: InjectorConfigStore
    // the informer: its store and the events it has yet to deliver
    var indexer: map<string, Object<Content>>
    var deliveries: seq<Event<Content>>
    var cmQueue: set<string>
    var worker: Worker<Content>
    var init: InitPhase

    constructor (env: Env, config: InjectorConfigStore)
      ensures this.env == env && this.config == config
      ensures State() == System(Watch(map[], [], {}, Idle), config.Contents(), NotListed)
    {
      this.env, this.config := env, config;
      indexer, deliveries, cmQueue, worker, init := map[], [], {}, Idle, NotListed;
    }

    ghost function State(): System
      reads this, config
    {
      System(Watch(indexer, deliveries, cmQueue, worker), config.Contents(), init)
    }

    method CreateOrUpdateCache(key: string)
      modifies this`cmQueue
      ensures cmQueue == old(cmQueue) + {key}
    {
      cmQueue := cmQueue + {key};
    }

    method UpdateFunc(key: string, before: Object<Content>, after: Object<Content>)
      modifies this`cmQueue
      ensures cmQueue == if before.content == after.content then old(cmQueue) else old(cmQueue) + {key}
    {
      if before.content.data != after.content.data || before.content.binaryData != after.content.binaryData {
        CreateOrUpdateCache(key);
      }
    }

    method DeleteFunc(key: string, tombstone: bool)
      modifies config`injectorRules
      ensures config.injectorRules ==
              if !tombstone && key == env.ruleName then map[] else old(config.injectorRules)
    {
      if tombstone {
        return;
      }
      if key == env.ruleName {
        config.injectorRules := map[];
      }
    }

    /** The informer hands its oldest event to the matching handler. */
    method DeliverNext()
      requires deliveries != []
      modifies this`deliveries, this`cmQueue, config`injectorRules
      ensures State() == Act(env, old(State()), Watching(Deliver))
    {
      var event := deliveries[0];
      deliveries := deliveries[1..];
      match event
      case Added(key) => CreateOrUpdateCache(key);
      case Updated(key, before, after) => UpdateFunc(key, before, after);
      case Deleted(key, tombstone) => DeleteFunc(key, tombstone);
    }

    /** One turn of the worker when nothing interrupts it; the queue's Get blocks while the queue is empty. */
    method ProcessConfigMap(lookupFails: bool) returns (key: string)
      requires cmQueue != {} && worker.Idle?
      modifies this`cmQueue, this`worker, config
      ensures key in old(cmQueue)
      ensures var turn := if lookupFails then [Watching(TakeKey(key)), LookupFails] else Actions(ProcessKey(key));
              Runs(env, old(State()), turn) && State() == Exec(env, old(State()), turn)
    {
      ghost var s := State();
      key :| key in cmQueue;
      cmQueue, worker := cmQueue - {key}, Got(key);
      ghost var s1 := State();
      assert s1 == Act(env, s, Watching(TakeKey(key)));
      if lookupFails {
        cmQueue, worker := cmQueue + {key}, Idle;
        TwoSteps(env, s, s1, Watching(TakeKey(key)), LookupFails);
        return;
      }
      worker := Holding(key, if key in indexer then Some(indexer[key]) else None);
      ghost var s2 := State();
      assert s2 == Act(env, s1, Watching(Lookup));
      if worker.snapshot.Some? {
        var _ := config.CacheConfigMap(env, key, worker.snapshot.value.content.data);
      }
      worker := Idle;
      assert State() == Act(env, s2, Watching(Finish));
      TwoSteps(env, s1, s2, Watching(Lookup), Watching(Finish));
      assert Actions(ProcessKey(key))[1..] == [Watching(Lookup), Watching(Finish)];
    }

    /** Lists the store and caches the listed items in the order the lister returned them. */
    method InitConfigMap(order: seq<string>) returns (ok: bool)
      requires init.NotListed? && Enumerates(order, indexer.Keys)
      modifies this`init, config
      ensures (config.Contents(), ok) == CacheAll(env, old(config.Contents()), Listed(indexer, order))
      ensures ok ==> init == Caching([])
    {
      var items := Listed(indexer, order);
      init := Caching(items);
      var i := 0;
      while i < |items|
        invariant 0 <= i <= |items|
        invariant init == Caching(items[i..])
        invariant CacheAll(env, config.Contents(), items[i..]) == CacheAll(env, old(config.Contents()), items)
      {
        assert items[i..][1..] == items[i + 1..];
        ok := config.CacheConfigMap(env, items[i].0, items[i].1);
        if !ok {
          return;
        }
        init := Caching(items[i + 1..]);
        i := i + 1;
      }
      ok := true;
    }
  }

  lemma TwoSteps(env: Env, s: System, s1: System, a: Action, b: Action)
    requires Possible(env, s, a) && s1 == Act(env, s, a) && Possible(env, s1, b)
    ensures Runs(env, s, [a, b]) && Exec(env, s, [a, b]) == Act(env, s1, b)
  {
    assert [a, b][1..] == [b] && [b][1..] == [];
    assert Runs(env, Act(env, s1, b), []) && Exec(env, Act(env, s1, b), []) == Act(env, s1, b);
    assert Runs(env, s1, [b]) && Exec(env, s1, [b]) == Act(env, s1, b);
  }

  /** Caching everything in one go is what the protocol's step by step InitConfigMap does when left alone. */
  lemma {:induction false} InitStepsCacheAll(env: Env, s: System) returns (steps: seq<Action>)
    requires s.init.Caching? && CacheAll(env, s.caches, s.init.rest).1
    ensures Runs(env, s, steps) && forall a :: a in steps ==> a == CacheNextForInit
    ensures Exec(env, s, steps) == s.(caches := CacheAll(env, s.caches, s.init.rest).0, init := Caching([]))
    decreases |s.init.rest|
  {
    if s.init.rest == [] {
      steps := [];
    } else {
      var rest := InitStepsCacheAll(env, Act(env, s, CacheNextForInit));
      steps := [CacheNextForInit] + rest;
      assert steps[1..] == rest;
    }
  }

  /** A ConfigMap that can be cached: it has data, and what must be parsed parses. */
  predicate Cacheable(env: Env, name: string, data: Data) {
    && data.Some?
    && (name == env.defaultName && "injector.yaml" in data.value ==> env.parseAgent(data.value["injector.yaml"]).Some?)
    && (name == env.ruleName && name != env.defaultName ==>
          forall k :: k in data.value ==> env.parseRule(data.value[k]).Some?)
  }

  /** InitConfigMap succeeds exactly when every listed ConfigMap can be cached, whatever the order and the caches. */
  lemma {:induction false} InitSucceedsIff(env: Env, c: Caches, items: seq<(string, Data)>)
    ensures CacheAll(env, c, items).1 <==> forall i :: 0 <= i < |items| ==> Cacheable(env, items[i].0, items[i].1)
    decreases |items|
  {
    if items != [] {
      assert Cached(env, c, items[0].0, items[0].1).1 <==> Cacheable(env, items[0].0, items[0].1);
      var rest := items[1..];
      InitSucceedsIff(env, Cached(env, c, items[0].0, items[0].1).0, rest);
      assert forall i :: 0 < i < |items| ==> items[i] == rest[i - 1];
    }
  }
}
