/** The routines of pkg/watcher/av_watcher.go, each proved to take exactly its steps of AgentVersionProtocol. */
module AgentVersionWatcher {
  import opened Prelude
  import opened Informer
  import opened AgentVersionProtocol

  class AgentVersionWatcher {
    // the informer: its store and the events it has yet to deliver
    var indexer: map<string, Object<AgentVersionSpec>>
    var deliveries: seq<Event<AgentVersionSpec>>
    // the work queue: its keys, and whether it also holds an entry that is none
    var cmQueue: set<string>
    var foreignQueued: bool
    var worker: Worker<AgentVersionSpec>
    var crashed: bool
    var init: InitPhase
    // the process-wide cache
    var injectorAgentVersion: VersionCache

    constructor ()
      ensures State() == System(Watch(map[], [], {}, Idle), map[], NotListed, false, false)
    {
      indexer, deliveries, cmQueue, worker, init := map[], [], {}, Idle, NotListed;
      injectorAgentVersion, foreignQueued, crashed := map[], false, false;
    }

    ghost function State(): System
      reads this
    {
      System(Watch(indexer, deliveries, cmQueue, worker), injectorAgentVersion, init, foreignQueued, crashed)
    }

    method CacheAgentVersion(spec: AgentVersionSpec)
      modifies this`injectorAgentVersion
      ensures injectorAgentVersion == old(injectorAgentVersion)[spec.version := spec]
    {
      injectorAgentVersion := injectorAgentVersion[spec.version := spec];
    }

    /** The informer hands its oldest event to the matching handler; deletes are only logged. */
    method DeliverNext()
      requires deliveries != [] && !crashed
      modifies this`deliveries, this`cmQueue
      ensures State() == Act(old(State()), Watching(Deliver))
    {
      var event := deliveries[0];
      deliveries := deliveries[1..];
      match event
      case Added(key) => cmQueue := cmQueue + {key};
      case Updated(key, before, after) =>
        if before.content != after.content {
          cmQueue := cmQueue + {key};
        }
      case Deleted(_, _) =>
    }

    /** One turn of the worker that takes a key, when nothing interrupts it; the queue's Get blocks while it is
        empty. */
    method ProcessAgentVersion(lookupFails: bool) returns (key: string)
      requires cmQueue != {} && worker.Idle? && !crashed
      modifies this`cmQueue, this`worker, this`foreignQueued, this`injectorAgentVersion
      ensures key in old(cmQueue)
      ensures var turn := if lookupFails then [Watching(TakeKey(key)), LookupFails]
                          else [Watching(TakeKey(key)), Watching(Lookup), Watching(Finish)];
              Runs(old(State()), turn) && State() == Exec(old(State()), turn)
    {
      ghost var s := State();
      key :| key in cmQueue;
      cmQueue, worker := cmQueue - {key}, Got(key);
      ghost var s1 := State();
      if lookupFails {
        QueueMissingItem();
        TwoSteps(s, s1, Watching(TakeKey(key)), LookupFails);
        return;
      }
      worker := Holding(key, if key in indexer then Some(indexer[key]) else None);
      ghost var s2 := State();
      if worker.snapshot.Some? {
        CacheAgentVersion(worker.snapshot.value.content);
      }
      worker := Idle;
      assert State() == Act(s2, Watching(Finish));
      TwoSteps(s1, s2, Watching(Lookup), Watching(Finish));
      assert [Watching(TakeKey(key)), Watching(Lookup), Watching(Finish)][1..] == [Watching(Lookup), Watching(Finish)];
    }

    /** AddRateLimited on the item that was not found, which is no key; the key itself is not put back. */
    method QueueMissingItem()
      requires worker.Got? && !crashed
      modifies this`worker, this`foreignQueued
      ensures State() == Act(old(State()), LookupFails)
    {
      worker, foreignQueued := Idle, true;
    }

    /** The turn in which the queue hands out that entry: reading it as a string panics. */
    method ProcessForeignEntry()
      requires foreignQueued && worker.Idle? && !crashed
      modifies this`crashed
      ensures State() == Act(old(State()), TakeForeign) && crashed
    {
      crashed := true;
    }

    /** InitAgentVersion: caches what the lister returned for one namespace, in the lister's order. */
    method InitAgentVersion(order: seq<string>)
      requires init.NotListed? && forall k :: k in order ==> k in indexer
      modifies this`init, this`injectorAgentVersion
      ensures init == Caching([])
      ensures injectorAgentVersion == CacheAll(old(injectorAgentVersion), Listed(indexer, order))
    {
      var items := Listed(indexer, order);
      init := Caching(items);
      var i := 0;
      while i < |items|
        invariant 0 <= i <= |items|
        invariant init == Caching(items[i..])
        invariant CacheAll(injectorAgentVersion, items[i..]) == CacheAll(old(injectorAgentVersion), items)
      {
        assert items[i..][1..] == items[i + 1..];
        CacheAgentVersion(items[i]);
        init := Caching(items[i + 1..]);
        i := i + 1;
      }
    }
  }

  lemma TwoSteps(s: System, s1: System, a: Action, b: Action)
    requires Possible(s, a) && s1 == Act(s, a) && Possible(s1, b)
    ensures Runs(s, [a, b]) && Exec(s, [a, b]) == Act(s1, b)
  {
    assert [a, b][1..] == [b] && [b][1..] == [];
    assert Runs(Act(s1, b), []) && Exec(Act(s1, b), []) == Act(s1, b);
    assert Runs(s1, [b]) && Exec(s1, [b]) == Act(s1, b);
  }

  /** InitAgentVersion without interruption. */
  function CacheAll(cache: VersionCache, specs: seq<AgentVersionSpec>): VersionCache
    decreases |specs|
  {
    if specs == [] then cache else CacheAll(CacheSpec(cache, specs[0]), specs[1..])
  }

  /** Listing a coherent store caches every listed version and keeps every other entry. */
  lemma {:induction false} CacheAllFilesEverySpec(cache: VersionCache, specs: seq<AgentVersionSpec>, i: nat, v: string)
    requires i < |specs|
    requires forall j, l :: 0 <= j < |specs| && 0 <= l < |specs| && specs[j].version == specs[l].version ==>
               specs[j] == specs[l]
    ensures Filed(CacheAll(cache, specs), specs[i])
    ensures (forall j :: 0 <= j < |specs| ==> specs[j].version != v) ==>
              (v in CacheAll(cache, specs) <==> v in cache) && (v in cache ==> CacheAll(cache, specs)[v] == cache[v])
    decreases |specs|
  {
    var next := CacheSpec(cache, specs[0]);
    if |specs| > 1 {
      assert forall j :: 0 <= j < |specs| - 1 ==> specs[1..][j] == specs[j + 1];
      CacheAllFilesEverySpec(next, specs[1..], if i == 0 then 0 else i - 1, v);
      if i == 0 && forall j :: 1 <= j < |specs| ==> specs[j].version != specs[0].version {
        CacheAllFilesEverySpec(next, specs[1..], 0, specs[0].version);
      } else if i == 0 {
        var j :| 1 <= j < |specs| && specs[j].version == specs[0].version;
        CacheAllFilesEverySpec(next, specs[1..], j - 1, v);
      }
    } else {
      assert specs[1..] == [];
    }
  }
}
