/** pkg/watcher/av_watcher.go as steps of one system. Its cache is keyed by a field of the value, so a stale
    write can land on the entry of a different object. */
module AgentVersionProtocol {
  import opened Prelude
  import opened Informer

  datatype AgentVersionSpec = AgentVersionSpec(version: string, configMapName: string, enable: bool)

  type VersionCache = map<string, AgentVersionSpec>

  /** A version both admissions honour: cached, enabled, and its ConfigMap is cached too. */
  predicate Usable(versions: VersionCache, maps: map<string, StringMap>, version: string) {
    version in versions && versions[version].enable && versions[version].configMapName in maps
  }

  datatype InitPhase = NotListed | Caching(rest: seq<AgentVersionSpec>)

  /** foreign: an entry that is no key waits in the work queue. crashed: the process has died of it. */
  datatype System = System(watch: Watch<AgentVersionSpec>, cache: VersionCache, init: InitPhase,
                           foreign: bool, crashed: bool)

  datatype Action =
    | Watching(step: Step<AgentVersionSpec>)
    | LookupFails
    | TakeForeign
    | ListForInit(order: seq<string>)
    | CacheNextForInit

  predicate InitDone(s: System) {
    s.init == Caching([])
  }

  function CacheSpec(cache: VersionCache, spec: AgentVersionSpec): VersionCache {
    cache[spec.version := spec]
  }

  /** InitAgentVersion lists one namespace only, so any stored keys may be listed. */
  predicate Possible(s: System, a: Action) {
    && !s.crashed
    && match a
       case Watching(step) => Enabled(s.watch, step)
       case LookupFails => s.watch.worker.Got?
       case TakeForeign => s.watch.worker.Idle? && s.foreign
       case ListForInit(order) => s.init.NotListed? && forall k :: k in order ==> k in s.watch.store
       case CacheNextForInit => s.init.Caching? && s.init.rest != []
  }

  /** A failed lookup queues the item it did not get instead of the key. When the worker takes that entry, reading it
      as a string panics. */
  function Act(s: System, a: Action): System
    requires Possible(s, a)
  {
    match a
    case Watching(step) =>
      var w := Advance(s.watch, step);
      if step.Finish? && s.watch.worker.snapshot.Some? then
        s.(watch := w, cache := CacheSpec(s.cache, s.watch.worker.snapshot.value.content))
      else s.(watch := w)
    case LookupFails => s.(watch := s.watch.(worker := Idle), foreign := true)
    case TakeForeign => s.(crashed := true)
    case ListForInit(order) =>
      s.(init := Caching(Listed(s.watch.store, order)))
    case CacheNextForInit =>
      s.(cache := CacheSpec(s.cache, s.init.rest[0]), init := Caching(s.init.rest[1..]))
  }

  function Listed(store: map<string, Object<AgentVersionSpec>>, order: seq<string>): seq<AgentVersionSpec>
    requires forall k :: k in order ==> k in store
  {
    seq(|order|, i requires 0 <= i < |order| => store[order[i]].content)
  }

  predicate Initial(s: System) {
    && s.watch.dirty == {} && s.watch.worker.Idle? && s.init.NotListed? && s.cache == map[]
    && !s.foreign && !s.crashed
    && (forall e :: e in s.watch.pending ==> e.Added?)
    && (forall k :: k in s.watch.store ==> Added(k) in s.watch.pending)
  }

  predicate Runs(s: System, actions: seq<Action>)
    decreases |actions|
  {
    actions != [] ==> Possible(s, actions[0]) && Runs(Act(s, actions[0]), actions[1..])
  }

  function Exec(s: System, actions: seq<Action>): System
    requires Runs(s, actions)
    decreases |actions|
  {
    if actions == [] then s else Exec(Act(s, actions[0]), actions[1..])
  }

  // ----- the cache agrees with the store -----

  predicate Filed(cache: VersionCache, spec: AgentVersionSpec) {
    spec.version in cache && cache[spec.version] == spec
  }

  /** Every cached spec is filed under its own version. */
  predicate FiledUnderOwnVersion(cache: VersionCache) {
    forall v :: v in cache ==> cache[v].version == v
  }

  ghost predicate FiledOrAwaiting(s: System) {
    forall k :: k in s.watch.store ==> Filed(s.cache, s.watch.store[k].content) || Awaiting(s.watch, k)
  }

  ghost predicate Invariant(s: System) {
    StaleSnapshotsQueued(s.watch) && FiledOrAwaiting(s)
  }

  lemma InitialInvariant(s: System)
    requires Initial(s)
    ensures Invariant(s) && InitComesFirst(s)
  {
    forall k | k in s.watch.store ensures Queued(s.watch, k) {
      var i :| 0 <= i < |s.watch.pending| && s.watch.pending[i] == Added(k);
      assert Notifies(s.watch.pending[i]);
    }
  }

  /** Stored object k disagrees with the spec about to be filed under its version, and will not be filed again. */
  ghost predicate Overwrites(s: System, spec: AgentVersionSpec, k: string) {
    && k in s.watch.store && s.watch.store[k].content.version == spec.version && s.watch.store[k].content != spec
    && !Awaiting(s.watch, k)
  }

  /** The three ways to lose a stored spec: the worker or InitAgentVersion files another one over it, or a failed
      lookup loses the key before it was filed. */
  ghost predicate Hazard(s: System, a: Action)
    requires Possible(s, a)
  {
    match a
    case Watching(step) =>
      && step.Finish? && s.watch.worker.snapshot.Some?
      && exists k :: Overwrites(s, s.watch.worker.snapshot.value.content, k)
    case CacheNextForInit => exists k :: Overwrites(s, s.init.rest[0], k)
    case LookupFails =>
      var k := s.watch.worker.key;
      k in s.watch.store && !Filed(s.cache, s.watch.store[k].content) && !Queued(s.watch, k)
    case _ => false
  }

  /** What one step does to one stored object. */
  lemma WatchingKeepsIff(s: System, step: Step<AgentVersionSpec>, k: string)
    requires Invariant(s) && !s.crashed && Enabled(s.watch, step) && k in Advance(s.watch, step).store
    ensures var s' := Act(s, Watching(step));
      (Filed(s'.cache, s'.watch.store[k].content) || Awaiting(s'.watch, k)) <==>
      !(step.Finish? && s.watch.worker.snapshot.Some? && Overwrites(s, s.watch.worker.snapshot.value.content, k))
  {
    var w := s.watch;
    QueuedAfter(w, step, k);
    if k in w.store && Awaiting(w, k) {
      AwaitingAfter(w, step, k);
    }
  }

  /** Exactly the hazards break the cache: every other step, in any state, keeps each stored spec filed or awaiting. */
  lemma InvariantUnlessHazard(s: System, a: Action)
    requires Invariant(s) && Possible(s, a)
    ensures Invariant(Act(s, a)) <==> !Hazard(s, a)
  {
    var s' := Act(s, a);
    match a
    case Watching(step) =>
      StaleSnapshotsQueuedAfter(s.watch, step);
      forall k | k in s'.watch.store
        ensures (Filed(s'.cache, s'.watch.store[k].content) || Awaiting(s'.watch, k)) <==>
          !(step.Finish? && s.watch.worker.snapshot.Some? && Overwrites(s, s.watch.worker.snapshot.value.content, k))
      {
        WatchingKeepsIff(s, step, k);
      }
    case LookupFails =>
      assert forall k :: Awaiting(s'.watch, k) <==> Queued(s.watch, k);
    case TakeForeign =>
    case ListForInit(_) =>
    case CacheNextForInit =>
      forall k | k in s'.watch.store
        ensures (Filed(s'.cache, s'.watch.store[k].content) || Awaiting(s'.watch, k)) <==>
          !Overwrites(s, s.init.rest[0], k)
      {
      }
  }

  ghost predicate HazardFree(s: System, actions: seq<Action>)
    requires Runs(s, actions)
    decreases |actions|
  {
    actions != [] ==> !Hazard(s, actions[0]) && HazardFree(Act(s, actions[0]), actions[1..])
  }

  ghost predicate InEveryState(s: System, actions: seq<Action>)
    requires Runs(s, actions)
    decreases |actions|
  {
    Invariant(s) && (actions != [] ==> InEveryState(Act(s, actions[0]), actions[1..]))
  }

  /** Every stored spec is filed or awaiting in every state of a run exactly when no hazard occurs in it. */
  lemma {:induction false} EveryRunKeepsInvariantIff(s: System, actions: seq<Action>)
    requires Invariant(s) && Runs(s, actions)
    ensures InEveryState(s, actions) <==> HazardFree(s, actions)
    ensures InEveryState(s, actions) ==> Invariant(Exec(s, actions))
    decreases |actions|
  {
    if actions != [] {
      InvariantUnlessHazard(s, actions[0]);
      if Invariant(Act(s, actions[0])) {
        EveryRunKeepsInvariantIff(Act(s, actions[0]), actions[1..]);
      }
    }
  }

  lemma {:induction false} EveryRunFilesUnderOwnVersion(s: System, actions: seq<Action>)
    requires FiledUnderOwnVersion(s.cache) && Runs(s, actions)
    ensures FiledUnderOwnVersion(Exec(s, actions).cache)
    decreases |actions|
  {
    if actions != [] {
      EveryRunFilesUnderOwnVersion(Act(s, actions[0]), actions[1..]);
    }
  }

  /** A drained run without hazards has every stored version cached, however versions moved between the objects. */
  lemma DrainedCacheAgrees(s: System, actions: seq<Action>)
    requires Initial(s) && Runs(s, actions) && HazardFree(s, actions) && Drained(Exec(s, actions).watch)
    ensures var r := Exec(s, actions);
      && (forall k :: k in r.watch.store ==>
            var spec := r.watch.store[k].content; spec.version in r.cache && r.cache[spec.version] == spec)
      && FiledUnderOwnVersion(r.cache)
  {
    InitialInvariant(s);
    EveryRunKeepsInvariantIff(s, actions);
    EveryRunFilesUnderOwnVersion(s, actions);
  }

  // ----- failed lookups -----

  /** The process lives on, and no entry that would kill it is queued, exactly when no lookup ever failed. */
  lemma {:induction false} SafeIffNoLookupFailed(s: System, actions: seq<Action>)
    requires Initial(s) && Runs(s, actions)
    ensures var r := Exec(s, actions); !r.foreign && !r.crashed <==> LookupFails !in actions
  {
    ForeignStays(s, actions);
  }

  lemma {:induction false} ForeignStays(s: System, actions: seq<Action>)
    requires Runs(s, actions) && (s.crashed ==> s.foreign)
    ensures var r := Exec(s, actions); (r.foreign <==> s.foreign || LookupFails in actions) && (r.crashed ==> r.foreign)
    decreases |actions|
  {
    if actions != [] {
      ForeignStays(Act(s, actions[0]), actions[1..]);
    }
  }

  /** Wherever the worker stands, once a lookup has failed it can go on to take the foreign entry and die of it, and
      nothing happens after. */
  lemma ForeignEntryIsFatal(s: System) returns (actions: seq<Action>)
    requires s.foreign && !s.crashed
    ensures Runs(s, actions) && Exec(s, actions).crashed
    ensures forall a :: !Possible(Exec(s, actions), a)
    ensures Exec(s, actions).watch.store == s.watch.store
  {
    match s.watch.worker
    case Idle => actions := After(s, TakeForeign, Act(s, TakeForeign), []);
    case Got(_) =>
      var s1 := Act(s, LookupFails);
      var x1 := After(s1, TakeForeign, Act(s1, TakeForeign), []);
      actions := After(s, LookupFails, s1, x1);
    case Holding(_, _) =>
      var s1 := Act(s, Watching(Finish));
      var x1 := After(s1, TakeForeign, Act(s1, TakeForeign), []);
      actions := After(s, Watching(Finish), s1, x1);
  }

  /** One more step in front of a run. */
  lemma After(s: System, a: Action, s': System, rest: seq<Action>) returns (longer: seq<Action>)
    requires Possible(s, a) && Act(s, a) == s' && Runs(s', rest)
    ensures longer == [a] + rest && Runs(s, longer) && Exec(s, longer) == Exec(s', rest)
  {
    longer := [a] + rest;
    assert longer[1..] == rest;
  }

  // ----- enough for a run without hazards -----

  /** Stored objects that name the same version say the same about it; unique versions are the usual case. */
  predicate Coherent(store: map<string, Object<AgentVersionSpec>>) {
    forall i, j :: i in store && j in store && store[i].content.version == store[j].content.version ==>
      store[i].content == store[j].content
  }

  /** The worker takes no key before InitAgentVersion is through. */
  predicate WorkerWaits(s: System, a: Action) {
    a.Watching? && a.step.TakeKey? ==> InitDone(s)
  }

  /** The worker waits for InitAgentVersion, no lookup fails, and the store is coherent in every state. */
  predicate Fair(s: System, actions: seq<Action>)
    requires Runs(s, actions)
    decreases |actions|
  {
    && Coherent(s.watch.store)
    && (actions != [] ==>
          WorkerWaits(s, actions[0]) && !actions[0].LookupFails? && Fair(Act(s, actions[0]), actions[1..]))
  }

  /** While InitAgentVersion is not through, the worker has not begun and every stored object is still queued. */
  ghost predicate InitComesFirst(s: System) {
    !InitDone(s) ==> s.watch.worker.Idle? && forall k :: k in s.watch.store ==> Queued(s.watch, k)
  }

  /** Whatever object the held snapshot would overwrite is queued again. */
  ghost predicate OverwrittenAreQueued(w: Watch<AgentVersionSpec>) {
    w.worker.Holding? && w.worker.snapshot.Some? ==>
      var held := w.worker.snapshot.value.content;
      forall k :: k in w.store && w.store[k].content.version == held.version && w.store[k].content != held ==>
        Queued(w, k)
  }

  lemma OverwrittenAreQueuedAfter(w: Watch<AgentVersionSpec>, step: Step<AgentVersionSpec>)
    requires OverwrittenAreQueued(w) && Coherent(w.store) && Enabled(w, step)
    ensures OverwrittenAreQueued(Advance(w, step))
  {
    var w' := Advance(w, step);
    forall k | k in w'.store
      ensures Queued(w, k) && step != TakeKey(k) ==> Queued(w', k)
      ensures k !in w.store || w.store[k].content != w'.store[k].content ==> Queued(w', k)
    {
      QueuedAfter(w, step, k);
    }
  }

  lemma InitComesFirstAfter(s: System, a: Action)
    requires InitComesFirst(s) && Possible(s, a) && WorkerWaits(s, a)
    ensures InitComesFirst(Act(s, a))
  {
    if a.Watching? {
      forall k | k in Advance(s.watch, a.step).store
        ensures !InitDone(s) ==> Queued(Advance(s.watch, a.step), k)
      {
        QueuedAfter(s.watch, a.step, k);
      }
    }
  }

  lemma {:induction false} FairRunsAreHazardFree(s: System, actions: seq<Action>)
    requires InitComesFirst(s) && OverwrittenAreQueued(s.watch) && Runs(s, actions) && Fair(s, actions)
    ensures HazardFree(s, actions)
    decreases |actions|
  {
    if actions != [] {
      InitComesFirstAfter(s, actions[0]);
      if actions[0].Watching? {
        OverwrittenAreQueuedAfter(s.watch, actions[0].step);
      }
      FairRunsAreHazardFree(Act(s, actions[0]), actions[1..]);
    }
  }

  /** Under the usual assumptions every spec is filed or awaiting throughout. */
  lemma FairRunsKeepInvariant(s: System, actions: seq<Action>)
    requires Initial(s) && Runs(s, actions) && Fair(s, actions)
    ensures InEveryState(s, actions) && HazardFree(s, actions)
  {
    InitialInvariant(s);
    FairRunsAreHazardFree(s, actions);
    EveryRunKeepsInvariantIff(s, actions);
  }

  /** Left alone, the watcher catches up with a store whose objects agree per version: deliveries and worker turns lead to
      a drained state with every stored spec filed. */
  lemma {:induction false} CanCatchUp(s: System) returns (actions: seq<Action>, r: System)
    requires Invariant(s) && !s.crashed && Coherent(s.watch.store) && OverwrittenAreQueued(s.watch)
    ensures Runs(s, actions) && r == Exec(s, actions)
    ensures Drained(r.watch) && r.watch.store == s.watch.store && !r.crashed
    ensures forall k :: k in r.watch.store ==> Filed(r.cache, r.watch.store[k].content)
    decreases |s.watch.pending|, |s.watch.dirty|, TurnsLeft(s.watch.worker)
  {
    if Drained(s.watch) {
      actions, r := [], s;
    } else {
      var step := NextTurn(s.watch);
      InvariantUnlessHazard(s, Watching(step));
      OverwrittenAreQueuedAfter(s.watch, step);
      var rest;
      rest, r := CanCatchUp(Act(s, Watching(step)));
      actions := After(s, Watching(step), Act(s, Watching(step)), rest);
    }
  }
}
