/** pkg/watcher/cm_watcher.go: event handlers, the queue worker and InitConfigMap as steps of one system
    whose interleavings are unrestricted. */
module ConfigMapProtocol {
  import opened Prelude
  import opened InjectorConfig
  import opened Informer

  /** What isConfigMapEqual compares. */
  datatype Content = Content(data: Data, binaryData: Option<map<string, seq<bv8>>>)

  /** InitConfigMap lists the store once and then caches what it listed, item by item. */
  datatype InitPhase = NotListed | Caching(rest: seq<(string, Data)>)

  datatype System = System(watch: Watch<Content>, caches: Caches, init: InitPhase)

  datatype Action =
    | Watching(step: Step<Content>)
    | LookupFails
    | ListForInit(order: seq<string>)
    | CacheNextForInit

  predicate InitDone(s: System) {
    s.init == Caching([])
  }

  /** A failing InitConfigMap ends the process, so its items are cached only while they succeed. */
  ghost predicate Possible(env: Env, s: System, a: Action) {
    match a
    case Watching(step) => Enabled(s.watch, step)
    case LookupFails => s.watch.worker.Got?
    case ListForInit(order) => s.init.NotListed? && Enumerates(order, s.watch.store.Keys)
    case CacheNextForInit =>
      && s.init.Caching? && s.init.rest != []
      && Cached(env, s.caches, s.init.rest[0].0, s.init.rest[0].1).1
  }

  /** The delete handler clears the rules at once; a tombstone makes it return early. */
  predicate ClearsRules(env: Env, e: Event<Content>) {
    e.Deleted? && !e.tombstone && e.key == env.ruleName
  }

  ghost function Act(env: Env, s: System, a: Action): System
    requires Possible(env, s, a)
  {
    match a
    case Watching(step) =>
      var w := Advance(s.watch, step);
      if step.Deliver? && ClearsRules(env, s.watch.pending[0]) then
        s.(watch := w, caches := s.caches.(rules := map[]))
      else if step.Finish? && s.watch.worker.snapshot.Some? then
        s.(watch := w,
           caches := Cached(env, s.caches, s.watch.worker.key, s.watch.worker.snapshot.value.content.data).0)
      else s.(watch := w)
    case LookupFails =>
      s.(watch := s.watch.(worker := Idle, dirty := s.watch.dirty + {s.watch.worker.key}))
    case ListForInit(order) =>
      s.(init := Caching(Listed(s.watch.store, order)))
    case CacheNextForInit =>
      s.(caches := Cached(env, s.caches, s.init.rest[0].0, s.init.rest[0].1).0, init := Caching(s.init.rest[1..]))
  }

  function Listed(store: map<string, Object<Content>>, order: seq<string>): seq<(string, Data)>
    requires forall k :: k in order ==> k in store
  {
    seq(|order|, i requires 0 <= i < |order| => (order[i], store[order[i]].content.data))
  }

  ghost predicate Runs(env: Env, s: System, actions: seq<Action>)
    decreases |actions|
  {
    actions != [] ==> Possible(env, s, actions[0]) && Runs(env, Act(env, s, actions[0]), actions[1..])
  }

  ghost function Exec(env: Env, s: System, actions: seq<Action>): System
    requires Runs(env, s, actions)
    decreases |actions|
  {
    if actions == [] then s else Exec(env, Act(env, s, actions[0]), actions[1..])
  }

  /** The handler is registered on a synced informer: every stored object has an undelivered add event. */
  ghost predicate Initial(s: System) {
    && s.watch.dirty == {} && s.watch.worker.Idle? && s.init.NotListed? && s.caches.rules == map[]
    && (forall e :: e in s.watch.pending ==> e.Added?)
    && (forall k :: k in s.watch.store ==> Added(k) in s.watch.pending)
  }

  // ----- the caches agree with the store -----

  /** What one stored ConfigMap should look like in the caches. Nil data and unparsable YAML make the caching
      call fail, so they promise nothing. */
  ghost predicate Reflects(env: Env, c: Caches, name: string, data: Data) {
    data.Some? ==>
      if name == env.defaultName then
        AgentParses(env, data.value) ==>
          && c.defaultMap == data.value - {INJECTOR_YAML}
          && (INJECTOR_YAML in data.value ==> c.defaultConfig == env.parseAgent(data.value[INJECTOR_YAML]))
      else if name == env.ruleName then
        RulesParse(env, data.value) ==> c.rules == ParsedRules(env, data.value)
      else name in c.maps && c.maps[name] == data.value
  }

  /** The four conditions: cached, dirty, an undelivered notice, or in the worker's hand with equal content. */
  ghost predicate CaughtUpOrAwaiting(env: Env, s: System) {
    forall k :: k in s.watch.store ==> Reflects(env, s.caches, k, s.watch.store[k].content.data) || Awaiting(s.watch, k)
  }

  ghost predicate Invariant(env: Env, s: System) {
    Sound(s.watch) && CaughtUpOrAwaiting(env, s)
  }

  lemma InitialInvariant(env: Env, s: System)
    requires Initial(s)
    ensures Invariant(env, s) && InitComesFirst(s)
  {
    assert forall i :: 0 <= i < |s.watch.pending| ==> s.watch.pending[i].Added?;
    forall k | k in s.watch.store ensures Queued(s.watch, k) {
      var i :| 0 <= i < |s.watch.pending| && s.watch.pending[i] == Added(k);
      assert Notifies(s.watch.pending[i]);
    }
  }

  /** Caching one ConfigMap establishes its own part and leaves every other part alone. */
  lemma CachedReflects(env: Env, c: Caches, name: string, data: Data, other: string, otherData: Data)
    requires env.defaultName != env.ruleName
    ensures var c' := Cached(env, c, name, data).0;
      && Reflects(env, c', name, data)
      && (other != name && Reflects(env, c, other, otherData) ==> Reflects(env, c', other, otherData))
  {
    if data.Some? {
      assert INJECTOR_YAML !in data.value ==> data.value - {INJECTOR_YAML} == data.value;
    }
  }

  lemma WatchingKeeps(env: Env, s: System, step: Step<Content>, k: string)
    requires env.defaultName != env.ruleName && Invariant(env, s)
    requires Enabled(s.watch, step) && k in Advance(s.watch, step).store
    ensures var s' := Act(env, s, Watching(step));
      Reflects(env, s'.caches, k, s'.watch.store[k].content.data) || Awaiting(s'.watch, k)
  {
    var w, w' := s.watch, Advance(s.watch, step);
    QueuedAfter(w, step, k);
    if k in w.store && Awaiting(w, k) {
      AwaitingAfter(w, step, k);
    }
    if step.Deliver? && ClearsRules(env, w.pending[0]) && k == env.ruleName {
      var j :| 0 < j < |w.pending| && w.pending[j] == Added(k);
      assert w'.pending[j - 1] == Added(k);
    }
    if step.Finish? && w.worker.snapshot.Some? {
      var held := w.worker.snapshot.value.content.data;
      CachedReflects(env, s.caches, w.worker.key, held, k, w.store[k].content.data);
    }
  }

  lemma WatchingKeepsInvariant(env: Env, s: System, step: Step<Content>)
    requires env.defaultName != env.ruleName && Invariant(env, s) && Enabled(s.watch, step)
    ensures Invariant(env, Act(env, s, Watching(step)))
  {
    SoundAfter(s.watch, step);
    forall k | k in Advance(s.watch, step).store
      ensures var s' := Act(env, s, Watching(step));
        Reflects(env, s'.caches, k, s'.watch.store[k].content.data) || Awaiting(s'.watch, k)
    {
      WatchingKeeps(env, s, step, k);
    }
  }

  /** Writing the listed data leaves the caches as the stored data wants them. For an ordinary ConfigMap the two are
      equal; rules may differ in text that parses alike; an injector.yaml that was not listed may be cached already. */
  predicate WritesTheSame(env: Env, c: Caches, name: string, listed: StringMap, stored: Data)
    requires name == env.ruleName && name != env.defaultName ==> RulesParse(env, listed)
  {
    stored.Some? ==>
      if name == env.defaultName then
        AgentParses(env, stored.value) ==>
          && listed - {INJECTOR_YAML} == stored.value - {INJECTOR_YAML}
          && (INJECTOR_YAML in stored.value ==>
                env.parseAgent(stored.value[INJECTOR_YAML]) ==
                if INJECTOR_YAML in listed then env.parseAgent(listed[INJECTOR_YAML]) else c.defaultConfig)
      else if name == env.ruleName then
        RulesParse(env, stored.value) ==> ParsedRules(env, listed) == ParsedRules(env, stored.value)
      else listed == stored.value
  }

  /** InitConfigMap writes data that went stale since it was listed, over a ConfigMap nobody will cache again. */
  ghost predicate StaleInitWrite(env: Env, s: System, a: Action)
    requires Possible(env, s, a)
  {
    && a.CacheNextForInit?
    && var (name, listed) := s.init.rest[0];
       && name in s.watch.store && !Awaiting(s.watch, name)
       && !WritesTheSame(env, s.caches, name, listed.value, s.watch.store[name].content.data)
  }

  lemma InitWriteReflectsIff(env: Env, c: Caches, name: string, listed: Data, stored: Data)
    requires env.defaultName != env.ruleName && Cached(env, c, name, listed).1
    ensures Reflects(env, Cached(env, c, name, listed).0, name, stored) <==>
            WritesTheSame(env, c, name, listed.value, stored)
  {
    assert INJECTOR_YAML !in listed.value ==> listed.value - {INJECTOR_YAML} == listed.value;
  }

  /** Exactly the stale writes of InitConfigMap break the agreement; every other step keeps it, in any state. */
  lemma InvariantUnlessStaleInitWrite(env: Env, s: System, a: Action)
    requires env.defaultName != env.ruleName
    requires Invariant(env, s) && Possible(env, s, a)
    ensures Invariant(env, Act(env, s, a)) <==> !StaleInitWrite(env, s, a)
  {
    match a
    case Watching(step) => WatchingKeepsInvariant(env, s, step);
    case LookupFails =>
      assert forall k :: Awaiting(s.watch, k) ==> Awaiting(Act(env, s, a).watch, k);
    case ListForInit(_) =>
    case CacheNextForInit =>
      var (name, listed) := s.init.rest[0];
      forall k | k in s.watch.store
        ensures var reflects := Reflects(env, Act(env, s, a).caches, k, s.watch.store[k].content.data);
          && (k == name ==> (reflects <==> WritesTheSame(env, s.caches, k, listed.value, s.watch.store[k].content.data)))
          && (k != name ==> reflects || Awaiting(s.watch, k))
      {
        CachedReflects(env, s.caches, name, listed, k, s.watch.store[k].content.data);
        InitWriteReflectsIff(env, s.caches, name, listed, s.watch.store[k].content.data);
      }
  }

  ghost predicate NoStaleInitWrite(env: Env, s: System, actions: seq<Action>)
    requires Runs(env, s, actions)
    decreases |actions|
  {
    actions != [] ==>
      !StaleInitWrite(env, s, actions[0]) && NoStaleInitWrite(env, Act(env, s, actions[0]), actions[1..])
  }

  ghost predicate InEveryState(env: Env, s: System, actions: seq<Action>)
    requires Runs(env, s, actions)
    decreases |actions|
  {
    Invariant(env, s) && (actions != [] ==> InEveryState(env, Act(env, s, actions[0]), actions[1..]))
  }

  /** Each stored ConfigMap meets one of the four conditions in every state of a run exactly when InitConfigMap, at
      whatever time it runs, makes no stale write. */
  lemma {:induction false} EveryRunKeepsInvariantIff(env: Env, s: System, actions: seq<Action>)
    requires env.defaultName != env.ruleName
    requires Invariant(env, s) && Runs(env, s, actions)
    ensures InEveryState(env, s, actions) <==> NoStaleInitWrite(env, s, actions)
    ensures InEveryState(env, s, actions) ==> Invariant(env, Exec(env, s, actions))
    decreases |actions|
  {
    if actions != [] {
      InvariantUnlessStaleInitWrite(env, s, actions[0]);
      if Invariant(env, Act(env, s, actions[0])) {
        EveryRunKeepsInvariantIff(env, Act(env, s, actions[0]), actions[1..]);
      }
    }
  }

  /** Once everything is delivered and processed the caches agree with the store, skipped updates included. */
  lemma DrainedCachesAgree(env: Env, s: System, actions: seq<Action>)
    requires env.defaultName != env.ruleName
    requires Initial(s) && Runs(env, s, actions) && NoStaleInitWrite(env, s, actions)
    requires Drained(Exec(env, s, actions).watch)
    ensures var r := Exec(env, s, actions);
      forall k :: k in r.watch.store ==> Reflects(env, r.caches, k, r.watch.store[k].content.data)
  {
    InitialInvariant(env, s);
    EveryRunKeepsInvariantIff(env, s, actions);
  }

  /** Left alone, the watcher always catches up: from any state that meets the conditions deliveries and worker turns lead
      to a drained one, whose caches then reflect each stored ConfigMap. */
  lemma {:induction false} CanCatchUp(env: Env, s: System) returns (actions: seq<Action>, r: System)
    requires env.defaultName != env.ruleName && Invariant(env, s)
    ensures Runs(env, s, actions) && r == Exec(env, s, actions)
    ensures Drained(r.watch) && r.watch.store == s.watch.store && r.init == s.init
    ensures forall k :: k in r.watch.store ==> Reflects(env, r.caches, k, r.watch.store[k].content.data)
    decreases |s.watch.pending|, |s.watch.dirty|, TurnsLeft(s.watch.worker)
  {
    if Drained(s.watch) {
      actions, r := [], s;
    } else {
      var step := NextTurn(s.watch);
      WatchingKeepsInvariant(env, s, step);
      var rest;
      rest, r := CanCatchUp(env, Act(env, s, Watching(step)));
      actions := [Watching(step)] + rest;
      assert actions[1..] == rest;
    }
  }

  /** InitConfigMap left alone caches all it listed: once it is through, the caches reflect the whole store. */
  lemma InitAloneReflectsStore(env: Env, s: System, order: seq<string>, steps: seq<Action>, k: string)
    requires env.defaultName != env.ruleName && Possible(env, s, ListForInit(order))
    requires forall a :: a in steps ==> a == CacheNextForInit
    requires var s1 := Act(env, s, ListForInit(order)); Runs(env, s1, steps) && InitDone(Exec(env, s1, steps))
    requires k in s.watch.store
    ensures var r := Exec(env, Act(env, s, ListForInit(order)), steps);
      r.watch == s.watch && Reflects(env, r.caches, k, s.watch.store[k].content.data)
  {
    var s1 := Act(env, s, ListForInit(order));
    var i :| 0 <= i < |order| && order[i] == k;
    assert s1.init.rest[i] == (k, s.watch.store[k].content.data);
    InitReflects(env, s1, steps, k, s.watch.store[k].content.data);
  }

  lemma {:induction false} InitReflects(env: Env, s: System, steps: seq<Action>, k: string, data: Data)
    requires env.defaultName != env.ruleName && s.init.Caching?
    requires (forall a :: a in steps ==> a == CacheNextForInit) && Runs(env, s, steps) && InitDone(Exec(env, s, steps))
    requires forall i :: 0 <= i < |s.init.rest| && s.init.rest[i].0 == k ==> s.init.rest[i].1 == data
    requires Reflects(env, s.caches, k, data) || exists i :: 0 <= i < |s.init.rest| && s.init.rest[i].0 == k
    ensures Exec(env, s, steps).watch == s.watch && Reflects(env, Exec(env, s, steps).caches, k, data)
    decreases |steps|
  {
    if steps != [] {
      assert steps[0] in steps;
      assert forall a :: a in steps[1..] ==> a in steps;
      var (name, listed) := s.init.rest[0];
      CachedReflects(env, s.caches, name, listed, k, data);
      var rest := s.init.rest[1..];
      assert forall i :: 0 < i < |s.init.rest| ==> s.init.rest[i] == rest[i - 1];
      InitReflects(env, Act(env, s, steps[0]), steps[1..], k, data);
    }
  }

  // ----- one way to have no stale write: the worker waits for InitConfigMap -----

  /** The worker takes no key before InitConfigMap is through. */
  predicate WorkerWaits(s: System, a: Action) {
    a.Watching? && a.step.TakeKey? ==> InitDone(s)
  }

  ghost predicate Waits(env: Env, s: System, actions: seq<Action>)
    requires Runs(env, s, actions)
    decreases |actions|
  {
    actions != [] ==> WorkerWaits(s, actions[0]) && Waits(env, Act(env, s, actions[0]), actions[1..])
  }

  /** While InitConfigMap is not through, the worker has not begun and every stored ConfigMap is still queued. */
  ghost predicate InitComesFirst(s: System) {
    !InitDone(s) ==> s.watch.worker.Idle? && forall k :: k in s.watch.store ==> Queued(s.watch, k)
  }

  lemma {:induction false} WaitingMakesNoStaleWrite(env: Env, s: System, actions: seq<Action>)
    requires InitComesFirst(s) && Runs(env, s, actions) && Waits(env, s, actions)
    ensures NoStaleInitWrite(env, s, actions)
    decreases |actions|
  {
    if actions != [] {
      if actions[0].Watching? {
        forall k | k in Advance(s.watch, actions[0].step).store
          ensures !InitDone(s) ==> Queued(Advance(s.watch, actions[0].step), k)
        {
          QueuedAfter(s.watch, actions[0].step, k);
        }
      }
      WaitingMakesNoStaleWrite(env, Act(env, s, actions[0]), actions[1..]);
    }
  }

  /** A worker that waits keeps the invariant in every state. */
  lemma WaitingRunsKeepInvariant(env: Env, s: System, actions: seq<Action>)
    requires env.defaultName != env.ruleName
    requires Invariant(env, s) && InitComesFirst(s) && Runs(env, s, actions) && Waits(env, s, actions)
    ensures InEveryState(env, s, actions) && Invariant(env, Exec(env, s, actions))
  {
    WaitingMakesNoStaleWrite(env, s, actions);
    EveryRunKeepsInvariantIff(env, s, actions);
  }

  // ----- the rules after their ConfigMap is gone -----

  /** No rules without a rules ConfigMap, unless its delete event is still undelivered. */
  ghost predicate RulesGone(env: Env, s: System) {
    env.ruleName !in s.watch.store ==> s.caches.rules == map[] || DeletePending(s.watch.pending, env.ruleName)
  }

  predicate IsRuleSet(env: Env, name: string, data: Data) {
    name == env.ruleName && data.Some? && data.value != map[] && RulesParse(env, data.value)
  }

  /** The two ways to keep rules that should be gone: caching a snapshot after the delete was delivered,
      or being told of the delete by a tombstone. */
  ghost predicate Hazard(env: Env, s: System, a: Action)
    requires Possible(env, s, a)
  {
    && env.ruleName !in s.watch.store
    && match a
       case Watching(Finish) =>
         && s.watch.worker.snapshot.Some?
         && IsRuleSet(env, s.watch.worker.key, s.watch.worker.snapshot.value.content.data)
         && !DeletePending(s.watch.pending, env.ruleName)
       case CacheNextForInit =>
         && IsRuleSet(env, s.init.rest[0].0, s.init.rest[0].1)
         && !DeletePending(s.watch.pending, env.ruleName)
       case Watching(Deliver) =>
         && s.watch.pending[0] == Deleted(env.ruleName, true)
         && s.caches.rules != map[]
         && !DeletePending(s.watch.pending[1..], env.ruleName)
       case _ => false
  }

  /** Exactly the hazards break the rule cache: every other step keeps it right, each hazard leaves it wrong. */
  lemma RulesGoneUnlessHazard(env: Env, s: System, a: Action)
    requires env.defaultName != env.ruleName
    requires RulesGone(env, s) && Possible(env, s, a)
    ensures RulesGone(env, Act(env, s, a)) <==> !Hazard(env, s, a)
  {
    if a.Watching? {
      var w := s.watch;
      match a.step
      case StoreAdd(key, _) => NoticeOnAppend(w.pending, Added(key), env.ruleName);
      case StoreUpdate(key, o) => NoticeOnAppend(w.pending, Updated(key, w.store[key], o), env.ruleName);
      case StoreDelete(key, t) => NoticeOnAppend(w.pending, Deleted(key, t), env.ruleName);
      case Deliver => NoticeOnDelivery(w.pending, env.ruleName);
      case TakeKey(_) =>
      case Lookup =>
      case Finish =>
        if w.worker.snapshot.Some? {
          RuleWrite(env, s.caches, w.worker.key, w.worker.snapshot.value.content.data);
        }
    } else if a.CacheNextForInit? {
      RuleWrite(env, s.caches, s.init.rest[0].0, s.init.rest[0].1);
    }
  }

  /** A caching call leaves rules behind only if it was given a rule set, or touched no rules at all. */
  lemma RuleWrite(env: Env, c: Caches, name: string, data: Data)
    requires env.defaultName != env.ruleName
    ensures var c' := Cached(env, c, name, data).0;
      if IsRuleSet(env, name, data) then c'.rules != map[] else c'.rules == c.rules || c'.rules == map[]
  {
    if IsRuleSet(env, name, data) {
      var k :| k in data.value;
      assert k in ParsedRules(env, data.value);
    }
  }

  ghost predicate HazardFree(env: Env, s: System, actions: seq<Action>)
    requires Runs(env, s, actions)
    decreases |actions|
  {
    actions != [] ==> !Hazard(env, s, actions[0]) && HazardFree(env, Act(env, s, actions[0]), actions[1..])
  }

  ghost predicate RulesGoneInEveryState(env: Env, s: System, actions: seq<Action>)
    requires Runs(env, s, actions)
    decreases |actions|
  {
    RulesGone(env, s) && (actions != [] ==> RulesGoneInEveryState(env, Act(env, s, actions[0]), actions[1..]))
  }

  /** The rule cache is right in every state of a run exactly when no hazard occurs in it. */
  lemma {:induction false} EveryRunKeepsRulesGoneIff(env: Env, s: System, actions: seq<Action>)
    requires env.defaultName != env.ruleName
    requires RulesGone(env, s) && Runs(env, s, actions)
    ensures RulesGoneInEveryState(env, s, actions) <==> HazardFree(env, s, actions)
    ensures RulesGoneInEveryState(env, s, actions) ==> RulesGone(env, Exec(env, s, actions))
    decreases |actions|
  {
    if actions != [] {
      RulesGoneUnlessHazard(env, s, actions[0]);
      if RulesGone(env, Act(env, s, actions[0])) {
        EveryRunKeepsRulesGoneIff(env, Act(env, s, actions[0]), actions[1..]);
      }
    }
  }

  // ----- the worker's lookup and write taken as one step, failed lookups included -----

  datatype Move = Environment(step: Step<Content>) | ProcessKey(key: string) | FailOnKey(key: string)

  function Actions(m: Move): seq<Action> {
    match m
    case Environment(step) => [Watching(step)]
    case ProcessKey(k) => [Watching(TakeKey(k)), Watching(Lookup), Watching(Finish)]
    case FailOnKey(k) => [Watching(TakeKey(k)), LookupFails]
  }

  function Flatten(moves: seq<Move>): seq<Action> {
    if moves == [] then [] else Actions(moves[0]) + Flatten(moves[1..])
  }

  /** The environment changes the store or delivers events, and never sends a tombstone. */
  predicate Ordinary(m: Move) {
    m.Environment? ==>
      m.step.StoreAdd? || m.step.StoreUpdate? || m.step.Deliver? || (m.step.StoreDelete? && !m.step.tombstone)
  }

  ghost predicate Plain(s: System) {
    && InitDone(s) && s.watch.worker.Idle?
    && forall i :: 0 <= i < |s.watch.pending| && s.watch.pending[i].Deleted? ==> !s.watch.pending[i].tombstone
  }

  lemma {:induction false} RunsSplit(env: Env, s: System, front: seq<Action>, back: seq<Action>)
    requires Runs(env, s, front + back)
    ensures Runs(env, s, front) && Runs(env, Exec(env, s, front), back)
    ensures var mid := Exec(env, s, front);
      && Exec(env, s, front + back) == Exec(env, mid, back)
      && (HazardFree(env, s, front + back) <==> HazardFree(env, s, front) && HazardFree(env, mid, back))
      && (Waits(env, s, front + back) <==> Waits(env, s, front) && Waits(env, mid, back))
    decreases |front|
  {
    if front == [] {
      assert front + back == back;
    } else {
      assert (front + back)[1..] == front[1..] + back;
      RunsSplit(env, Act(env, s, front[0]), front[1..], back);
    }
  }

  lemma MoveIsHazardFree(env: Env, s: System, m: Move)
    requires Plain(s) && Ordinary(m) && Runs(env, s, Actions(m))
    ensures HazardFree(env, s, Actions(m)) && Waits(env, s, Actions(m)) && Plain(Exec(env, s, Actions(m)))
  {
    if m.ProcessKey? {
      var s1 := Act(env, s, Watching(TakeKey(m.key)));
      var t1, t2: seq<Action> := [Watching(Lookup), Watching(Finish)], [Watching(Finish)];
      assert Actions(m)[1..] == t1 && t1[1..] == t2 && t2[1..] == [];
      var s2 := Act(env, s1, Watching(Lookup));
      assert Runs(env, s1, t1) && Runs(env, s2, t2);
      var s3 := Act(env, s2, Watching(Finish));
      assert Exec(env, s2, t2) == s3 && HazardFree(env, s2, t2) && Waits(env, s2, t2);
      assert Exec(env, s1, t1) == s3 && HazardFree(env, s1, t1) && Waits(env, s1, t1);
      assert Exec(env, s, Actions(m)) == s3;
    } else if m.FailOnKey? {
      var s1, t1 := Act(env, s, Watching(TakeKey(m.key))), [LookupFails];
      assert Actions(m)[1..] == t1 && t1[1..] == [];
      var s2 := Act(env, s1, LookupFails);
      assert Runs(env, s2, []) && Exec(env, s2, []) == s2;
      assert Runs(env, s1, t1) && Exec(env, s1, t1) == s2 && HazardFree(env, s1, t1) && Waits(env, s1, t1);
      assert Exec(env, s, Actions(m)) == s2;
    }
  }

  lemma {:induction false} SerialRunsAreHazardFree(env: Env, s: System, moves: seq<Move>)
    requires Plain(s) && (forall m :: m in moves ==> Ordinary(m)) && Runs(env, s, Flatten(moves))
    ensures HazardFree(env, s, Flatten(moves)) && Waits(env, s, Flatten(moves))
    decreases |moves|
  {
    if moves != [] {
      RunsSplit(env, s, Actions(moves[0]), Flatten(moves[1..]));
      MoveIsHazardFree(env, s, moves[0]);
      SerialRunsAreHazardFree(env, Exec(env, s, Actions(moves[0])), moves[1..]);
    }
  }

  /** With an atomic worker and no tombstones, deleting and re-adding the rules ConfigMap in any order with
      anything else ends, once drained, with exactly the rules of the stored ConfigMap, or none. */
  lemma DrainedRulesAgree(env: Env, s: System, moves: seq<Move>)
    requires env.defaultName != env.ruleName
    requires Plain(s) && Invariant(env, s) && RulesGone(env, s)
    requires (forall m :: m in moves ==> Ordinary(m)) && Runs(env, s, Flatten(moves))
    requires Drained(Exec(env, s, Flatten(moves)).watch)
    ensures var r := Exec(env, s, Flatten(moves));
      if env.ruleName !in r.watch.store then r.caches.rules == map[]
      else
        var data := r.watch.store[env.ruleName].content.data;
        data.Some? && RulesParse(env, data.value) ==> r.caches.rules == ParsedRules(env, data.value)
  {
    SerialRunsAreHazardFree(env, s, moves);
    EveryRunKeepsRulesGoneIff(env, s, Flatten(moves));
    WaitingRunsKeepInvariant(env, s, Flatten(moves));
  }

  lemma {:induction false} InitStepsKeepRulesGone(env: Env, s: System, steps: seq<Action>)
    requires env.defaultName != env.ruleName
    requires s.init.Caching? && (forall a :: a in steps ==> a == CacheNextForInit) && Runs(env, s, steps)
    requires env.ruleName !in s.watch.store ==>
      s.caches.rules == map[] && forall i :: 0 <= i < |s.init.rest| ==> s.init.rest[i].0 != env.ruleName
    ensures Waits(env, s, steps) && Exec(env, s, steps).watch == s.watch && RulesGone(env, Exec(env, s, steps))
    decreases |steps|
  {
    if steps != [] {
      assert steps[0] in steps;
      assert forall a :: a in steps[1..] ==> a in steps;
      RuleWrite(env, s.caches, s.init.rest[0].0, s.init.rest[0].1);
      InitStepsKeepRulesGone(env, Act(env, s, steps[0]), steps[1..]);
    }
  }

  /** A fresh process whose InitConfigMap ran first is a state DrainedRulesAgree starts from. */
  lemma FreshStartIsReady(env: Env, s: System, order: seq<string>, steps: seq<Action>)
    requires env.defaultName != env.ruleName
    requires Initial(s) && Possible(env, s, ListForInit(order))
    requires forall a :: a in steps ==> a == CacheNextForInit
    requires var s1 := Act(env, s, ListForInit(order)); Runs(env, s1, steps) && InitDone(Exec(env, s1, steps))
    ensures var r := Exec(env, Act(env, s, ListForInit(order)), steps);
      Plain(r) && Invariant(env, r) && RulesGone(env, r)
  {
    var s1 := Act(env, s, ListForInit(order));
    InitialInvariant(env, s);
    assert forall i :: 0 <= i < |order| ==> order[i] in order;
    InitStepsKeepRulesGone(env, s1, steps);
    WaitingRunsKeepInvariant(env, s1, steps);
    assert forall i :: 0 <= i < |s.watch.pending| ==> s.watch.pending[i] in s.watch.pending;
  }
}
