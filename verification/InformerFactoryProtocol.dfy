/** client-go/informers/externalversions/factory.go under any number of concurrent callers. Every routine runs
    under the factory's lock except the wait at the end of Shutdown; informer goroutines end at any time, also
    while Start is still looping. */
module InformerFactoryProtocol {
  import opened Prelude

  type Type = string
  type Informer = nat
  type Thread = nat

  /** Where a caller stands. Starting and Closing hold the lock; Released has seen the wait group at zero. */
  datatype Caller = Starting(todo: set<Type>) | Closing | Waiting | Released

  /** The last three fields are history: goroutines launched per type, informers handed out, Shutdown returned. */
  datatype Factory = Factory(
    informers: map<Type, Informer>, started: set<Type>, wg: int, shuttingDown: bool,
    lock: Option<Thread>, callers: map<Thread, Caller>, running: set<Type>,
    launched: multiset<Type>, handedOut: set<(Type, Informer)>, shutdownReturned: bool)

  datatype Action =
    | InformerFor(t: Type, created: Informer)
    | BeginStart(caller: Thread)
    | StartNext(caller: Thread, t: Type)
    | EndStart(caller: Thread)
    | BeginShutdown(caller: Thread)
    | MarkShutdown(caller: Thread)
    | WaitSeesZero(caller: Thread)
    | ShutdownReturns(caller: Thread)
    | InformerStops(t: Type)

  predicate At(f: Factory, c: Thread, where: Caller) {
    c in f.callers && f.callers[c] == where
  }

  predicate Possible(f: Factory, a: Action) {
    match a
    case InformerFor(_, _) => f.lock.None?
    case BeginStart(c) => f.lock.None? && c !in f.callers
    case StartNext(c, t) => c in f.callers && f.callers[c].Starting? && t in f.callers[c].todo
    case EndStart(c) => At(f, c, Starting({}))
    case BeginShutdown(c) => f.lock.None? && c !in f.callers
    case MarkShutdown(c) => At(f, c, Closing)
    case WaitSeesZero(c) => At(f, c, Waiting) && f.wg == 0
    case ShutdownReturns(c) => At(f, c, Released)
    case InformerStops(t) => t in f.running
  }

  function Register(f: Factory, t: Type, created: Informer): Factory {
    var informers := if t in f.informers then f.informers else f.informers[t := created];
    f.(informers := informers, handedOut := f.handedOut + {(t, informers[t])})
  }

  function Act(f: Factory, a: Action): Factory
    requires Possible(f, a)
  {
    match a
    case InformerFor(t, created) => Register(f, t, created)
    case BeginStart(c) =>
      f.(lock := Some(c), callers := f.callers[c := Starting(if f.shuttingDown then {} else f.informers.Keys)])
    case StartNext(c, t) =>
      var g := f.(callers := f.callers[c := Starting(f.callers[c].todo - {t})]);
      if t in f.started then g
      else g.(wg := f.wg + 1, running := f.running + {t}, started := f.started + {t},
              launched := f.launched + multiset{t})
    case EndStart(c) => f.(lock := None, callers := f.callers - {c})
    case BeginShutdown(c) => f.(lock := Some(c), callers := f.callers[c := Closing])
    case MarkShutdown(c) => f.(lock := None, callers := f.callers[c := Waiting], shuttingDown := true)
    case WaitSeesZero(c) => f.(callers := f.callers[c := Released])
    case ShutdownReturns(c) => f.(callers := f.callers - {c}, shutdownReturned := true)
    case InformerStops(t) => f.(running := f.running - {t}, wg := f.wg - 1)
  }

  predicate Initial(f: Factory) {
    f == Factory(map[], {}, 0, false, None, map[], {}, multiset{}, {}, false)
  }

  predicate Runs(f: Factory, actions: seq<Action>)
    decreases |actions|
  {
    actions != [] ==> Possible(f, actions[0]) && Runs(Act(f, actions[0]), actions[1..])
  }

  function Exec(f: Factory, actions: seq<Action>): Factory
    requires Runs(f, actions)
    decreases |actions|
  {
    if actions == [] then f else Exec(Act(f, actions[0]), actions[1..])
  }

  // ----- safety -----

  predicate HoldsLock(c: Caller) {
    c.Starting? || c.Closing?
  }

  ghost predicate LockDiscipline(f: Factory) {
    && (forall c :: c in f.callers && HoldsLock(f.callers[c]) ==> f.lock == Some(c))
    && (f.lock.Some? ==> f.lock.value in f.callers && HoldsLock(f.callers[f.lock.value]))
    && (forall c :: c in f.callers && f.callers[c].Starting? ==>
          f.callers[c].todo <= f.informers.Keys && (f.shuttingDown ==> f.callers[c].todo == {}))
    && (forall c :: c in f.callers && (f.callers[c].Waiting? || f.callers[c].Released?) ==> f.shuttingDown)
  }

  /** What callers rely on. */
  ghost predicate Safe(f: Factory) {
    && LaunchedOnce(f) && AlwaysTheSame(f)
    // once Shutdown has returned nothing runs
    && (f.shutdownReturned ==> f.shuttingDown && f.running == {})
  }

  ghost predicate LaunchedOnce(f: Factory) {
    // only registered informers are started
    && f.started <= f.informers.Keys
    // the factory runs each informer at most once, and started says which
    && (forall t :: f.launched[t] == if t in f.started then 1 else 0)
    // the wait group counts the goroutines still running
    && f.running <= f.started
    && f.wg == |f.running|
  }

  /** A type always yields the same informer. */
  ghost predicate AlwaysTheSame(f: Factory) {
    forall p :: p in f.handedOut ==> p.0 in f.informers && f.informers[p.0] == p.1
  }

  ghost predicate NothingRunsAfterWait(f: Factory) {
    && (f.shutdownReturned ==> f.shuttingDown && f.running == {})
    && (forall c :: c in f.callers && f.callers[c].Released? ==> f.running == {})
  }

  /** A caller in Start leaves no registered type behind: each is still to come or started. */
  ghost predicate WalkedAreStarted(f: Factory) {
    forall c :: c in f.callers && f.callers[c].Starting? ==>
      f.shuttingDown || f.informers.Keys - f.callers[c].todo <= f.started
  }

  ghost predicate Invariant(f: Factory) {
    LockDiscipline(f) && Safe(f) && NothingRunsAfterWait(f) && WalkedAreStarted(f)
  }

  lemma ActKeepsLockDiscipline(f: Factory, a: Action)
    requires LockDiscipline(f) && Possible(f, a)
    ensures LockDiscipline(Act(f, a))
  {
    match a
    case InformerFor(t, created) =>
    case BeginStart(c) =>
    case StartNext(c, t) =>
    case EndStart(c) =>
    case BeginShutdown(c) =>
    case MarkShutdown(c) =>
    case WaitSeesZero(c) =>
    case ShutdownReturns(c) =>
    case InformerStops(t) =>
  }

  lemma ActKeepsInvariant(f: Factory, a: Action)
    requires Invariant(f) && Possible(f, a)
    ensures Invariant(Act(f, a))
  {
    ActKeepsLockDiscipline(f, a);
    ActKeepsLaunchedOnce(f, a);
    assert AlwaysTheSame(Act(f, a));
    ActKeepsNothingRunning(f, a);
    ActKeepsWalked(f, a);
  }

  lemma ActKeepsWalked(f: Factory, a: Action)
    requires WalkedAreStarted(f) && LockDiscipline(f) && Possible(f, a)
    ensures WalkedAreStarted(Act(f, a))
  {
  }

  lemma ActKeepsLaunchedOnce(f: Factory, a: Action)
    requires LaunchedOnce(f) && LockDiscipline(f) && Possible(f, a)
    ensures LaunchedOnce(Act(f, a))
  {
    if a.StartNext? && a.t !in f.started {
      assert a.t !in f.running;
    }
  }

  lemma ActKeepsNothingRunning(f: Factory, a: Action)
    requires NothingRunsAfterWait(f) && LaunchedOnce(f) && LockDiscipline(f) && Possible(f, a)
    ensures NothingRunsAfterWait(Act(f, a))
  {
  }

  /** Every reachable state is safe, whatever the interleaving. */
  lemma {:induction false} EveryRunIsSafe(f: Factory, actions: seq<Action>)
    requires Invariant(f) && Runs(f, actions)
    ensures Invariant(Exec(f, actions))
    decreases |actions|
  {
    if actions != [] {
      ActKeepsInvariant(f, actions[0]);
      EveryRunIsSafe(Act(f, actions[0]), actions[1..]);
    }
  }

  lemma InitialInvariant(f: Factory)
    requires Initial(f)
    ensures Invariant(f)
  {
  }

  /** A Start that is through has started every registered type, whatever happened beside it, unless the factory was
      shutting down. */
  lemma StartIsComplete(f: Factory, actions: seq<Action>, c: Thread)
    requires Initial(f) && Runs(f, actions) && Possible(Exec(f, actions), EndStart(c))
    ensures var r := Exec(f, actions); !r.shuttingDown ==> r.started == r.informers.Keys
  {
    EveryRunIsSafe(f, actions);
    var r := Exec(f, actions);
    assert r.informers.Keys - r.callers[c].todo == r.informers.Keys;
  }

  /** From the moment Shutdown sets its flag no goroutine is ever launched again, and after a Shutdown has
      returned none is running, in every continuation. */
  lemma {:induction false} NothingStartsAfterShutdown(f: Factory, actions: seq<Action>)
    requires Invariant(f) && f.shuttingDown && Runs(f, actions)
    ensures var r := Exec(f, actions);
      && r.launched == f.launched && r.running <= f.running
      && (f.shutdownReturned ==> r.running == {} && r.wg == 0)
    decreases |actions|
  {
    if actions != [] {
      ActKeepsInvariant(f, actions[0]);
      NothingStartsAfterShutdown(Act(f, actions[0]), actions[1..]);
    }
  }

  ghost predicate KeepsInformers(f: Factory, g: Factory) {
    forall t :: t in f.informers ==> t in g.informers && g.informers[t] == f.informers[t]
  }

  /** Informers handed out for a type never change, in every continuation. */
  lemma {:induction false} InformersAreStable(f: Factory, actions: seq<Action>)
    requires Runs(f, actions)
    ensures KeepsInformers(f, Exec(f, actions))
    decreases |actions|
  {
    if actions != [] {
      assert KeepsInformers(f, Act(f, actions[0]));
      InformersAreStable(Act(f, actions[0]), actions[1..]);
    }
  }

  /** Whenever the lock is free an informer can be asked for: it is the registered one, else the new one, and it stays
      registered in every continuation. */
  lemma RegisteredForGood(f: Factory, t: Type, created: Informer, actions: seq<Action>)
    requires f.lock.None? && Runs(Act(f, InformerFor(t, created)), actions)
    ensures var r, informer := Exec(Act(f, InformerFor(t, created)), actions), if t in f.informers then f.informers[t] else created;
      && t in r.informers && r.informers[t] == informer
      && (t, informer) in Act(f, InformerFor(t, created)).handedOut
      && KeepsInformers(f, r)
  {
    InformersAreStable(Act(f, InformerFor(t, created)), actions);
  }

  /** Whenever the lock is free Shutdown can be called, and it can return: all it waits for is that the informers stop. */
  lemma ShutdownCanReturn(f: Factory, c: Thread) returns (steps: seq<Action>, r: Factory)
    requires Invariant(f) && f.lock.None? && c !in f.callers
    ensures Runs(f, steps) && r == Exec(f, steps) && steps != [] && steps[0] == BeginShutdown(c)
    ensures r.shutdownReturned && r.running == {} && c !in r.callers
  {
    var closing := Act(f, BeginShutdown(c));
    ActKeepsInvariant(f, BeginShutdown(c));
    ActKeepsInvariant(closing, MarkShutdown(c));
    var waiting := Act(closing, MarkShutdown(c));
    var rest;
    rest, r := WaitCanEnd(waiting, c);
    var marked := StepFirst(closing, MarkShutdown(c), rest);
    steps := StepFirst(f, BeginShutdown(c), marked);
  }

  lemma {:induction false} WaitCanEnd(f: Factory, c: Thread) returns (steps: seq<Action>, r: Factory)
    requires Invariant(f) && At(f, c, Waiting)
    ensures Runs(f, steps) && r == Exec(f, steps)
    ensures r.shutdownReturned && r.running == {} && c !in r.callers
    decreases |f.running|
  {
    if f.running == {} {
      var seen := Act(f, WaitSeesZero(c));
      r := Act(seen, ShutdownReturns(c));
      var last := StepFirst(seen, ShutdownReturns(c), []);
      steps := StepFirst(f, WaitSeesZero(c), last);
    } else {
      var t :| t in f.running;
      ActKeepsInvariant(f, InformerStops(t));
      var rest;
      rest, r := WaitCanEnd(Act(f, InformerStops(t)), c);
      steps := StepFirst(f, InformerStops(t), rest);
    }
  }

  // ----- Start left alone -----

  /** What Start still has to launch, and what will then run and be started. */
  predicate Launches(f: Factory, todo: set<Type>, r: Factory) {
    var missing := todo - f.started;
    && r.running == f.running + missing && r.started == f.started + missing && r.wg == f.wg + |missing|
    && r.informers == f.informers && r.shuttingDown == f.shuttingDown && r.lock == f.lock
  }

  lemma LaunchOneThenRest(f: Factory, c: Thread, t: Type, r: Factory)
    requires Possible(f, StartNext(c, t))
    requires Launches(Act(f, StartNext(c, t)), f.callers[c].todo - {t}, r)
    ensures Launches(f, f.callers[c].todo, r)
  {
    var todo := f.callers[c].todo;
    if t in f.started {
      assert todo - f.started == (todo - {t}) - f.started;
    } else {
      OneMissingLess(f.running, f.started, todo, t);
    }
  }

  lemma OneMissingLess(running: set<Type>, started: set<Type>, todo: set<Type>, t: Type)
    requires t in todo && t !in started
    ensures var missing, left := todo - started, (todo - {t}) - (started + {t});
      && running + missing == (running + {t}) + left && started + missing == (started + {t}) + left
      && |missing| == |left| + 1
  {
    assert todo - started == ((todo - {t}) - (started + {t})) + {t};
  }

  /** Left alone, Start launches exactly the missing informers, however it walks them. */
  lemma {:induction false} StartLoopLaunches(f: Factory, c: Thread) returns (steps: seq<Action>, r: Factory)
    requires c in f.callers && f.callers[c].Starting?
    ensures Runs(f, steps) && r == Exec(f, steps)
    ensures At(r, c, Starting({})) && Launches(f, f.callers[c].todo, r)
    decreases |f.callers[c].todo|
  {
    var todo := f.callers[c].todo;
    if todo == {} {
      steps, r := [], f;
    } else {
      var t :| t in todo;
      var g := Act(f, StartNext(c, t));
      var rest;
      rest, r := StartLoopLaunches(g, c);
      LaunchOneThenRest(f, c, t, r);
      steps := StepFirst(f, StartNext(c, t), rest);
    }
  }

  /** A call of Start left alone, lock to unlock: every registered informer is started, the missing ones are launched,
      and while shutting down nothing is. */
  lemma StartLaunchesTheMissing(f: Factory, c: Thread) returns (steps: seq<Action>, r: Factory)
    requires f.started <= f.informers.Keys && f.lock.None? && c !in f.callers
    ensures Runs(f, steps) && r == Exec(f, steps) && steps != [] && steps[0] == BeginStart(c)
    ensures Possible(r, EndStart(c))
    ensures r.started == if f.shuttingDown then f.started else f.informers.Keys
    ensures r.running == f.running + (r.started - f.started) && r.wg == f.wg + |r.started - f.started|
  {
    var g := Act(f, BeginStart(c));
    var rest;
    rest, r := StartLoopLaunches(g, c);
    steps := StepFirst(f, BeginStart(c), rest);
    assert r.started - f.started == g.callers[c].todo - f.started;
  }

  lemma StepFirst(f: Factory, a: Action, rest: seq<Action>) returns (steps: seq<Action>)
    requires Possible(f, a) && Runs(Act(f, a), rest)
    ensures steps == [a] + rest && Runs(f, steps) && Exec(f, steps) == Exec(Act(f, a), rest)
  {
    steps := [a] + rest;
    assert steps[1..] == rest;
  }
}
