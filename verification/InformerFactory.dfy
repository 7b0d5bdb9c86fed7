/** The shared informer factory itself: the routines of client-go/informers/externalversions/factory.go run one
    at a time, as the factory's lock makes them. */
module InformerFactory {
  import opened InformerFactoryProtocol

  type Transform = nat

  /** What Start's loop has done: the types walked are started, and those not started before are running too. */
  ghost predicate Progress(all: set<Type>, todo: set<Type>, before: set<Type>, was: set<Type>,
                           started: set<Type>, running: set<Type>) {
    && (forall t :: t in started <==> t in before || (t in all && t !in todo))
    && (forall t :: t in running <==> t in was || (t in all && t !in todo && t !in before))
  }

  lemma AllDone(all: set<Type>, before: set<Type>, was: set<Type>, started: set<Type>, running: set<Type>)
    requires before <= all && Progress(all, {}, before, was, started, running)
    ensures started == all && running == was + (all - before)
  {
  }

  lemma OneLess(all: set<Type>, todo: set<Type>, before: set<Type>, was: set<Type>,
                started: set<Type>, running: set<Type>, t: Type)
    requires t in todo && todo <= all && Progress(all, todo, before, was, started, running)
    ensures Progress(all, todo - {t}, before, was, started + {t}, if t in started then running else running + {t})
  {
  }

  class SharedInformerFactory {
    const defaultResync: int
    const customResync: map<Type, int>
    const transform: Transform
    var informers: map<Type, Informer>
    // the transform each registered informer was given
    var transforms: map<Type, Transform>
    var startedInformers: map<Type, bool>
    var wg: int
    var shuttingDown: bool
    // the goroutines started by the factory that have not ended
    var running: set<Type>

    constructor (defaultResync: int, customResync: map<Type, int>, transform: Transform)
      ensures Valid() && this.defaultResync == defaultResync && this.customResync == customResync
      ensures this.transform == transform
      ensures informers == map[] && Started() == {} && running == {} && !shuttingDown
    {
      this.defaultResync, this.customResync, this.transform := defaultResync, customResync, transform;
      transforms := map[];
      informers, startedInformers, wg, shuttingDown, running := map[], map[], 0, false, {};
    }

    ghost function Started(): set<Type>
      reads this
    {
      set t | t in startedInformers && startedInformers[t]
    }

    ghost predicate Valid()
      reads this
    {
      && Started() <= informers.Keys && running <= Started() && wg == |running|
      && transforms.Keys == informers.Keys && forall t :: t in transforms ==> transforms[t] == transform
    }

    /** A goroutine for every registered informer that has none yet, unless the factory is shutting down. */
    method Start()
      requires Valid()
      modifies this`startedInformers, this`wg, this`running
      ensures Valid()
      ensures if shuttingDown then unchanged(this)
              else Started() == informers.Keys && running == old(running) + (informers.Keys - old(Started()))
    {
      if shuttingDown {
        return;
      }
      ghost var before, was := Started(), running;
      var todo := informers.Keys;
      assert Progress(informers.Keys, todo, before, was, before, was);
      while todo != {}
        invariant todo <= informers.Keys && Valid()
        invariant Progress(informers.Keys, todo, before, was, Started(), running)
        decreases |todo|
      {
        var t :| t in todo;
        OneLess(informers.Keys, todo, before, was, Started(), running, t);
        LaunchIfMissing(t);
        todo := todo - {t};
      }
      AllDone(informers.Keys, before, was, Started(), running);
    }

    method LaunchIfMissing(t: Type)
      requires Valid() && t in informers
      modifies this`startedInformers, this`wg, this`running
      ensures Valid() && Started() == old(Started()) + {t}
      ensures running == if t in old(Started()) then old(running) else old(running) + {t}
    {
      if !(t in startedInformers && startedInformers[t]) {
        wg := wg + 1;
        running := running + {t};
        startedInformers := startedInformers[t := true];
      }
    }

    /** Sets the flag and blocks until the running goroutines, in whatever order they end, are all gone. */
    method Shutdown()
      requires Valid()
      modifies this`shuttingDown, this`wg, this`running
      ensures Valid() && shuttingDown && running == {} && wg == 0
    {
      shuttingDown := true;
      while wg != 0
        invariant Valid() && shuttingDown
        decreases |running|
      {
        var t :| t in running;
        running := running - {t};
        wg := wg - 1;
      }
    }

    /** Reports, for each started type and no other, whether its informer synced. */
    method WaitForCacheSync(hasSynced: Informer -> bool) returns (res: map<Type, bool>)
      requires Valid()
      ensures res.Keys == Started()
      ensures forall t :: t in res ==> res[t] == hasSynced(informers[t])
    {
      var snapshot := map t | t in informers && t in startedInformers && startedInformers[t] :: informers[t];
      res := map[];
      var todo := snapshot.Keys;
      while todo != {}
        invariant todo <= snapshot.Keys
        invariant res.Keys == snapshot.Keys - todo
        invariant forall t :: t in res ==> res[t] == hasSynced(informers[t])
        decreases |todo|
      {
        var t :| t in todo;
        res := res[t := hasSynced(snapshot[t])];
        todo := todo - {t};
      }
    }

    /** Returns the registered informer, or registers the one built for the type's resync period and given the
        factory's transform. */
    method InformerFor(t: Type, newFunc: int -> Informer) returns (informer: Informer)
      requires Valid()
      modifies this`informers, this`transforms
      ensures Valid() && t in informers && informer == informers[t]
      ensures informers == if t in old(informers) then old(informers)
                           else old(informers)[t := newFunc(if t in customResync then customResync[t] else defaultResync)]
    {
      if t in informers {
        return informers[t];
      }
      var resyncPeriod := defaultResync;
      if t in customResync {
        resyncPeriod := customResync[t];
      }
      informer := newFunc(resyncPeriod);
      transforms := transforms[t := transform];
      informers := informers[t := informer];
    }
  }
}
