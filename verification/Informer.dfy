/** What the two watchers share: an informer store, the undelivered events behind it, the keys queued by the
    handlers, and one worker. Only the documented contract of client-go is used: the store changes before the
    event is queued, events are delivered in order, a key added while it is being processed runs again. */
module Informer {
  import opened Prelude

  /** A stored object: the part the update handlers compare, and metadata they ignore. */
  datatype Object<S> = Object(content: S, resourceVersion: nat)

  datatype Event<S> =
    | Added(key: string)
    | Updated(key: string, before: Object<S>, after: Object<S>)
    | Deleted(key: string, tombstone: bool)

  /** Got: a key left the queue. Holding: it was looked up and the result is about to be cached. */
  datatype Worker<S> = Idle | Got(key: string) | Holding(key: string, snapshot: Option<Object<S>>)

  datatype Watch<S> = Watch(store: map<string, Object<S>>, pending: seq<Event<S>>,
                            dirty: set<string>, worker: Worker<S>)

  /** StoreUpdate with an unchanged object is the periodic resync. */
  datatype Step<S> =
    | StoreAdd(key: string, object: Object<S>)
    | StoreUpdate(key: string, object: Object<S>)
    | StoreDelete(key: string, tombstone: bool)
    | Deliver
    | TakeKey(key: string)
    | Lookup
    | Finish

  /** The add and update handlers: does this event queue its key? */
  predicate Notifies<S(==)>(e: Event<S>) {
    e.Added? || (e.Updated? && e.before.content != e.after.content)
  }

  predicate Enabled<S>(w: Watch<S>, step: Step<S>) {
    match step
    case StoreAdd(k, _) => k !in w.store
    case StoreUpdate(k, _) => k in w.store
    case StoreDelete(k, _) => k in w.store
    case Deliver => w.pending != []
    case TakeKey(k) => w.worker.Idle? && k in w.dirty
    case Lookup => w.worker.Got?
    case Finish => w.worker.Holding?
  }

  function Advance<S(==)>(w: Watch<S>, step: Step<S>): Watch<S>
    requires Enabled(w, step)
  {
    match step
    case StoreAdd(k, o) => w.(store := w.store[k := o], pending := w.pending + [Added(k)])
    case StoreUpdate(k, o) => w.(store := w.store[k := o], pending := w.pending + [Updated(k, w.store[k], o)])
    case StoreDelete(k, t) => w.(store := w.store - {k}, pending := w.pending + [Deleted(k, t)])
    case Deliver =>
      var e := w.pending[0];
      w.(pending := w.pending[1..], dirty := if Notifies(e) then w.dirty + {e.key} else w.dirty)
    case TakeKey(k) => w.(dirty := w.dirty - {k}, worker := Got(k))
    case Lookup =>
      var k := w.worker.key;
      w.(worker := Holding(k, if k in w.store then Some(w.store[k]) else None))
    case Finish => w.(worker := Idle)
  }

  predicate Drained<S(==)>(w: Watch<S>) {
    w.pending == [] && w.dirty == {} && w.worker.Idle?
  }

  // ----- what a key may still expect -----

  ghost predicate NoticePending<S>(pending: seq<Event<S>>, k: string) {
    exists i :: 0 <= i < |pending| && pending[i].key == k && Notifies(pending[i])
  }

  ghost predicate DeletePending<S>(pending: seq<Event<S>>, k: string) {
    exists i :: 0 <= i < |pending| && pending[i].Deleted? && pending[i].key == k
  }

  /** The key is dirty, or an event that will make it dirty is undelivered. */
  ghost predicate Queued<S>(w: Watch<S>, k: string) {
    k in w.dirty || NoticePending(w.pending, k)
  }

  /** The worker will look the key up, or holds a snapshot that equals the stored object. */
  ghost predicate InHand<S>(w: Watch<S>, k: string) {
    && k in w.store
    && (|| w.worker == Got(k)
        || (&& w.worker.Holding? && w.worker.key == k && w.worker.snapshot.Some?
            && w.worker.snapshot.value.content == w.store[k].content))
  }

  ghost predicate Awaiting<S>(w: Watch<S>, k: string) {
    Queued(w, k) || InHand(w, k)
  }

  /** A snapshot that went stale in the worker's hand belongs to a key that is queued again. */
  ghost predicate StaleSnapshotsQueued<S>(w: Watch<S>) {
    w.worker.Holding? && w.worker.snapshot.Some? && w.worker.key in w.store
      && w.worker.snapshot.value.content != w.store[w.worker.key].content
    ==> Queued(w, w.worker.key)
  }

  /** An undelivered delete of a key that is stored again is followed by the event that re-added it. */
  ghost predicate DeletesAnswered<S>(w: Watch<S>) {
    forall i | 0 <= i < |w.pending| && w.pending[i].Deleted? && w.pending[i].key in w.store ::
      exists j :: i < j < |w.pending| && w.pending[j] == Added(w.pending[i].key)
  }

  ghost predicate Sound<S>(w: Watch<S>) {
    StaleSnapshotsQueued(w) && DeletesAnswered(w)
  }

  lemma NoticeOnAppend<S>(pending: seq<Event<S>>, e: Event<S>, k: string)
    ensures NoticePending(pending + [e], k) <==> NoticePending(pending, k) || (e.key == k && Notifies(e))
    ensures DeletePending(pending + [e], k) <==> DeletePending(pending, k) || (e.Deleted? && e.key == k)
  {
    var longer := pending + [e];
    assert longer[|pending|] == e;
    assert forall i :: 0 <= i < |pending| ==> longer[i] == pending[i];
  }

  lemma NoticeOnDelivery<S>(pending: seq<Event<S>>, k: string)
    requires pending != []
    ensures NoticePending(pending, k) <==>
            NoticePending(pending[1..], k) || (pending[0].key == k && Notifies(pending[0]))
    ensures DeletePending(pending, k) <==>
            DeletePending(pending[1..], k) || (pending[0].Deleted? && pending[0].key == k)
  {
    assert pending == [pending[0]] + pending[1..];
    assert forall i :: 0 < i < |pending| ==> pending[i] == pending[1..][i - 1];
  }

  /** No step forgets a queued key except the worker taking it, and every change of content queues its key. */
  lemma QueuedAfter<S>(w: Watch<S>, step: Step<S>, k: string)
    requires Enabled(w, step)
    ensures var w' := Advance(w, step);
      && (Queued(w, k) && step != TakeKey(k) ==> Queued(w', k))
      && (k in w'.store && (k !in w.store || w.store[k].content != w'.store[k].content) ==> Queued(w', k))
  {
    match step
    case StoreAdd(key, _) => NoticeOnAppend(w.pending, Added(key), k);
    case StoreUpdate(key, o) => NoticeOnAppend(w.pending, Updated(key, w.store[key], o), k);
    case StoreDelete(key, t) => NoticeOnAppend(w.pending, Deleted(key, t), k);
    case Deliver => NoticeOnDelivery(w.pending, k);
    case TakeKey(_) =>
    case Lookup =>
    case Finish =>
  }

  /** A key that awaits its turn keeps waiting until the worker finishes with its current content. */
  lemma AwaitingAfter<S>(w: Watch<S>, step: Step<S>, k: string)
    requires Enabled(w, step) && k in Advance(w, step).store
    requires k in w.store ==> Awaiting(w, k)
    ensures Awaiting(Advance(w, step), k) || (step.Finish? && InHand(w, k))
  {
    QueuedAfter(w, step, k);
  }

  lemma SoundAfter<S>(w: Watch<S>, step: Step<S>)
    requires Enabled(w, step) && Sound(w)
    ensures Sound(Advance(w, step))
  {
    StaleSnapshotsQueuedAfter(w, step);
    DeletesAnsweredAfter(w, step);
  }

  lemma StaleSnapshotsQueuedAfter<S>(w: Watch<S>, step: Step<S>)
    requires Enabled(w, step) && StaleSnapshotsQueued(w)
    ensures StaleSnapshotsQueued(Advance(w, step))
  {
    var w' := Advance(w, step);
    if w'.worker.Holding? {
      QueuedAfter(w, step, w'.worker.key);
    }
  }

  lemma DeletesAnsweredAfter<S>(w: Watch<S>, step: Step<S>)
    requires Enabled(w, step) && DeletesAnswered(w)
    ensures DeletesAnswered(Advance(w, step))
  {
    var w' := Advance(w, step);
    forall i | 0 <= i < |w'.pending| && w'.pending[i].Deleted? && w'.pending[i].key in w'.store
      ensures exists j :: i < j < |w'.pending| && w'.pending[j] == Added(w'.pending[i].key)
    {
      var k := w'.pending[i].key;
      var shift := if step.Deliver? then 1 else 0;
      if i + shift < |w.pending| {
        assert w.pending[i + shift] == w'.pending[i];
        if k in w.store {
          var j :| i + shift < j < |w.pending| && w.pending[j] == Added(k);
          assert w'.pending[j - shift] == Added(k);
        } else {
          assert w'.pending[|w.pending|] == Added(k);
        }
      }
    }
  }

  // ----- progress -----

  function TurnsLeft<S>(worker: Worker<S>): nat {
    match worker
    case Idle => 0
    case Got(_) => 2
    case Holding(_, _) => 1
  }

  /** Until everything is drained there is a step that is not the store's and brings the end nearer. */
  lemma NextTurn<S>(w: Watch<S>) returns (step: Step<S>)
    requires !Drained(w)
    ensures Enabled(w, step) && Advance(w, step).store == w.store
    ensures var w' := Advance(w, step);
      || |w'.pending| < |w.pending|
      || (|w'.pending| == |w.pending| &&
            (|w'.dirty| < |w.dirty| || (w'.dirty == w.dirty && TurnsLeft(w'.worker) < TurnsLeft(w.worker))))
  {
    if w.pending != [] {
      step := Deliver;
    } else if w.worker.Got? {
      step := Lookup;
    } else if w.worker.Holding? {
      step := Finish;
    } else {
      var k :| k in w.dirty;
      step := TakeKey(k);
      assert w.dirty == (w.dirty - {k}) + {k};
    }
  }
}
