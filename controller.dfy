/**
 * The controller: informer callbacks that turn notifications into queue
 * keys, `handle`, which routes a key to the operator's Update or Delete,
 * and the worker step with its retry policy (forget on success, requeue
 * while fewer than `maxRetries` requeues were counted, drop otherwise).
 */
module Controller {
  import opened Outcomes
  import opened V1alpha1
  import opened Keys
  import opened WorkQueue
  import Handlers
  import Operator

  const maxRetries: nat := 5

  /** What an informer callback is handed. */
  datatype Notified =
    | Server(ps: PrometheusServer)
    | OtherObject(namespace: string, name: string) // an object with metadata that is not a PrometheusServer
    | Tombstone(key: string)                       // the last known key of an object deleted while unobserved
    | Unkeyed                                      // an object without metadata

  /** client-go's DeletionHandlingMetaNamespaceKeyFunc: no key for an object without metadata. */
  function DeletionHandlingKey(obj: Notified): Option<string> {
    match obj
    case Server(ps) => Some(MetaNamespaceKey(ps.namespace, ps.name))
    case OtherObject(namespace, name) => Some(MetaNamespaceKey(namespace, name))
    case Tombstone(key) => Some(key)
    case Unkeyed => None
  }

  /** The key the update callback enqueues, if any. */
  function UpdateKey(before: Notified, after: Notified): Option<string> {
    if !after.Server? || !before.Server? then None
    else if after.ps.resourceVersion == before.ps.resourceVersion then None
    else DeletionHandlingKey(after)
  }

  /** enqueuePrometheusServer: add the key, or nothing when there is none. */
  function Enqueued(q: QueueState, key: Option<string>): QueueState {
    if key.Some? then AfterAdd(q, key.value) else q
  }

  /**
   * The update callback enqueues exactly when both objects are
   * PrometheusServers with different resource versions, and then the new
   * object's namespace/name key.
   */
  lemma UpdateKeyFilters(before: Notified, after: Notified)
    ensures UpdateKey(before, after).Some?
        <==> before.Server? && after.Server? && before.ps.resourceVersion != after.ps.resourceVersion
    ensures UpdateKey(before, after).Some? ==>
        UpdateKey(before, after).value == MetaNamespaceKey(after.ps.namespace, after.ps.name)
  {
  }

  /** handle: split the key, then Delete when the informer has no object under it and Update otherwise. */
  function HandleStep(indexer: map<string, PrometheusServer>, table: map<string, Handlers.StateHandler>,
                      w: Operator.World, key: string): (Operator.World, Outcome)
  {
    match SplitMetaNamespaceKey(key)
    case None => (w, Fail(InvalidKey(key)))
    case Some((namespace, name)) =>
      if key !in indexer then Operator.DeleteStep(w, namespace, name)
      else Operator.UpdateStep(indexer, table, w, namespace, name)
  }

  /** The key of an object routes to that object's namespace and name: Update if cached, Delete if not, never both. */
  lemma HandleRoutesByKey(indexer: map<string, PrometheusServer>, table: map<string, Handlers.StateHandler>,
                          w: Operator.World, namespace: string, name: string)
    requires '/' !in namespace && '/' !in name
    ensures var key := MetaNamespaceKey(namespace, name);
      HandleStep(indexer, table, w, key)
        == if key in indexer then Operator.UpdateStep(indexer, table, w, namespace, name)
           else Operator.DeleteStep(w, namespace, name)
  {
    SplitMetaNamespaceKeyRoundTrip(namespace, name);
  }

  /** A key with more than one '/' is an invalid-key error that changes nothing and calls no handler. */
  lemma HandleRejectsInvalidKey(indexer: map<string, PrometheusServer>, table: map<string, Handlers.StateHandler>,
                                w: Operator.World, key: string, i: nat, j: nat)
    requires i < j < |key| && key[i] == '/' && key[j] == '/'
    ensures HandleStep(indexer, table, w, key) == (w, Fail(InvalidKey(key)))
  {
    SplitMetaNamespaceKeyRejects(key, i, j);
  }

  /** The queue after one worker step on its head key, given whether handling succeeded. */
  function AfterAttempt(q: QueueState, ok: bool): QueueState
    requires |q.queue| > 0
  {
    var (q1, key) := AfterGet(q);
    var q2 := if ok then AfterForget(q1, key)
              else if Requeues(q1, key) < maxRetries then AfterAddRateLimited(q1, key)
              else AfterForget(q1, key);
    AfterDone(q2, key)
  }

  /** processNextItem: false only when the queue reports shutdown. */
  function ProcessNextStep(q: QueueState, w: Operator.World, indexer: map<string, PrometheusServer>,
                           table: map<string, Handlers.StateHandler>): (QueueState, Operator.World, bool)
    requires |q.queue| > 0 || q.shuttingDown
  {
    if |q.queue| == 0 then (q, w, false)
    else
      var (w', err) := HandleStep(indexer, table, w, q.queue[0]);
      (AfterAttempt(q, err == Pass), w', true)
  }

  /**
   * One worker step keeps the queue coherent and is done with its key. On
   * success the key's count is reset; on failure it is requeued with its
   * count raised by one while fewer than maxRetries were counted, and
   * dropped with its count reset otherwise.
   */
  lemma AttemptOutcome(q: QueueState, ok: bool)
    requires Coherent(q) && |q.queue| > 0
    ensures var key := q.queue[0];
      var q' := AfterAttempt(q, ok);
      && Coherent(q')
      && key !in q'.processing
      && (ok ==> Requeues(q', key) == 0 && q'.queue == q.queue[1..])
      && (!ok && Requeues(q, key) < maxRetries ==>
            Requeues(q', key) == Requeues(q, key) + 1
            && q'.queue == if q.shuttingDown then q.queue[1..] else q.queue[1..] + [key])
      && (!ok && Requeues(q, key) >= maxRetries ==> Requeues(q', key) == 0 && q'.queue == q.queue[1..])
  {
    var (q1, key) := AfterGet(q);
    GetCoherent(q);
    var q2 := if ok then AfterForget(q1, key)
              else if Requeues(q1, key) < maxRetries then AfterAddRateLimited(q1, key)
              else AfterForget(q1, key);
    if !ok && Requeues(q1, key) < maxRetries {
      AddCoherent(q1.(requeues := q1.requeues[key := Requeues(q1, key) + 1]), key);
    }
    DoneCoherent(q2, key);
  }

  /** A queue holding only `key`, idle, whose count is `r`. */
  function Single(key: string, r: nat): QueueState {
    QueueState([key], {key}, {}, if r == 0 then map[] else map[key := r], false)
  }

  /** Worker steps (processNextItem calls) until the queue is empty, at most `fuel` of them. */
  function WorkerRuns(q: QueueState, w: Operator.World, indexer: map<string, PrometheusServer>,
                      table: map<string, Handlers.StateHandler>, fuel: nat): nat
    decreases fuel
  {
    if fuel == 0 || |q.queue| == 0 then 0
    else
      var (q', w', _) := ProcessNextStep(q, w, indexer, table);
      1 + WorkerRuns(q', w', indexer, table, fuel - 1)
  }

  /**
   * From `r` counted requeues, a key whose handling fails in every world is
   * handled maxRetries + 1 - r more times by the worker, then dropped.
   */
  lemma {:induction false} WorkerRunsOnFailingKey(key: string, r: nat, w: Operator.World,
                                                  indexer: map<string, PrometheusServer>,
                                                  table: map<string, Handlers.StateHandler>, fuel: nat)
    requires forall v: Operator.World :: HandleStep(indexer, table, v, key).1 != Pass
    requires r <= maxRetries && fuel >= maxRetries + 1 - r
    ensures WorkerRuns(Single(key, r), w, indexer, table, fuel) == maxRetries + 1 - r
    decreases maxRetries - r
  {
    var (q', w', _) := ProcessNextStep(Single(key, r), w, indexer, table);
    assert q' == AfterAttempt(Single(key, r), false);
    if r < maxRetries {
      assert q'.requeues == map[key := r + 1];
      assert q' == Single(key, r + 1);
      WorkerRunsOnFailingKey(key, r + 1, w', indexer, table, fuel - 1);
    } else {
      assert |q'.queue| == 0;
    }
  }

  /** A key whose handling always fails is handled exactly maxRetries + 1 times, then dropped. */
  lemma AlwaysFailingKeyHandledSixTimes(key: string, w: Operator.World, indexer: map<string, PrometheusServer>,
                                        table: map<string, Handlers.StateHandler>)
    requires forall v: Operator.World :: HandleStep(indexer, table, v, key).1 != Pass
    ensures WorkerRuns(Single(key, 0), w, indexer, table, 100) == maxRetries + 1 == 6
  {
    WorkerRunsOnFailingKey(key, 0, w, indexer, table, 100);
  }

  /** An invalid key ("a/b/c") is such a key: the worker handles it six times and then drops it. */
  lemma InvalidKeyHandledSixTimes(w: Operator.World, indexer: map<string, PrometheusServer>,
                                  table: map<string, Handlers.StateHandler>)
    ensures WorkerRuns(Single("a/b/c", 0), w, indexer, table, 100) == 6
  {
    forall v: Operator.World ensures HandleStep(indexer, table, v, "a/b/c").1 != Pass {
      HandleRejectsInvalidKey(indexer, table, v, "a/b/c", 1, 3);
    }
    AlwaysFailingKeyHandledSixTimes("a/b/c", w, indexer, table);
  }

  /**
   * runWorker: processNextItem until it reports shutdown, for at most
   * `fuel` items, stopping early where Get would block on an empty queue.
   * The flag says whether shutdown ended the loop.
   */
  function WorkerLoop(q: QueueState, w: Operator.World, indexer: map<string, PrometheusServer>,
                      table: map<string, Handlers.StateHandler>, fuel: nat): (QueueState, Operator.World, bool)
    decreases fuel
  {
    if fuel == 0 || (|q.queue| == 0 && !q.shuttingDown) then (q, w, false)
    else
      var (q', w', more) := ProcessNextStep(q, w, indexer, table);
      if !more then (q', w', true) else WorkerLoop(q', w', indexer, table, fuel - 1)
  }

  /** The worker keeps the queue coherent, and shutdown ends it only once nothing is waiting. */
  lemma {:induction false} WorkerLoopStops(q: QueueState, w: Operator.World, indexer: map<string, PrometheusServer>,
                                           table: map<string, Handlers.StateHandler>, fuel: nat)
    requires Coherent(q)
    ensures var (q', _, stopped) := WorkerLoop(q, w, indexer, table, fuel);
      && Coherent(q')
      && (stopped ==> q'.shuttingDown && |q'.queue| == 0)
    decreases fuel
  {
    if fuel == 0 || |q.queue| == 0 {
    } else {
      var (q', w', more) := ProcessNextStep(q, w, indexer, table);
      AttemptOutcome(q, HandleStep(indexer, table, w, q.queue[0]).1 == Pass);
      WorkerLoopStops(q', w', indexer, table, fuel - 1);
    }
  }

  /**
   * Given enough fuel, the worker drains a queue holding only a key whose
   * handling always fails: the key is dropped, its count reset, and the
   * loop ends because nothing is waiting, not by shutdown.
   */
  lemma {:induction false} WorkerLoopDropsFailingKey(key: string, r: nat, w: Operator.World,
                                                     indexer: map<string, PrometheusServer>,
                                                     table: map<string, Handlers.StateHandler>, fuel: nat)
    requires forall v: Operator.World :: HandleStep(indexer, table, v, key).1 != Pass
    requires r <= maxRetries && fuel >= maxRetries + 1 - r
    ensures var (q', _, stopped) := WorkerLoop(Single(key, r), w, indexer, table, fuel);
      && !stopped && |q'.queue| == 0 && Requeues(q', key) == 0
    decreases maxRetries - r
  {
    var (q', w', _) := ProcessNextStep(Single(key, r), w, indexer, table);
    assert q' == AfterAttempt(Single(key, r), false);
    if r < maxRetries {
      assert q'.requeues == map[key := r + 1];
      assert q' == Single(key, r + 1);
      WorkerLoopDropsFailingKey(key, r + 1, w', indexer, table, fuel - 1);
    } else {
      assert |q'.queue| == 0 && !q'.shuttingDown;
    }
  }

  class Controller {
    const queue: Queue
    const informer: Operator.Informer
    const eventHandler: Operator.Operator

    constructor (eventHandler: Operator.Operator, informer: Operator.Informer)
      ensures this.eventHandler == eventHandler && this.informer == informer
      ensures fresh(queue) && queue.State() == WorkQueue.Empty()
    {
      this.eventHandler := eventHandler;
      this.informer := informer;
      queue := new Queue();
    }

    /** The operator reads the same informer, its handlers are wired, and the queue is coherent. */
    predicate Valid()
      reads queue, eventHandler.conciliator
    {
      eventHandler.Valid() && eventHandler.lister == informer && Coherent(queue.State())
    }

    method EnqueuePrometheusServer(obj: Notified)
      modifies queue
      ensures queue.State() == Enqueued(old(queue.State()), DeletionHandlingKey(obj))
    {
      var key := DeletionHandlingKey(obj);
      if key.None? {
        return;
      }
      queue.Add(key.value);
    }

    method OnAdd(obj: Notified)
      modifies queue
      ensures queue.State() == Enqueued(old(queue.State()), DeletionHandlingKey(obj))
    {
      EnqueuePrometheusServer(obj);
    }

    method OnUpdate(before: Notified, after: Notified)
      modifies queue
      ensures queue.State() == Enqueued(old(queue.State()), UpdateKey(before, after))
    {
      if !after.Server? || !before.Server? {
        return;
      }
      if after.ps.resourceVersion == before.ps.resourceVersion {
        return;
      }
      EnqueuePrometheusServer(after);
    }

    method OnDelete(obj: Notified)
      modifies queue
      ensures queue.State() == Enqueued(old(queue.State()), DeletionHandlingKey(obj))
    {
      EnqueuePrometheusServer(obj);
    }

    method Handle(key: string) returns (err: Outcome)
      requires eventHandler.Valid() && eventHandler.lister == informer
      modifies eventHandler.client, eventHandler.generationCache
      ensures (eventHandler.State(), err)
           == HandleStep(informer.indexer, eventHandler.conciliator.state, old(eventHandler.State()), key)
    {
      var split := SplitMetaNamespaceKey(key);
      if split.None? {
        return Fail(InvalidKey(key));
      }
      var (namespace, name) := split.value;
      if key !in informer.indexer {
        err := eventHandler.Delete(namespace, name);
        return;
      }
      err := eventHandler.Update(namespace, name);
    }

    method ProcessNextItem() returns (more: bool)
      requires Valid()
      requires |queue.queue| > 0 || queue.shuttingDown
      modifies queue, eventHandler.client, eventHandler.generationCache
      ensures Valid()
      ensures (queue.State(), eventHandler.State(), more)
           == ProcessNextStep(old(queue.State()), old(eventHandler.State()), informer.indexer, eventHandler.conciliator.state)
    {
      var key, quit := queue.Get();
      if quit {
        return false;
      }
      var err := Handle(key);
      if err == Pass {
        queue.Forget(key);
      } else if queue.NumRequeues(key) < maxRetries {
        queue.AddRateLimited(key);
      } else {
        queue.Forget(key);
      }
      queue.Done(key);
      AttemptOutcome(old(queue.State()), err == Pass);
      return true;
    }

    /**
     * The worker loop, for at most `fuel` items. It returns true only when
     * the queue reported shutdown; it also stops, returning false, where
     * Get would block on an empty queue.
     */
    method RunWorker(fuel: nat) returns (stopped: bool)
      requires Valid()
      modifies queue, eventHandler.client, eventHandler.generationCache
      ensures Valid()
      ensures stopped ==> queue.shuttingDown && |queue.queue| == 0
      ensures (queue.State(), eventHandler.State(), stopped)
           == WorkerLoop(old(queue.State()), old(eventHandler.State()), informer.indexer, eventHandler.conciliator.state, fuel)
    {
      var n := fuel;
      while n > 0 && (|queue.queue| > 0 || queue.shuttingDown)
        invariant Valid()
        invariant WorkerLoop(queue.State(), eventHandler.State(), informer.indexer, eventHandler.conciliator.state, n)
               == WorkerLoop(old(queue.State()), old(eventHandler.State()), informer.indexer, eventHandler.conciliator.state, fuel)
        decreases n
      {
        var more := ProcessNextItem();
        if !more {
          return true;
        }
        n := n - 1;
      }
      return false;
    }
  }
}
