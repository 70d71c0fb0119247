/**
 * The rate-limited work queue the controller consumes, with client-go's
 * semantics: a key is queued at most once, a key re-added while it is
 * being processed is held back ("dirty") and queued again when processing
 * is done, and the rate limiter counts requeues per key. The backoff delay
 * itself is not modelled: a rate-limited add is an immediate add.
 */
module WorkQueue {

  datatype QueueState = QueueState(
    queue: seq<string>,          // keys waiting, in order
    dirty: set<string>,          // keys that need processing
    processing: set<string>,     // keys handed out by Get and not yet Done
    requeues: map<string, nat>,  // the rate limiter's failure count per key
    shuttingDown: bool)

  /** client-go's invariant between the three collections. */
  predicate Coherent(q: QueueState) {
    && (forall i :: 0 <= i < |q.queue| ==> q.queue[i] in q.dirty && q.queue[i] !in q.processing)
    && (forall i, j :: 0 <= i < j < |q.queue| ==> q.queue[i] != q.queue[j])
    && (forall k :: k in q.dirty && k !in q.processing ==> k in q.queue)
  }

  function Empty(): QueueState {
    QueueState([], {}, {}, map[], false)
  }

  function Requeues(q: QueueState, k: string): nat {
    if k in q.requeues then q.requeues[k] else 0
  }

  function AfterAdd(q: QueueState, k: string): QueueState {
    if q.shuttingDown || k in q.dirty then q
    else if k in q.processing then q.(dirty := q.dirty + {k})
    else q.(dirty := q.dirty + {k}, queue := q.queue + [k])
  }

  /** Hands out the first key; only defined when there is one (an empty queue blocks or reports shutdown). */
  function AfterGet(q: QueueState): (QueueState, string)
    requires |q.queue| > 0
  {
    var k := q.queue[0];
    (q.(queue := q.queue[1..], processing := q.processing + {k}, dirty := q.dirty - {k}), k)
  }

  function AfterDone(q: QueueState, k: string): QueueState {
    var q1 := q.(processing := q.processing - {k});
    if k in q.dirty then q1.(queue := q.queue + [k]) else q1
  }

  function AfterForget(q: QueueState, k: string): QueueState {
    q.(requeues := q.requeues - {k})
  }

  /** The limiter counts the failure first; the add that follows is dropped once shutting down. */
  function AfterAddRateLimited(q: QueueState, k: string): QueueState {
    AfterAdd(q.(requeues := q.requeues[k := Requeues(q, k) + 1]), k)
  }

  function AfterShutDown(q: QueueState): QueueState {
    q.(shuttingDown := true)
  }

  lemma EmptyCoherent()
    ensures Coherent(Empty())
  {
  }

  /** Add keeps the invariant; a key already waiting is not queued twice, and one in processing is held back. */
  lemma AddCoherent(q: QueueState, k: string)
    requires Coherent(q)
    ensures Coherent(AfterAdd(q, k))
    ensures k in q.queue ==> AfterAdd(q, k) == q
    ensures !q.shuttingDown && k in q.processing ==> k in AfterAdd(q, k).dirty && k !in AfterAdd(q, k).queue
    ensures !q.shuttingDown && k !in q.processing ==> k in AfterAdd(q, k).queue
  {
    if !q.shuttingDown && k !in q.dirty && k !in q.processing {
      var q' := AfterAdd(q, k);
      forall i, j | 0 <= i < j < |q'.queue| ensures q'.queue[i] != q'.queue[j] {
        if j == |q.queue| {
          assert q'.queue[i] == q.queue[i];
        }
      }
    }
  }

  /** Get hands out the head, which is then processing and no longer waiting or dirty. */
  lemma GetCoherent(q: QueueState)
    requires Coherent(q) && |q.queue| > 0
    ensures var (q', k) := AfterGet(q);
      && Coherent(q')
      && k == q.queue[0] && k in q'.processing && k !in q'.queue && k !in q'.dirty
  {
    var (q', k) := AfterGet(q);
    forall i | 0 <= i < |q'.queue| ensures q'.queue[i] != k {
      assert q'.queue[i] == q.queue[i + 1];
    }
  }

  /** Done keeps the invariant, and redelivers a key re-added while it was processing. */
  lemma DoneCoherent(q: QueueState, k: string)
    requires Coherent(q) && k in q.processing
    ensures Coherent(AfterDone(q, k))
    ensures k !in AfterDone(q, k).processing
    ensures k in q.dirty ==> AfterDone(q, k).queue == q.queue + [k]
    ensures k !in q.dirty ==> AfterDone(q, k).queue == q.queue
  {
    var q' := AfterDone(q, k);
    if k in q.dirty {
      assert k !in q.queue;
      forall i, j | 0 <= i < j < |q'.queue| ensures q'.queue[i] != q'.queue[j] {
        if j == |q.queue| {
          assert q'.queue[i] == q.queue[i];
        }
      }
    }
  }

  /** Forget resets the requeue count; AddRateLimited raises it by exactly one. */
  lemma RequeueCounting(q: QueueState, k: string, other: string)
    requires other != k
    ensures Requeues(AfterForget(q, k), k) == 0
    ensures Requeues(AfterAddRateLimited(q, k), k) == Requeues(q, k) + 1
    ensures Requeues(AfterForget(q, k), other) == Requeues(q, other)
    ensures Requeues(AfterAddRateLimited(q, k), other) == Requeues(q, other)
  {
  }

  class Queue {
    var queue: seq<string>
    var dirty: set<string>
    var processing: set<string>
    var requeues: map<string, nat>
    var shuttingDown: bool

    function State(): QueueState
      reads this
    {
      QueueState(queue, dirty, processing, requeues, shuttingDown)
    }

    constructor ()
      ensures State() == Empty()
    {
      queue := [];
      dirty := {};
      processing := {};
      requeues := map[];
      shuttingDown := false;
    }

    method Add(k: string)
      modifies this
      ensures State() == AfterAdd(old(State()), k)
    {
      if shuttingDown || k in dirty {
        return;
      }
      dirty := dirty + {k};
      if k in processing {
        return;
      }
      queue := queue + [k];
    }

    /** Never blocks here: the caller only asks when a key is waiting or the queue is shutting down. */
    method Get() returns (k: string, shutdown: bool)
      requires |queue| > 0 || shuttingDown
      modifies this
      ensures shutdown <==> |old(queue)| == 0
      ensures shutdown ==> State() == old(State())
      ensures !shutdown ==> (State(), k) == AfterGet(old(State()))
    {
      if |queue| == 0 {
        return "", true;
      }
      k := queue[0];
      queue := queue[1..];
      processing := processing + {k};
      dirty := dirty - {k};
      shutdown := false;
    }

    method Done(k: string)
      modifies this
      ensures State() == AfterDone(old(State()), k)
    {
      processing := processing - {k};
      if k in dirty {
        queue := queue + [k];
      }
    }

    method Forget(k: string)
      modifies this
      ensures State() == AfterForget(old(State()), k)
    {
      requeues := requeues - {k};
    }

    function NumRequeues(k: string): nat
      reads this
    {
      Requeues(State(), k)
    }

    method AddRateLimited(k: string)
      modifies this
      ensures State() == AfterAddRateLimited(old(State()), k)
    {
      requeues := requeues[k := NumRequeues(k) + 1];
      Add(k);
    }

    method ShutDown()
      modifies this
      ensures State() == AfterShutDown(old(State()))
    {
      shuttingDown := true;
    }
  }
}
