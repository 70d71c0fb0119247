/**
 * The per-key reconcile handler. `Update` reads the object from the
 * informer's cache, pre-empts to Terminating on a deletion marker, runs one
 * conciliation step, writes the new phase through the status subresource
 * when it changed, and always records the object's generation. `Delete`
 * only forgets the generation.
 */
module Operator {
  import opened Outcomes
  import opened V1alpha1
  import opened Keys
  import opened Cluster
  import opened Generation
  import opened Finalizers
  import opened Resources
  import opened CreateUseCase
  import opened ReloadUseCase
  import opened DeleteUseCase
  import opened Handlers
  import opened Conciliation

  /** What the reconciler can change: the cluster and the generation cache. */
  datatype World = World(api: ApiState, cache: map<string, int>)

  /** The generated lister's Get: the object cached under "namespace/name". */
  function ListerGet(indexer: map<string, PrometheusServer>, namespace: string, name: string): Option<PrometheusServer> {
    var key := SlotKey(namespace, name);
    if key in indexer then Some(indexer[key]) else None
  }

  /** The copy written by updateStatus: the object with only its phase replaced. */
  function WithPhase(ps: PrometheusServer, phase: string): PrometheusServer {
    ps.(phase := phase)
  }

  function UpdateStep(indexer: map<string, PrometheusServer>, table: map<string, StateHandler>, w: World,
                      namespace: string, name: string): (World, Outcome)
  {
    match ListerGet(indexer, namespace, name)
    case None =>
      (w, Fail(Wrapped("unable to get prometheus server", NotFound(SlotKey(namespace, name)))))
    case Some(ps) =>
      // deferred: runs on every return below, after the conciliator has read the cache
      var cache' := w.cache[SlotKey(namespace, name) := ps.generation];
      if ps.deletionMarked && ps.phase != Terminating then
        var (s', err) := PutStatus(w.api, WithPhase(ps, Terminating));
        (World(s', cache'), Wrap("unable to update status to Terminating", err))
      else
        var (s1, t) := ConciliateStep(table, w.api, w.cache, ps);
        if t.outcome.Fail? then (World(s1, cache'), Fail(Wrapped("unable to conciliate", t.outcome.error)))
        else if ps.phase == t.phase || t.phase == Terminated then (World(s1, cache'), Pass)
        else
          var (s2, err) := PutStatus(s1, WithPhase(ps, t.phase));
          (World(s2, cache'), Wrap("unable to update status to newState", err))
  }

  function DeleteStep(w: World, namespace: string, name: string): (World, Outcome) {
    (w.(cache := w.cache - {SlotKey(namespace, name)}), Pass)
  }

  /** No call on the cluster writes a status. */
  predicate NoStatusWrite(calls: seq<Call>) {
    forall i :: 0 <= i < |calls| ==> !calls[i].UpdateStatus?
  }

  /** `s'` only appended calls to `s`, none of them a status write. */
  predicate ExtendsWithoutStatusWrite(s: ApiState, s': ApiState) {
    && |s.calls| <= |s'.calls| && s'.calls[..|s.calls|] == s.calls && NoStatusWrite(s'.calls[|s.calls|..])
    && s'.rejecting == s.rejecting && s'.failing == s.failing
  }

  lemma ExtendsBy(s: ApiState, s': ApiState, extra: seq<Call>)
    requires s'.calls == s.calls + extra && NoStatusWrite(extra)
    requires s'.rejecting == s.rejecting && s'.failing == s.failing
    ensures ExtendsWithoutStatusWrite(s, s')
  {
    assert s'.calls[|s.calls|..] == extra;
  }

  lemma ExtendsTrans(a: ApiState, b: ApiState, c: ApiState)
    requires ExtendsWithoutStatusWrite(a, b) && ExtendsWithoutStatusWrite(b, c)
    ensures ExtendsWithoutStatusWrite(a, c)
  {
    assert c.calls[|a.calls|..] == b.calls[|a.calls|..] + c.calls[|b.calls|..];
  }

  lemma CreationWritesNoStatus(s: ApiState, names: seq<string>)
    ensures ExtendsWithoutStatusWrite(s, Creation(s, names).0)
  {
    var n := |names|;
    CreationFromCharacterized(s, names, 0);
    var k := FirstIn(s.failing, 0, n);
    ExtendsBy(s, Creation(s, names).0, CreationCalls(0, if k < n then k + 1 else n));
  }

  lemma DeletionWritesNoStatus(s: ApiState, names: seq<string>)
    ensures ExtendsWithoutStatusWrite(s, Deletion(s, names).0)
  {
    var n := |names|;
    DeletionDownCharacterized(s, names, n);
    var k := LastIn(s.failing, n);
    ExtendsBy(s, Deletion(s, names).0, DeletionCalls(if k >= 0 then k else 0, n));
  }

  lemma ExistenceWritesNoStatus(s: ApiState, names: seq<string>, mustExist: bool)
    ensures ExtendsWithoutStatusWrite(s, Existence(s, names, mustExist).0)
  {
    var n := |names|;
    ExistenceFromCharacterized(s, names, mustExist, 0);
    var k := FirstIn(Unsettled(s, n, mustExist), 0, n);
    ExtendsBy(s, Existence(s, names, mustExist).0, CheckCalls(0, if k < n then k + 1 else n));
  }

  lemma TerminatingWritesNoStatus(s: ApiState, builders: seq<string>, ps: PrometheusServer)
    ensures ExtendsWithoutStatusWrite(s, TerminatingStep(s, builders, ps).0)
  {
    var sd := Deletion(s, builders).0;
    DeletionWritesNoStatus(s, builders);
    if Deletion(s, builders).1 == Pass && HasFinalizer(ps) {
      var s2 := RemoveFinalizer(sd, ps).0;
      ExtendsBy(sd, s2, [Call.Update(ps.(finalizers := Without(ps.finalizers)))]);
      ExtendsTrans(s, sd, s2);
    }
  }

  /** Handlers only append calls, and never write a status: that is the operator's job. */
  lemma HandleWritesNoStatus(h: StateHandler, s: ApiState, cache: map<string, int>, ps: PrometheusServer)
    ensures ExtendsWithoutStatusWrite(s, Handle(h, s, cache, ps).0)
  {
    var s' := Handle(h, s, cache, ps).0;
    match h
    case CreatorEmpty(_) =>
      if HasFinalizer(ps) {
        ExtendsBy(s, s', []);
      } else {
        ExtendsBy(s, s', [Call.Update(ps.(finalizers := ps.finalizers + [Name]))]);
      }
    case CreatorInitializing(c) =>
      CreationWritesNoStatus(s, c.resource.builders);
    case CreatorWaitingCreation(c) =>
      ExistenceWritesNoStatus(s, c.resource.builders, true);
    case ReloaderRunning(_) =>
      ExtendsBy(s, s', []);
    case ReloaderReloading(r) =>
      DeletionWritesNoStatus(s, r.resource.builders);
    case ReloaderWaitingRemoval(r) =>
      ExistenceWritesNoStatus(s, r.resource.builders, false);
    case DeleterTerminating(d) =>
      TerminatingWritesNoStatus(s, d.resource.builders, ps);
  }

  /**
   * A failed lister lookup is an error that writes nothing and leaves the
   * generation cache alone; after a successful one the object's generation
   * is recorded on every path, errors included, and no other slot changes.
   */
  lemma UpdateRecordsGeneration(indexer: map<string, PrometheusServer>, table: map<string, StateHandler>, w: World,
                                namespace: string, name: string)
    ensures var (w', err) := UpdateStep(indexer, table, w, namespace, name);
      && (SlotKey(namespace, name) !in indexer ==> w' == w && err.Fail? && err.error.cause == NotFound(SlotKey(namespace, name)))
      && (SlotKey(namespace, name) in indexer ==>
            && Lookup(w'.cache, namespace, name) == indexer[SlotKey(namespace, name)].generation
            && w'.cache == w.cache[SlotKey(namespace, name) := indexer[SlotKey(namespace, name)].generation])
  {
  }

  /**
   * An object marked for deletion in any phase but Terminating gets exactly
   * one status write, to Terminating, and no handler runs.
   */
  lemma UpdatePreemptsToTerminating(indexer: map<string, PrometheusServer>, table: map<string, StateHandler>, w: World,
                                    namespace: string, name: string)
    requires SlotKey(namespace, name) in indexer
    requires var ps := indexer[SlotKey(namespace, name)]; ps.deletionMarked && ps.phase != Terminating
    ensures var ps := indexer[SlotKey(namespace, name)];
      var (w', err) := UpdateStep(indexer, table, w, namespace, name);
      && w'.api.calls == w.api.calls + [Call.UpdateStatus(WithPhase(ps, Terminating))]
      && w'.api.present == w.api.present
      && (err.Fail? <==> WriteRefusal(w.api, ps).Some?)
  {
  }

  /**
   * A lister that still holds an object the cluster has already removed
   * cannot bring it back: the Terminating status write is answered
   * NotFound and the cluster's objects stay as they were.
   */
  lemma StaleListerCannotRecreate(indexer: map<string, PrometheusServer>, table: map<string, StateHandler>, w: World,
                                  namespace: string, name: string)
    requires SlotKey(namespace, name) in indexer
    requires var ps := indexer[SlotKey(namespace, name)];
      ps.deletionMarked && ps.phase != Terminating && ObjectKey(ps) !in w.api.objects
    ensures var ps := indexer[SlotKey(namespace, name)];
      var (w', err) := UpdateStep(indexer, table, w, namespace, name);
      && w'.api.objects == w.api.objects
      && err == Fail(Wrapped("unable to update status to Terminating", NotFound(ObjectKey(ps))))
  {
  }

  /**
   * Apart from that pre-emption, Update writes a status at most once, as
   * its last call, carrying the conciliator's new phase, and only when the
   * conciliator succeeded with a phase that is neither the current one nor
   * Terminated; every other call is the handler's. A successful conciliation
   * that writes nothing returns nil, and a written status is stored as the
   * cluster stores any status write.
   */
  lemma UpdateWritesStatusOnChange(indexer: map<string, PrometheusServer>, table: map<string, StateHandler>, w: World,
                                   namespace: string, name: string)
    requires SlotKey(namespace, name) in indexer
    requires var ps := indexer[SlotKey(namespace, name)]; !(ps.deletionMarked && ps.phase != Terminating)
    ensures var ps := indexer[SlotKey(namespace, name)];
      var (s1, t) := ConciliateStep(table, w.api, w.cache, ps);
      var (w', err) := UpdateStep(indexer, table, w, namespace, name);
      var written := t.outcome == Pass && t.phase != ps.phase && t.phase != Terminated;
      && (t.outcome.Fail? ==> err.Fail? && err.error.cause == t.outcome.error)
      && (!written ==> w'.api == s1)
      && (t.outcome == Pass && !written ==> err == Pass)
      && (written ==> w'.api == PutStatus(s1, WithPhase(ps, t.phase)).0)
      && (written ==> w'.api.calls == s1.calls + [Call.UpdateStatus(WithPhase(ps, t.phase))])
      && (written ==> (err.Fail? <==> WriteRefusal(s1, ps).Some?))
      && ExtendsWithoutStatusWrite(w.api, s1)
  {
    var ps := indexer[SlotKey(namespace, name)];
    if ps.phase in table {
      HandleWritesNoStatus(table[ps.phase], w.api, w.cache, ps);
    } else {
      ExtendsBy(w.api, w.api, []);
    }
  }

  /**
   * With the three use cases registered, the only status Update ever
   * writes for an object in a known phase is Terminating or that phase's
   * successor, and it writes at most one, as its last call.
   */
  lemma UpdateWritesOnlyProgress(c: Creator, r: Reloader, d: Deleter, indexer: map<string, PrometheusServer>, w: World,
                                 namespace: string, name: string)
    requires SlotKey(namespace, name) in indexer && indexer[SlotKey(namespace, name)].phase in KnownPhases
    ensures var ps := indexer[SlotKey(namespace, name)];
      var w' := UpdateStep(indexer, Registered(c, r, d), w, namespace, name).0;
      && |w.api.calls| <= |w'.api.calls| && w'.api.calls[..|w.api.calls|] == w.api.calls
      && forall i :: |w.api.calls| <= i < |w'.api.calls| && w'.api.calls[i].UpdateStatus? ==>
           && i == |w'.api.calls| - 1
           && (w'.api.calls[i] == Call.UpdateStatus(WithPhase(ps, Terminating))
               || w'.api.calls[i] == Call.UpdateStatus(WithPhase(ps, Successor(ps.phase))))
  {
    var ps := indexer[SlotKey(namespace, name)];
    var table := Registered(c, r, d);
    if !(ps.deletionMarked && ps.phase != Terminating) {
      UpdateWritesStatusOnChange(indexer, table, w, namespace, name);
      RegisteredStaysOrAdvances(c, r, d, w.api, w.cache, ps);
      var (s1, t) := ConciliateStep(table, w.api, w.cache, ps);
      var w' := UpdateStep(indexer, table, w, namespace, name).0;
      forall i | |w.api.calls| <= i < |w'.api.calls| && w'.api.calls[i].UpdateStatus?
        ensures i == |w'.api.calls| - 1
        ensures w'.api.calls[i] == Call.UpdateStatus(WithPhase(ps, Successor(ps.phase)))
      {
        if i < |s1.calls| {
          assert false;
        }
      }
    }
  }

  /** Delete forgets the generation and nothing else, and never fails. */
  lemma DeleteForgetsGeneration(w: World, namespace: string, name: string)
    ensures var (w', err) := DeleteStep(w, namespace, name);
      && err == Pass && w'.api == w.api
      && Lookup(w'.cache, namespace, name) == 0
      && w'.cache == w.cache - {SlotKey(namespace, name)}
  {
  }

  // Single Update calls on the registered use cases, with the lister
  // holding exactly the objects the cluster stores.

  /** A new object without the token gets it and stays in the empty phase. */
  lemma UpdateAddsFinalizer(c: Creator, r: Reloader, d: Deleter, w: World, namespace: string, name: string)
    requires namespace != ""
    requires SlotKey(namespace, name) in w.api.objects && !w.api.rejecting
    requires var ps := w.api.objects[SlotKey(namespace, name)];
      ps.namespace == namespace && ps.name == name && ps.phase == Empty && Name !in ps.finalizers && !ps.deletionMarked
    ensures var ps := w.api.objects[SlotKey(namespace, name)];
      var (w', err) := UpdateStep(w.api.objects, Registered(c, r, d), w, namespace, name);
      && err == Pass
      && w'.api.calls == w.api.calls + [Call.Update(ps.(finalizers := ps.finalizers + [Name]))]
      && SlotKey(namespace, name) in w'.api.objects
      && w'.api.objects[SlotKey(namespace, name)] == ps.(finalizers := ps.finalizers + [Name])
      && w'.api.present == w.api.present && w'.api.failing == w.api.failing && !w'.api.rejecting
  {
    var ps := w.api.objects[SlotKey(namespace, name)];
    assert ObjectKey(ps) == SlotKey(namespace, name);
    assert Registered(c, r, d)[Empty] == CreatorEmpty(c);
  }

  /** An object in the empty phase with the token moves to Initializing. */
  lemma UpdateStartsInitializing(c: Creator, r: Reloader, d: Deleter, w: World, namespace: string, name: string)
    requires namespace != ""
    requires SlotKey(namespace, name) in w.api.objects && !w.api.rejecting
    requires var ps := w.api.objects[SlotKey(namespace, name)];
      ps.namespace == namespace && ps.name == name && ps.phase == Empty && Name in ps.finalizers && !ps.deletionMarked
    ensures var ps := w.api.objects[SlotKey(namespace, name)];
      var (w', err) := UpdateStep(w.api.objects, Registered(c, r, d), w, namespace, name);
      && err == Pass
      && w'.api.calls == w.api.calls + [Call.UpdateStatus(WithPhase(ps, Initializing))]
      && SlotKey(namespace, name) in w'.api.objects
      && w'.api.objects[SlotKey(namespace, name)] == WithPhase(ps, Initializing)
      && w'.api.present == w.api.present && w'.api.failing == w.api.failing && !w'.api.rejecting
  {
    var ps := w.api.objects[SlotKey(namespace, name)];
    assert ObjectKey(ps) == SlotKey(namespace, name);
    assert Registered(c, r, d)[Empty] == CreatorEmpty(c);
  }

  /** An Initializing object with every enforcer healthy gets all its resources and moves to WaitingCreation. */
  lemma UpdateCreatesResources(c: Creator, r: Reloader, d: Deleter, w: World, namespace: string, name: string)
    requires namespace != ""
    requires SlotKey(namespace, name) in w.api.objects && !w.api.rejecting
    requires var ps := w.api.objects[SlotKey(namespace, name)];
      ps.namespace == namespace && ps.name == name && ps.phase == Initializing && !ps.deletionMarked
    requires forall j :: 0 <= j < |c.resource.builders| ==> j !in w.api.failing
    ensures var ps := w.api.objects[SlotKey(namespace, name)];
      var (w', err) := UpdateStep(w.api.objects, Registered(c, r, d), w, namespace, name);
      && err == Pass
      && w'.api.calls == w.api.calls + CreationCalls(0, |c.resource.builders|) + [Call.UpdateStatus(WithPhase(ps, WaitingCreation))]
      && SlotKey(namespace, name) in w'.api.objects
      && w'.api.objects[SlotKey(namespace, name)] == WithPhase(ps, WaitingCreation)
      && (forall j :: 0 <= j < |c.resource.builders| ==> j in w'.api.present)
      && w'.api.failing == w.api.failing && !w'.api.rejecting
  {
    var ps := w.api.objects[SlotKey(namespace, name)];
    var builders := c.resource.builders;
    assert ObjectKey(ps) == SlotKey(namespace, name);
    assert Registered(c, r, d)[Initializing] == CreatorInitializing(c);
    CreationFromCharacterized(w.api, builders, 0);
    assert FirstIn(w.api.failing, 0, |builders|) == |builders|;
  }

  /** An object waiting for creation, with every resource there, moves to Running. */
  lemma UpdateReachesRunning(c: Creator, r: Reloader, d: Deleter, w: World, namespace: string, name: string)
    requires namespace != ""
    requires SlotKey(namespace, name) in w.api.objects && !w.api.rejecting
    requires var ps := w.api.objects[SlotKey(namespace, name)];
      ps.namespace == namespace && ps.name == name && ps.phase == WaitingCreation && !ps.deletionMarked
    requires forall j :: 0 <= j < |c.resource.builders| ==> j !in w.api.failing && j in w.api.present
    ensures var ps := w.api.objects[SlotKey(namespace, name)];
      var (w', err) := UpdateStep(w.api.objects, Registered(c, r, d), w, namespace, name);
      && err == Pass
      && w'.api.calls == w.api.calls + CheckCalls(0, |c.resource.builders|) + [Call.UpdateStatus(WithPhase(ps, Running))]
      && SlotKey(namespace, name) in w'.api.objects
      && w'.api.objects[SlotKey(namespace, name)] == WithPhase(ps, Running)
      && Lookup(w'.cache, namespace, name) == ps.generation
  {
    var ps := w.api.objects[SlotKey(namespace, name)];
    var builders := c.resource.builders;
    var n := |builders|;
    assert ObjectKey(ps) == SlotKey(namespace, name);
    assert Registered(c, r, d)[WaitingCreation] == CreatorWaitingCreation(c);
    ExistenceFromCharacterized(w.api, builders, true, 0);
    AllCreatedIff(w.api, builders);
    assert FirstIn(Unsettled(w.api, n, true), 0, n) == n;
  }

  /**
   * Running stays Running and writes nothing on a cold cache
   * (0), or when the recorded generation is the object's own; the
   * generation is recorded.
   */
  lemma UpdateKeepsRunning(c: Creator, r: Reloader, d: Deleter, w: World, namespace: string, name: string)
    requires SlotKey(namespace, name) in w.api.objects
    requires var ps := w.api.objects[SlotKey(namespace, name)];
      ps.namespace == namespace && ps.name == name && ps.phase == Running && !ps.deletionMarked
      && (Lookup(w.cache, namespace, name) == 0 || Lookup(w.cache, namespace, name) == ps.generation)
    ensures var ps := w.api.objects[SlotKey(namespace, name)];
      var (w', err) := UpdateStep(w.api.objects, Registered(c, r, d), w, namespace, name);
      && err == Pass && w'.api == w.api
      && Lookup(w'.cache, namespace, name) == ps.generation
  {
    assert Registered(c, r, d)[Running] == ReloaderRunning(r);
  }

  /** A generation other than the recorded one sends Running to Reloading, and the new generation is recorded. */
  lemma UpdateReloadsOnNewGeneration(c: Creator, r: Reloader, d: Deleter, w: World, namespace: string, name: string)
    requires namespace != ""
    requires SlotKey(namespace, name) in w.api.objects && !w.api.rejecting
    requires var ps := w.api.objects[SlotKey(namespace, name)];
      ps.namespace == namespace && ps.name == name && ps.phase == Running && !ps.deletionMarked
      && Lookup(w.cache, namespace, name) != 0 && Lookup(w.cache, namespace, name) != ps.generation
    ensures var ps := w.api.objects[SlotKey(namespace, name)];
      var (w', err) := UpdateStep(w.api.objects, Registered(c, r, d), w, namespace, name);
      && err == Pass
      && w'.api.calls == w.api.calls + [Call.UpdateStatus(WithPhase(ps, Reloading))]
      && Lookup(w'.cache, namespace, name) == ps.generation
  {
    assert Registered(c, r, d)[Running] == ReloaderRunning(r);
  }

  /** A deletion marker on a Running object moves it to Terminating, with no teardown yet. */
  lemma UpdateTerminatesRunning(c: Creator, r: Reloader, d: Deleter, w: World, namespace: string, name: string)
    requires namespace != ""
    requires SlotKey(namespace, name) in w.api.objects && !w.api.rejecting
    requires var ps := w.api.objects[SlotKey(namespace, name)];
      ps.namespace == namespace && ps.name == name && ps.phase == Running && ps.deletionMarked && Name in ps.finalizers
    ensures var ps := w.api.objects[SlotKey(namespace, name)];
      var (w', err) := UpdateStep(w.api.objects, Registered(c, r, d), w, namespace, name);
      && err == Pass
      && w'.api.calls == w.api.calls + [Call.UpdateStatus(WithPhase(ps, Terminating))]
      && w'.api.present == w.api.present
      && SlotKey(namespace, name) in w'.api.objects
      && w'.api.objects[SlotKey(namespace, name)].phase == Terminating
  {
    var ps := w.api.objects[SlotKey(namespace, name)];
    assert ObjectKey(ps) == SlotKey(namespace, name);
    assert Name in WithPhase(ps, Terminating).finalizers;
  }

  /** `rounds` Update calls in a row on one key, with the lister in sync with the cluster. */
  function Reconciled(table: map<string, StateHandler>, w: World, namespace: string, name: string, rounds: nat): World
    decreases rounds
  {
    if rounds == 0 then w
    else Reconciled(table, UpdateStep(w.api.objects, table, w, namespace, name).0, namespace, name, rounds - 1)
  }

  /** The stored phase of the object after `rounds` Update calls, or None once it is gone. */
  function PhaseAfter(table: map<string, StateHandler>, w: World, namespace: string, name: string, rounds: nat): Option<string> {
    var objects := Reconciled(table, w, namespace, name, rounds).api.objects;
    if SlotKey(namespace, name) in objects then Some(objects[SlotKey(namespace, name)].phase) else None
  }

  /**
   * With every collaborator succeeding, a fresh object goes from the empty
   * phase to Running in four Update calls: one that only adds the token,
   * then three that each advance the phase (Initializing, WaitingCreation,
   * Running). A fifth call leaves it Running.
   */
  lemma FreshObjectReachesRunning(c: Creator, r: Reloader, d: Deleter, w: World, namespace: string, name: string)
    requires namespace != ""
    requires SlotKey(namespace, name) in w.api.objects && !w.api.rejecting
    requires forall j :: 0 <= j < |c.resource.builders| ==> j !in w.api.failing
    requires var ps := w.api.objects[SlotKey(namespace, name)];
      ps.namespace == namespace && ps.name == name && ps.phase == Empty && Name !in ps.finalizers && !ps.deletionMarked
    ensures var table := Registered(c, r, d);
      && PhaseAfter(table, w, namespace, name, 1) == Some(Empty)
      && HasFinalizer(Reconciled(table, w, namespace, name, 1).api.objects[SlotKey(namespace, name)])
      && PhaseAfter(table, w, namespace, name, 2) == Some(Initializing)
      && PhaseAfter(table, w, namespace, name, 3) == Some(WaitingCreation)
      && PhaseAfter(table, w, namespace, name, 4) == Some(Running)
      && PhaseAfter(table, w, namespace, name, 5) == Some(Running)
  {
    var key := SlotKey(namespace, name);
    var table := Registered(c, r, d);

    UpdateAddsFinalizer(c, r, d, w, namespace, name);
    var w1 := UpdateStep(w.api.objects, table, w, namespace, name).0;
    UpdateStartsInitializing(c, r, d, w1, namespace, name);
    var w2 := UpdateStep(w1.api.objects, table, w1, namespace, name).0;
    UpdateCreatesResources(c, r, d, w2, namespace, name);
    var w3 := UpdateStep(w2.api.objects, table, w2, namespace, name).0;
    UpdateReachesRunning(c, r, d, w3, namespace, name);
    var w4 := UpdateStep(w3.api.objects, table, w3, namespace, name).0;
    UpdateKeepsRunning(c, r, d, w4, namespace, name);
    var w5 := UpdateStep(w4.api.objects, table, w4, namespace, name).0;

    assert Reconciled(table, w4, namespace, name, 1) == w5;
    assert Reconciled(table, w3, namespace, name, 2) == w5;
    assert Reconciled(table, w2, namespace, name, 3) == w5;
    assert Reconciled(table, w1, namespace, name, 4) == w5;
  }

  /** The informer's local cache of PrometheusServers, which the lister and the controller read. */
  class Informer {
    var indexer: map<string, PrometheusServer>

    constructor (indexer: map<string, PrometheusServer>)
      ensures this.indexer == indexer
    {
      this.indexer := indexer;
    }
  }

  class Operator {
    const lister: Informer
    const client: ApiServer
    const generationCache: GenerationCache
    const conciliator: Conciliator

    constructor (l: Informer, cl: ApiServer, g: GenerationCache, c: Conciliator)
      ensures lister == l && client == cl && generationCache == g && conciliator == c
    {
      lister := l;
      client := cl;
      generationCache := g;
      conciliator := c;
    }

    /** Every registered handler talks to this operator's cluster and reads its generation cache. */
    predicate Valid()
      reads conciliator
    {
      conciliator.WiredTo(client, generationCache)
    }

    ghost function State(): World
      reads client, generationCache
    {
      World(client.State(), generationCache.generation)
    }

    method Update(namespace: string, name: string) returns (err: Outcome)
      requires Valid()
      modifies client, generationCache
      ensures (State(), err) == UpdateStep(lister.indexer, conciliator.state, old(State()), namespace, name)
    {
      var found := ListerGet(lister.indexer, namespace, name);
      if found.None? {
        return Fail(Wrapped("unable to get prometheus server", NotFound(SlotKey(namespace, name))));
      }
      var ps := found.value;
      if ps.deletionMarked && ps.phase != Terminating {
        err := UpdateStatus(ps, Terminating);
        generationCache.Set(namespace, name, ps.generation);
        return Wrap("unable to update status to Terminating", err);
      }
      var newState;
      newState, err := conciliator.Conciliate(ps, client, generationCache);
      if err.Fail? {
        generationCache.Set(namespace, name, ps.generation);
        return Fail(Wrapped("unable to conciliate", err.error));
      }
      if ps.phase == newState || newState == Terminated {
        generationCache.Set(namespace, name, ps.generation);
        return Pass;
      }
      err := UpdateStatus(ps, newState);
      generationCache.Set(namespace, name, ps.generation);
      return Wrap("unable to update status to newState", err);
    }

    method Delete(namespace: string, name: string) returns (err: Outcome)
      modifies generationCache
      ensures (State(), err) == DeleteStep(old(State()), namespace, name)
    {
      generationCache.Remove(namespace, name);
      return Pass;
    }

    /** Writes a copy with the new phase; `ps` itself is a value and stays as it was. */
    method UpdateStatus(ps: PrometheusServer, status: string) returns (err: Outcome)
      modifies client
      ensures (client.State(), err) == PutStatus(old(client.State()), WithPhase(ps, status))
    {
      var p := ps.(phase := status);
      err := client.UpdateStatus(p);
    }
  }
}
