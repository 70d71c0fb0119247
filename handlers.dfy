/**
 * Phase handlers as values. A handler in the source is a method value bound
 * to its use-case object; here it is a datatype case holding that object,
 * and `Handle` gives what calling it does to the cluster.
 */
module Handlers {
  import opened Outcomes
  import opened V1alpha1
  import opened Cluster
  import opened Generation
  import opened CreateUseCase
  import opened ReloadUseCase
  import opened DeleteUseCase

  datatype StateHandler =
    | CreatorEmpty(c: Creator)
    | CreatorInitializing(c: Creator)
    | CreatorWaitingCreation(c: Creator)
    | ReloaderRunning(r: Reloader)
    | ReloaderReloading(r: Reloader)
    | ReloaderWaitingRemoval(r: Reloader)
    | DeleterTerminating(d: Deleter)
  {
    /** The cluster the handler's collaborators talk to. */
    function Api(): ApiServer {
      match this
      case CreatorEmpty(c) => c.resource.api
      case CreatorInitializing(c) => c.resource.api
      case CreatorWaitingCreation(c) => c.resource.api
      case ReloaderRunning(r) => r.resource.api
      case ReloaderReloading(r) => r.resource.api
      case ReloaderWaitingRemoval(r) => r.resource.api
      case DeleterTerminating(d) => d.resource.api
    }

    /** All collaborators talk to `api`, and a reloader reads `cache`. */
    predicate WiredTo(api: ApiServer, cache: GenerationCache) {
      Api() == api &&
      match this
      case CreatorEmpty(c) => c.Valid()
      case CreatorInitializing(c) => c.Valid()
      case CreatorWaitingCreation(c) => c.Valid()
      case ReloaderRunning(r) => r.generation == cache
      case ReloaderReloading(r) => r.generation == cache
      case ReloaderWaitingRemoval(r) => r.generation == cache
      case DeleterTerminating(d) => d.Valid()
    }
  }

  /** What calling the handler on `ps` does, given the cluster and the generation cache's contents. */
  function Handle(h: StateHandler, s: ApiState, cache: map<string, int>, ps: PrometheusServer): (ApiState, Transition) {
    match h
    case CreatorEmpty(_) => EmptyStep(s, ps)
    case CreatorInitializing(c) => InitializingStep(s, c.resource.builders, ps)
    case CreatorWaitingCreation(c) => WaitingCreationStep(s, c.resource.builders, ps)
    case ReloaderRunning(_) => (s, Transition(RunningNext(Lookup(cache, ps.namespace, ps.name), ps), Pass))
    case ReloaderReloading(r) => ReloadingStep(s, r.resource.builders, ps)
    case ReloaderWaitingRemoval(r) => WaitingRemovalStep(s, r.resource.builders, ps)
    case DeleterTerminating(d) => TerminatingStep(s, d.resource.builders, ps)
  }

  /** Calls the bound handler. */
  method Invoke(h: StateHandler, ghost cache: GenerationCache, ps: PrometheusServer) returns (newStatus: string, err: Outcome)
    requires h.WiredTo(h.Api(), cache)
    modifies h.Api()
    ensures (h.Api().State(), Transition(newStatus, err)) == Handle(h, old(h.Api().State()), cache.generation, ps)
  {
    match h
    case CreatorEmpty(c) => newStatus, err := c.Empty(ps);
    case CreatorInitializing(c) => newStatus, err := c.Initializing(ps);
    case CreatorWaitingCreation(c) => newStatus, err := c.WaitingCreation(ps);
    case ReloaderRunning(r) => newStatus, err := r.Running(ps);
    case ReloaderReloading(r) => newStatus, err := r.Reloading(ps);
    case ReloaderWaitingRemoval(r) => newStatus, err := r.WaitingRemoval(ps);
    case DeleterTerminating(d) => newStatus, err := d.Terminating(ps);
  }

  /** A use-case object, as something that offers phase handlers. */
  datatype ConciliatorHandler =
    | CreatorHandlers(c: Creator)
    | ReloaderHandlers(r: Reloader)
    | DeleterHandlers(d: Deleter)
  {
    function Handlers(): map<string, StateHandler> {
      match this
      case CreatorHandlers(c) =>
        map[Empty := CreatorEmpty(c), Initializing := CreatorInitializing(c), WaitingCreation := CreatorWaitingCreation(c)]
      case ReloaderHandlers(r) =>
        map[Running := ReloaderRunning(r), Reloading := ReloaderReloading(r), WaitingRemoval := ReloaderWaitingRemoval(r)]
      case DeleterHandlers(d) =>
        map[Terminating := DeleterTerminating(d)]
    }
  }

  /** The phase each registered handler moves to when it completes its work. */
  function Successor(phase: string): string {
    if phase == Empty then Initializing
    else if phase == Initializing then WaitingCreation
    else if phase == WaitingCreation then Running
    else if phase == Running then Reloading
    else if phase == Reloading then WaitingRemoval
    else if phase == WaitingRemoval then Initializing
    else if phase == Terminating then Terminated
    else phase
  }

  /**
   * The three use cases offer exactly Empty/Initializing/WaitingCreation,
   * Running/Reloading/WaitingRemoval and Terminating: pairwise disjoint,
   * and together every phase but Terminated.
   */
  lemma HandlerTablesPartitionPhases(c: Creator, r: Reloader, d: Deleter)
    ensures CreatorHandlers(c).Handlers().Keys == {Empty, Initializing, WaitingCreation}
    ensures ReloaderHandlers(r).Handlers().Keys == {Running, Reloading, WaitingRemoval}
    ensures DeleterHandlers(d).Handlers().Keys == {Terminating}
    ensures CreatorHandlers(c).Handlers().Keys !! ReloaderHandlers(r).Handlers().Keys
    ensures CreatorHandlers(c).Handlers().Keys !! DeleterHandlers(d).Handlers().Keys
    ensures ReloaderHandlers(r).Handlers().Keys !! DeleterHandlers(d).Handlers().Keys
    ensures CreatorHandlers(c).Handlers().Keys + ReloaderHandlers(r).Handlers().Keys
          + DeleterHandlers(d).Handlers().Keys == KnownPhases - {Terminated}
  {
  }

  /**
   * A handler registered for a phase, called on an object in that phase,
   * reports that phase or its successor, and that phase whenever it fails.
   */
  lemma {:induction false} HandlerStaysOrAdvances(o: ConciliatorHandler, s: ApiState, cache: map<string, int>, ps: PrometheusServer)
    requires ps.phase in o.Handlers()
    ensures var t := Handle(o.Handlers()[ps.phase], s, cache, ps).1;
      && (t.phase == ps.phase || t.phase == Successor(ps.phase))
      && (t.outcome.Fail? ==> t.phase == ps.phase)
  {
    var h := o.Handlers()[ps.phase];
    match h
    case CreatorEmpty(_) => assert ps.phase == Empty;
    case CreatorInitializing(_) => assert ps.phase == Initializing;
    case CreatorWaitingCreation(_) => assert ps.phase == WaitingCreation;
    case ReloaderRunning(_) => assert ps.phase == Running;
    case ReloaderReloading(_) => assert ps.phase == Reloading;
    case ReloaderWaitingRemoval(_) => assert ps.phase == WaitingRemoval;
    case DeleterTerminating(_) => assert ps.phase == Terminating;
  }
}
