/**
 * The conciliator: a table from phase to handler, filled by registering
 * use cases, and a dispatch that runs the handler for the object's phase.
 */
module Conciliation {
  import opened Outcomes
  import opened V1alpha1
  import opened Cluster
  import opened Generation
  import opened Handlers
  import opened CreateUseCase
  import opened ReloadUseCase
  import opened DeleteUseCase

  /** Conciliate as a function of the table, the cluster and the generation cache's contents. */
  function ConciliateStep(table: map<string, StateHandler>, s: ApiState, cache: map<string, int>, ps: PrometheusServer)
    : (ApiState, Transition)
  {
    if ps.phase !in table then (s, Transition(ps.phase, Fail(NoHandler(ps.phase))))
    else
      var (s', t) := Handle(table[ps.phase], s, cache, ps);
      if t.outcome.Fail? then (s', Transition(ps.phase, Fail(Wrapped("error hhandling " + ps.phase + " phase", t.outcome.error))))
      else (s', t)
  }

  /** The table after registering `o` on `table`: `o`'s phases are overwritten, the others kept. */
  lemma RegisterOverwrites(table: map<string, StateHandler>, o: ConciliatorHandler)
    ensures forall p :: p in o.Handlers() ==> p in table + o.Handlers() && (table + o.Handlers())[p] == o.Handlers()[p]
    ensures forall p :: p !in o.Handlers() ==> (p in table + o.Handlers() <==> p in table)
    ensures forall p :: p !in o.Handlers() && p in table ==> (table + o.Handlers())[p] == table[p]
  {
  }

  /** An unregistered phase is an error that names it; the phase is kept and no call is made. */
  lemma ConciliateUnknownPhase(table: map<string, StateHandler>, s: ApiState, cache: map<string, int>, ps: PrometheusServer)
    requires ps.phase !in table
    ensures ConciliateStep(table, s, cache, ps) == (s, Transition(ps.phase, Fail(NoHandler(ps.phase))))
  {
  }

  /** A fresh conciliator fails on every phase. */
  lemma FreshConciliatorFails(s: ApiState, cache: map<string, int>, ps: PrometheusServer)
    ensures ConciliateStep(map[], s, cache, ps).1.outcome.Fail?
    ensures ConciliateStep(map[], s, cache, ps).0 == s
  {
  }

  /**
   * With a handler registered, Conciliate does exactly what the handler
   * does to the cluster; it reports the handler's phase when the handler
   * succeeds, and the object's own phase with the handler's error wrapped
   * when it fails.
   */
  lemma ConciliateDelegates(table: map<string, StateHandler>, s: ApiState, cache: map<string, int>, ps: PrometheusServer)
    requires ps.phase in table
    ensures var (sh, th) := Handle(table[ps.phase], s, cache, ps);
      var (s', t) := ConciliateStep(table, s, cache, ps);
      && s' == sh
      && (th.outcome == Pass ==> t == th)
      && (th.outcome.Fail? ==> t.phase == ps.phase && t.outcome.Fail? && t.outcome.error.cause == th.outcome.error)
  {
  }

  /** The table with the creation, reload and deletion use cases registered, in that order. */
  function Registered(c: Creator, r: Reloader, d: Deleter): map<string, StateHandler> {
    map[] + CreatorHandlers(c).Handlers() + ReloaderHandlers(r).Handlers() + DeleterHandlers(d).Handlers()
  }

  /**
   * With the three use cases registered, one conciliation step on an object
   * in a known phase reports that phase or its successor, keeps the phase
   * on any error, and fails only with NoHandler on Terminated.
   */
  lemma RegisteredStaysOrAdvances(c: Creator, r: Reloader, d: Deleter, s: ApiState, cache: map<string, int>, ps: PrometheusServer)
    requires ps.phase in KnownPhases
    ensures var t := ConciliateStep(Registered(c, r, d), s, cache, ps).1;
      && (t.phase == ps.phase || t.phase == Successor(ps.phase))
      && (t.outcome.Fail? ==> t.phase == ps.phase)
      && (ps.phase == Terminated ==> t == Transition(Terminated, Fail(NoHandler(Terminated))))
  {
    var table := Registered(c, r, d);
    HandlerTablesPartitionPhases(c, r, d);
    if ps.phase in CreatorHandlers(c).Handlers() {
      assert table[ps.phase] == CreatorHandlers(c).Handlers()[ps.phase];
      HandlerStaysOrAdvances(CreatorHandlers(c), s, cache, ps);
    } else if ps.phase in ReloaderHandlers(r).Handlers() {
      assert table[ps.phase] == ReloaderHandlers(r).Handlers()[ps.phase];
      HandlerStaysOrAdvances(ReloaderHandlers(r), s, cache, ps);
    } else if ps.phase in DeleterHandlers(d).Handlers() {
      assert table[ps.phase] == DeleterHandlers(d).Handlers()[ps.phase];
      HandlerStaysOrAdvances(DeleterHandlers(d), s, cache, ps);
    } else {
      assert ps.phase == Terminated;
      assert ps.phase !in table;
    }
  }

  class Conciliator {
    var state: map<string, StateHandler>

    constructor ()
      ensures state == map[]
    {
      state := map[];
    }

    /** Every registered handler talks to `api` and reads `cache`. */
    predicate WiredTo(api: ApiServer, cache: GenerationCache)
      reads this
    {
      forall p :: p in state ==> state[p].WiredTo(api, cache)
    }

    method Register(o: ConciliatorHandler)
      modifies this
      ensures state == old(state) + o.Handlers()
    {
      var handlers := o.Handlers();
      var pending := handlers.Keys;
      while pending != {}
        invariant pending <= handlers.Keys
        invariant state == old(state) + (handlers - pending)
        decreases pending
      {
        var p :| p in pending;
        assert old(state) + (handlers - (pending - {p})) == (old(state) + (handlers - pending))[p := handlers[p]];
        state := state[p := handlers[p]];
        pending := pending - {p};
      }
      assert handlers - {} == handlers;
    }

    method Conciliate(ps: PrometheusServer, ghost api: ApiServer, ghost cache: GenerationCache)
      returns (newStatus: string, err: Outcome)
      requires WiredTo(api, cache)
      modifies api
      ensures (api.State(), Transition(newStatus, err)) == ConciliateStep(state, old(api.State()), cache.generation, ps)
    {
      if ps.phase !in state {
        return ps.phase, Fail(NoHandler(ps.phase));
      }
      var h := state[ps.phase];
      var newState;
      newState, err := Invoke(h, cache, ps);
      if err.Fail? {
        return ps.phase, Fail(Wrapped("error hhandling " + ps.phase + " phase", err.error));
      }
      return newState, Pass;
    }
  }
}
