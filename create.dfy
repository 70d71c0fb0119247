/**
 * The creation use case: the handlers for the Empty, Initializing and
 * WaitingCreation phases. Each returns the object's current phase or its
 * one successor, and the current phase whenever it returns an error.
 */
module CreateUseCase {
  import opened Outcomes
  import opened V1alpha1
  import opened Cluster
  import opened Finalizers
  import opened Resources

  /** Empty: add the guard finalizer and stay, or move on once it is there. */
  function EmptyStep(s: ApiState, ps: PrometheusServer): (ApiState, Transition) {
    if !HasFinalizer(ps) then
      var (s', err) := AddFinalizer(s, ps);
      (s', Transition(ps.phase, err))
    else (s, Transition(Initializing, Pass))
  }

  /** Initializing: create every downstream resource, then wait for them. */
  function InitializingStep(s: ApiState, builders: seq<string>, ps: PrometheusServer): (ApiState, Transition) {
    var (s', err) := Creation(s, builders);
    if err.Fail? then (s', Transition(ps.phase, err))
    else (s', Transition(WaitingCreation, Pass))
  }

  /** WaitingCreation: move to Running once every resource exists. */
  function WaitingCreationStep(s: ApiState, builders: seq<string>, ps: PrometheusServer): (ApiState, Transition) {
    var (s', p) := Existence(s, builders, true);
    if p.outcome.Fail? then (s', Transition(ps.phase, p.outcome))
    else if !p.ok then (s', Transition(ps.phase, Pass))
    else (s', Transition(Running, Pass))
  }

  /**
   * With the token present, Empty writes nothing and moves to Initializing;
   * without it, Empty makes exactly the one update of Add, stays in the
   * current phase and returns Add's error unwrapped.
   */
  lemma EmptyStepOutcome(s: ApiState, ps: PrometheusServer)
    ensures var (s', t) := EmptyStep(s, ps);
      && (Name in ps.finalizers ==> s' == s && t == Transition(Initializing, Pass))
      && (Name !in ps.finalizers ==>
            && t.phase == ps.phase
            && s' == AddFinalizer(s, ps).0
            && s'.calls == s.calls + [Call.Update(ps.(finalizers := ps.finalizers + [Name]))]
            && t.outcome == (if WriteRefusal(s, ps).Some? then Fail(WriteRefusal(s, ps).value) else Pass))
  {
  }

  /**
   * Initializing succeeds, and moves to WaitingCreation, exactly when no
   * enforcer fails; on failure it stays, keeps what was created before the
   * failing enforcer, and nothing but resources changes.
   */
  lemma InitializingStepOutcome(s: ApiState, builders: seq<string>, ps: PrometheusServer)
    ensures var (s', t) := InitializingStep(s, builders, ps);
      var k := FirstIn(s.failing, 0, |builders|);
      && (t.outcome == Pass <==> k == |builders|)
      && t.phase == (if k == |builders| then WaitingCreation else ps.phase)
      && s'.present == s.present + Range(0, k)
      && s'.objects == s.objects
  {
    CreationSummary(s, builders);
  }

  /**
   * WaitingCreation moves to Running exactly when every resource exists and
   * no check fails; it stays with an error when the first unsettled
   * enforcer's check fails, and stays quietly when that resource is missing.
   * It only records checks.
   */
  lemma WaitingCreationStepOutcome(s: ApiState, builders: seq<string>, ps: PrometheusServer)
    ensures var (s', t) := WaitingCreationStep(s, builders, ps);
      var n := |builders|;
      var k := FirstIn(Unsettled(s, n, true), 0, n);
      && ((forall j :: 0 <= j < n ==> j !in s.failing && j in s.present) ==> t == Transition(Running, Pass))
      && (!(forall j :: 0 <= j < n ==> j !in s.failing && j in s.present) ==> t.phase == ps.phase)
      && (k < n && k in s.failing ==> t.phase == ps.phase && t.outcome.Fail?)
      && (k < n && k !in s.failing ==> t == Transition(ps.phase, Pass))
      && s' == s.(calls := s'.calls)
  {
    ExistenceFromCharacterized(s, builders, true, 0);
    AllCreatedIff(s, builders);
  }

  class Creator {
    const finalizer: Finalizer
    const resource: Resource

    constructor (f: Finalizer, r: Resource)
      ensures finalizer == f && resource == r
    {
      finalizer := f;
      resource := r;
    }

    /** Both collaborators talk to the same cluster. */
    predicate Valid() {
      finalizer.api == resource.api
    }

    method Empty(ps: PrometheusServer) returns (newStatus: string, err: Outcome)
      requires Valid()
      modifies resource.api
      ensures (resource.api.State(), Transition(newStatus, err)) == EmptyStep(old(resource.api.State()), ps)
    {
      if !HasFinalizer(ps) {
        err := finalizer.Add(ps);
        return ps.phase, err;
      }
      return V1alpha1.Initializing, Pass;
    }

    method Initializing(ps: PrometheusServer) returns (newStatus: string, err: Outcome)
      modifies resource.api
      ensures (resource.api.State(), Transition(newStatus, err))
           == InitializingStep(old(resource.api.State()), resource.builders, ps)
    {
      err := resource.CreateAll(ps);
      if err.Fail? {
        return ps.phase, err;
      }
      return V1alpha1.WaitingCreation, Pass;
    }

    method WaitingCreation(ps: PrometheusServer) returns (newStatus: string, err: Outcome)
      modifies resource.api
      ensures (resource.api.State(), Transition(newStatus, err))
           == WaitingCreationStep(old(resource.api.State()), resource.builders, ps)
    {
      var ok;
      ok, err := resource.AllCreated();
      if err.Fail? {
        return ps.phase, err;
      }
      if !ok {
        return ps.phase, Pass;
      }
      return V1alpha1.Running, Pass;
    }
  }
}
