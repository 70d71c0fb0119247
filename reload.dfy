/**
 * The reload use case: the handlers for the Running, Reloading and
 * WaitingRemoval phases. A generation change seen while Running tears the
 * downstream resources down and sends the object back to Initializing.
 */
module ReloadUseCase {
  import opened Outcomes
  import opened V1alpha1
  import opened Cluster
  import opened Resources
  import opened Generation

  /** Running: the phase to report, given the generation recorded for the object (0 when none is). */
  function RunningNext(cached: int, ps: PrometheusServer): string {
    if cached == ps.generation || cached == 0 then ps.phase else Reloading
  }

  /** Reloading: delete every downstream resource, then wait for them to go. */
  function ReloadingStep(s: ApiState, builders: seq<string>, ps: PrometheusServer): (ApiState, Transition) {
    var (s', err) := Deletion(s, builders);
    if err.Fail? then (s', Transition(ps.phase, err))
    else (s', Transition(WaitingRemoval, Pass))
  }

  /** WaitingRemoval: back to Initializing once no resource exists. */
  function WaitingRemovalStep(s: ApiState, builders: seq<string>, ps: PrometheusServer): (ApiState, Transition) {
    var (s', p) := Existence(s, builders, false);
    if p.outcome.Fail? then (s', Transition(ps.phase, p.outcome))
    else if !p.ok then (s', Transition(ps.phase, Pass))
    else (s', Transition(Initializing, Pass))
  }

  /**
   * Running stays while nothing is recorded or the recorded generation is
   * the object's, and asks for a reload on any other recorded generation,
   * older or newer.
   */
  lemma RunningNextStaysOrReloads(cached: int, ps: PrometheusServer)
    ensures RunningNext(cached, ps) == ps.phase || RunningNext(cached, ps) == Reloading
    ensures cached == 0 ==> RunningNext(cached, ps) == ps.phase
    ensures cached == ps.generation ==> RunningNext(cached, ps) == ps.phase
    ensures cached != 0 && cached != ps.generation ==> RunningNext(cached, ps) == Reloading
  {
  }

  /**
   * Reloading succeeds, and moves to WaitingRemoval, exactly when no
   * enforcer fails; deletion goes from the last enforcer down to the last
   * failing one, and what was removed above it stays removed.
   */
  lemma ReloadingStepOutcome(s: ApiState, builders: seq<string>, ps: PrometheusServer)
    ensures var (s', t) := ReloadingStep(s, builders, ps);
      var k := LastIn(s.failing, |builders|);
      && (t.outcome == Pass <==> k == -1)
      && t.phase == (if k == -1 then WaitingRemoval else ps.phase)
      && s'.present == s.present - Range(k + 1, |builders|)
      && s'.objects == s.objects
  {
    DeletionSummary(s, builders);
  }

  /**
   * WaitingRemoval moves to Initializing when no resource exists and no
   * check fails; otherwise it stays, with an error exactly when the first
   * unsettled enforcer's check failed. It only records checks.
   */
  lemma WaitingRemovalStepOutcome(s: ApiState, builders: seq<string>, ps: PrometheusServer)
    ensures var (s', t) := WaitingRemovalStep(s, builders, ps);
      var n := |builders|;
      var k := FirstIn(Unsettled(s, n, false), 0, n);
      && ((forall j :: 0 <= j < n ==> j !in s.failing && j !in s.present) ==> t == Transition(Initializing, Pass))
      && (!(forall j :: 0 <= j < n ==> j !in s.failing && j !in s.present) ==> t.phase == ps.phase)
      && (k < n && k in s.failing ==> t.outcome.Fail?)
      && (k < n && k !in s.failing ==> t == Transition(ps.phase, Pass))
      && s' == s.(calls := s'.calls)
  {
    ExistenceFromCharacterized(s, builders, false, 0);
    AllRemovedIff(s, builders);
  }

  class Reloader {
    const generation: GenerationCache
    const resource: Resource

    constructor (c: GenerationCache, r: Resource)
      ensures generation == c && resource == r
    {
      generation := c;
      resource := r;
    }

    /** Reads the cache only: no error, no call on the cluster. */
    method Running(ps: PrometheusServer) returns (newStatus: string, err: Outcome)
      ensures newStatus == RunningNext(generation.Get(ps.namespace, ps.name), ps)
      ensures err == Pass
    {
      var g := generation.Get(ps.namespace, ps.name);
      if g == ps.generation || g == 0 {
        return ps.phase, Pass;
      }
      return V1alpha1.Reloading, Pass;
    }

    method Reloading(ps: PrometheusServer) returns (newStatus: string, err: Outcome)
      modifies resource.api
      ensures (resource.api.State(), Transition(newStatus, err))
           == ReloadingStep(old(resource.api.State()), resource.builders, ps)
    {
      err := resource.DeleteAll(ps);
      if err.Fail? {
        return ps.phase, err;
      }
      return V1alpha1.WaitingRemoval, Pass;
    }

    method WaitingRemoval(ps: PrometheusServer) returns (newStatus: string, err: Outcome)
      modifies resource.api
      ensures (resource.api.State(), Transition(newStatus, err))
           == WaitingRemovalStep(old(resource.api.State()), resource.builders, ps)
    {
      var ok;
      ok, err := resource.AllRemoved();
      if err.Fail? {
        return ps.phase, err;
      }
      if !ok {
        return ps.phase, Pass;
      }
      return V1alpha1.Initializing, Pass;
    }
  }
}
