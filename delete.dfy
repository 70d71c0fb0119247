/**
 * The deletion use case: the Terminating handler, which removes every
 * downstream resource and then releases the guard finalizer.
 */
module DeleteUseCase {
  import opened Outcomes
  import opened V1alpha1
  import opened Cluster
  import opened Finalizers
  import opened Resources

  function TerminatingStep(s: ApiState, builders: seq<string>, ps: PrometheusServer): (ApiState, Transition) {
    var (s1, err) := Deletion(s, builders);
    if err.Fail? then (s1, Transition(ps.phase, err))
    else if !HasFinalizer(ps) then (s1, Transition(Terminated, Pass))
    else
      var (s2, err2) := RemoveFinalizer(s1, ps);
      if err2.Fail? then (s2, Transition(ps.phase, Wrap("unable to removing finalizer", err2)))
      else (s2, Transition(Terminated, Pass))
  }

  /**
   * Terminating: a failed deletion stays in the current phase and touches
   * no PrometheusServer; a successful one reaches Terminated directly when
   * the token is absent, and otherwise through exactly one update that
   * drops the token, staying with a wrapped error when the store refuses it.
   */
  lemma TerminatingStepOutcome(s: ApiState, builders: seq<string>, ps: PrometheusServer)
    ensures var (s', t) := TerminatingStep(s, builders, ps);
      var k := LastIn(s.failing, |builders|);
      var (sd, _) := Deletion(s, builders);
      && s'.present == s.present - Range(k + 1, |builders|)
      && (k >= 0 ==> s' == sd && s'.objects == s.objects && t.phase == ps.phase && t.outcome.Fail?)
      && (k == -1 && Name !in ps.finalizers ==> s' == sd && s'.objects == s.objects && t == Transition(Terminated, Pass))
      && (k == -1 && Name in ps.finalizers ==>
            && s'.calls == sd.calls + [Call.Update(ps.(finalizers := Without(ps.finalizers)))]
            && (WriteRefusal(s, ps).Some? ==>
                  && t == Transition(ps.phase, Fail(Wrapped("unable to removing finalizer", WriteRefusal(s, ps).value)))
                  && s'.objects == s.objects)
            && (WriteRefusal(s, ps).None? ==> t == Transition(Terminated, Pass)))
  {
    DeletionSummary(s, builders);
    var (sd, _) := Deletion(s, builders);
    assert WriteRefusal(sd, ps) == WriteRefusal(s, ps);
  }

  class Deleter {
    const finalizer: Finalizer
    const resource: Resource

    constructor (f: Finalizer, r: Resource)
      ensures finalizer == f && resource == r
    {
      finalizer := f;
      resource := r;
    }

    /** Both collaborators talk to the same cluster. */
    predicate Valid() {
      finalizer.api == resource.api
    }

    method Terminating(ps: PrometheusServer) returns (newStatus: string, err: Outcome)
      requires Valid()
      modifies resource.api
      ensures (resource.api.State(), Transition(newStatus, err))
           == TerminatingStep(old(resource.api.State()), resource.builders, ps)
    {
      err := resource.DeleteAll(ps);
      if err.Fail? {
        return ps.phase, err;
      }
      if !HasFinalizer(ps) {
        return Terminated, Pass;
      }
      err := finalizer.Remove(ps);
      if err.Fail? {
        return ps.phase, Fail(Wrapped("unable to removing finalizer", err.error));
      }
      return Terminated, Pass;
    }
  }
}
