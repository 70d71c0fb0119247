/**
 * The cluster the reconciler talks to, as one external system: the stored
 * PrometheusServer objects, the downstream resources (one per enforcer
 * position), which calls fail, and the ordered log of every call made.
 *
 * The enforcer behaviour follows the uniform contract of the concrete
 * enforcers: creation happens only when the lister reports the resource
 * missing, a missing resource counts as deleted, and a missing resource
 * reads as not created. The lister is taken to agree with the API server.
 */
module Cluster {
  import opened Outcomes
  import opened V1alpha1
  import Keys

  /** One call on the cluster, in the order it was made. */
  datatype Call =
    | Update(obj: PrometheusServer)        // write of a PrometheusServer
    | UpdateStatus(obj: PrometheusServer)  // write of its status subresource
    | EnsureCreation(slot: nat)            // enforcer `slot`: create if missing
    | EnsureDeletion(slot: nat)            // enforcer `slot`: delete if present
    | IsCreated(slot: nat)                 // enforcer `slot`: existence check

  /** A snapshot of the cluster. */
  datatype ApiState = ApiState(
    objects: map<string, PrometheusServer>, // stored objects by reconciliation key
    present: set<nat>,                      // downstream resources that exist, by enforcer position
    rejecting: bool,                        // writes to PrometheusServers fail (e.g. conflicts)
    failing: set<nat>,                      // enforcer positions whose calls fail
    calls: seq<Call>)

  function ObjectKey(p: PrometheusServer): string {
    Keys.MetaNamespaceKey(p.namespace, p.name)
  }

  /**
   * The stored objects after `p` is written: once an object marked for
   * deletion has no finalizer left, the store removes it.
   */
  function Stored(objects: map<string, PrometheusServer>, p: PrometheusServer): map<string, PrometheusServer> {
    if p.deletionMarked && p.finalizers == [] then objects - {ObjectKey(p)}
    else objects[ObjectKey(p) := p]
  }

  /**
   * Why the store refuses a write of `p`, if it does: an object it no
   * longer holds is not found, and a rejected write is a conflict.
   */
  function WriteRefusal(s: ApiState, p: PrometheusServer): Option<Error> {
    if ObjectKey(p) !in s.objects then Some(NotFound(ObjectKey(p)))
    else if s.rejecting then Some(Conflict)
    else None
  }

  function PutObject(s: ApiState, p: PrometheusServer): (ApiState, Outcome) {
    var s1 := s.(calls := s.calls + [Update(p)]);
    match WriteRefusal(s, p)
    case Some(e) => (s1, Fail(e))
    case None => (s1.(objects := Stored(s.objects, p)), Pass)
  }

  function PutStatus(s: ApiState, p: PrometheusServer): (ApiState, Outcome) {
    var s1 := s.(calls := s.calls + [UpdateStatus(p)]);
    match WriteRefusal(s, p)
    case Some(e) => (s1, Fail(e))
    case None => (s1.(objects := Stored(s.objects, p)), Pass)
  }

  /** A write never creates an object: one the store does not hold is refused and nothing is stored. */
  lemma WriteNeverRecreates(s: ApiState, p: PrometheusServer)
    requires ObjectKey(p) !in s.objects
    ensures PutObject(s, p).0.objects == s.objects && PutObject(s, p).1 == Fail(NotFound(ObjectKey(p)))
    ensures PutStatus(s, p).0.objects == s.objects && PutStatus(s, p).1 == Fail(NotFound(ObjectKey(p)))
  {
  }

  function EnsureCreated(s: ApiState, slot: nat): (ApiState, Outcome) {
    var s1 := s.(calls := s.calls + [EnsureCreation(slot)]);
    if slot in s.failing then (s1, Fail(ApiFailure)) else (s1.(present := s.present + {slot}), Pass)
  }

  function EnsureDeleted(s: ApiState, slot: nat): (ApiState, Outcome) {
    var s1 := s.(calls := s.calls + [EnsureDeletion(slot)]);
    if slot in s.failing then (s1, Fail(ApiFailure)) else (s1.(present := s.present - {slot}), Pass)
  }

  function CheckCreated(s: ApiState, slot: nat): (ApiState, Probe) {
    var s1 := s.(calls := s.calls + [IsCreated(slot)]);
    if slot in s.failing then (s1, Probe(false, Fail(ApiFailure))) else (s1, Probe(slot in s.present, Pass))
  }

  class ApiServer {
    var objects: map<string, PrometheusServer>
    var present: set<nat>
    var rejecting: bool
    var failing: set<nat>
    var calls: seq<Call>

    ghost function State(): ApiState
      reads this
    {
      ApiState(objects, present, rejecting, failing, calls)
    }

    constructor (objects: map<string, PrometheusServer>, present: set<nat>, rejecting: bool, failing: set<nat>)
      ensures State() == ApiState(objects, present, rejecting, failing, [])
    {
      this.objects := objects;
      this.present := present;
      this.rejecting := rejecting;
      this.failing := failing;
      this.calls := [];
    }

    method Update(p: PrometheusServer) returns (err: Outcome)
      modifies this
      ensures (State(), err) == PutObject(old(State()), p)
    {
      calls := calls + [Call.Update(p)];
      if ObjectKey(p) !in objects {
        return Fail(NotFound(ObjectKey(p)));
      }
      if rejecting {
        return Fail(Conflict);
      }
      objects := Stored(objects, p);
      return Pass;
    }

    method UpdateStatus(p: PrometheusServer) returns (err: Outcome)
      modifies this
      ensures (State(), err) == PutStatus(old(State()), p)
    {
      calls := calls + [Call.UpdateStatus(p)];
      if ObjectKey(p) !in objects {
        return Fail(NotFound(ObjectKey(p)));
      }
      if rejecting {
        return Fail(Conflict);
      }
      objects := Stored(objects, p);
      return Pass;
    }

    method EnsureCreation(slot: nat) returns (err: Outcome)
      modifies this
      ensures (State(), err) == EnsureCreated(old(State()), slot)
    {
      calls := calls + [Call.EnsureCreation(slot)];
      if slot in failing {
        return Fail(ApiFailure);
      }
      if slot !in present {
        present := present + {slot};
      } else {
        assert present + {slot} == present;
      }
      return Pass;
    }

    method EnsureDeletion(slot: nat) returns (err: Outcome)
      modifies this
      ensures (State(), err) == EnsureDeleted(old(State()), slot)
    {
      calls := calls + [Call.EnsureDeletion(slot)];
      if slot in failing {
        return Fail(ApiFailure);
      }
      present := present - {slot};
      return Pass;
    }

    method IsCreated(slot: nat) returns (ok: bool, err: Outcome)
      modifies this
      ensures (State(), Probe(ok, err)) == CheckCreated(old(State()), slot)
    {
      calls := calls + [Call.IsCreated(slot)];
      if slot in failing {
        return false, Fail(ApiFailure);
      }
      return slot in present, Pass;
    }
  }
}
