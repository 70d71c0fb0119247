/**
 * The resource manager: an ordered sequence of enforcers, one downstream
 * resource each, identified by its position. Creation runs in registration
 * order, deletion in reverse order, and both stop at the first failure
 * without rolling back; the existence scans stop at the first enforcer that
 * fails or disagrees.
 */
module Resources {
  import opened Outcomes
  import opened V1alpha1
  import opened Cluster

  /** The positions `lo .. hi-1`. */
  function Range(lo: int, hi: int): (r: set<nat>)
    ensures forall j: nat :: j in r <==> lo <= j < hi
    decreases hi - lo
  {
    if hi <= lo then {}
    else if lo < 0 then Range(0, hi)
    else {lo as nat} + Range(lo + 1, hi)
  }

  /** The first position in `lo .. hi-1` that is in `marked`, or `hi` if none is. */
  function FirstIn(marked: set<nat>, lo: nat, hi: nat): (k: nat)
    requires lo <= hi
    ensures lo <= k <= hi
    ensures k < hi ==> k in marked
    ensures forall j :: lo <= j < k ==> j !in marked
    decreases hi - lo
  {
    if lo == hi then hi
    else if lo in marked then lo
    else FirstIn(marked, lo + 1, hi)
  }

  /** The last position below `hi` that is in `marked`, or -1 if none is. */
  function LastIn(marked: set<nat>, hi: nat): (k: int)
    ensures -1 <= k < hi
    ensures k >= 0 ==> k in marked
    ensures forall j :: k < j < hi ==> j !in marked
  {
    if hi == 0 then -1
    else if hi - 1 in marked then hi - 1
    else LastIn(marked, hi - 1)
  }

  function CreationCalls(lo: nat, hi: nat): seq<Call>
    requires lo <= hi
  {
    seq(hi - lo, j requires 0 <= j < hi - lo => Call.EnsureCreation(lo + j))
  }

  /** Deletion calls from position `hi-1` down to `lo`. */
  function DeletionCalls(lo: nat, hi: nat): seq<Call>
    requires lo <= hi
  {
    seq(hi - lo, j requires 0 <= j < hi - lo => Call.EnsureDeletion(hi - 1 - j))
  }

  function CheckCalls(lo: nat, hi: nat): seq<Call>
    requires lo <= hi
  {
    seq(hi - lo, j requires 0 <= j < hi - lo => Call.IsCreated(lo + j))
  }

  // CreateAll, DeleteAll and allResourcesExist as functions of the cluster;
  // `names` holds each enforcer's Name().

  function CreationFrom(s: ApiState, names: seq<string>, i: nat): (ApiState, Outcome)
    requires i <= |names|
    decreases |names| - i
  {
    if i == |names| then (s, Pass)
    else
      var (s1, err) := EnsureCreated(s, i);
      if err.Fail? then (s1, Fail(Wrapped("unable to ensure creation on " + names[i], err.error)))
      else CreationFrom(s1, names, i + 1)
  }

  function Creation(s: ApiState, names: seq<string>): (ApiState, Outcome) {
    CreationFrom(s, names, 0)
  }

  /** Deletion of positions `i-1` down to 0; the source words its error as for creation. */
  function DeletionDown(s: ApiState, names: seq<string>, i: nat): (ApiState, Outcome)
    requires i <= |names|
    decreases i
  {
    if i == 0 then (s, Pass)
    else
      var (s1, err) := EnsureDeleted(s, i - 1);
      if err.Fail? then (s1, Fail(Wrapped("unable to ensure creation on " + names[i - 1], err.error)))
      else DeletionDown(s1, names, i - 1)
  }

  function Deletion(s: ApiState, names: seq<string>): (ApiState, Outcome) {
    DeletionDown(s, names, |names|)
  }

  function ExistenceFrom(s: ApiState, names: seq<string>, mustExist: bool, i: nat): (ApiState, Probe)
    requires i <= |names|
    decreases |names| - i
  {
    if i == |names| then (s, Probe(true, Pass))
    else
      var (s1, p) := CheckCreated(s, i);
      if p.outcome.Fail? then
        (s1, Probe(false, Fail(Wrapped("resource " + names[i] + " creation check", p.outcome.error))))
      else if mustExist != p.ok then (s1, Probe(false, Pass))
      else ExistenceFrom(s1, names, mustExist, i + 1)
  }

  function Existence(s: ApiState, names: seq<string>, mustExist: bool): (ApiState, Probe) {
    ExistenceFrom(s, names, mustExist, 0)
  }

  /** Positions whose check fails, or whose existence differs from `mustExist`. */
  function Unsettled(s: ApiState, n: nat, mustExist: bool): set<nat> {
    set j: nat | j < n && (j in s.failing || (j in s.present) != mustExist)
  }

  lemma CreationCallsStep(s: seq<Call>, i: nat, e: nat)
    requires i < e
    ensures s + [Call.EnsureCreation(i)] + CreationCalls(i + 1, e) == s + CreationCalls(i, e)
  {
    assert [Call.EnsureCreation(i)] + CreationCalls(i + 1, e) == CreationCalls(i, e);
  }

  lemma DeletionCallsStep(s: seq<Call>, lo: nat, i: nat)
    requires lo < i
    ensures s + [Call.EnsureDeletion(i - 1)] + DeletionCalls(lo, i - 1) == s + DeletionCalls(lo, i)
  {
    assert [Call.EnsureDeletion(i - 1)] + DeletionCalls(lo, i - 1) == DeletionCalls(lo, i);
  }

  lemma CheckCallsStep(s: seq<Call>, i: nat, e: nat)
    requires i < e
    ensures s + [Call.IsCreated(i)] + CheckCalls(i + 1, e) == s + CheckCalls(i, e)
  {
    assert [Call.IsCreated(i)] + CheckCalls(i + 1, e) == CheckCalls(i, e);
  }

  /**
   * Creation from position `i`: with `k` the first failing position, it
   * calls EnsureCreation on `i .. k` in order (the failing one included,
   * none after it), creates `i .. k-1` and keeps them on failure, and
   * reports the enforcer at `k` by name.
   */
  lemma {:induction false} CreationFromCharacterized(s: ApiState, names: seq<string>, i: nat)
    requires i <= |names|
    ensures var k := FirstIn(s.failing, i, |names|);
      CreationFrom(s, names, i) ==
        (s.(calls := s.calls + CreationCalls(i, if k < |names| then k + 1 else |names|),
            present := s.present + Range(i, k)),
         if k < |names| then Fail(Wrapped("unable to ensure creation on " + names[k], ApiFailure)) else Pass)
    decreases |names| - i
  {
    var n := |names|;
    var k := FirstIn(s.failing, i, n);
    if i == n {
      assert s.calls + CreationCalls(i, n) == s.calls;
      assert s.present + Range(i, k) == s.present;
    } else if i in s.failing {
      assert CreationCalls(i, i + 1) == [Call.EnsureCreation(i)];
      assert s.present + Range(i, k) == s.present;
    } else {
      var s1 := EnsureCreated(s, i).0;
      assert FirstIn(s1.failing, i + 1, n) == k;
      CreationFromCharacterized(s1, names, i + 1);
      CreationCallsStep(s.calls, i, if k < n then k + 1 else n);
      assert s1.present + Range(i + 1, k) == s.present + Range(i, k);
    }
  }

  /**
   * Deletion below position `i`: with `k` the last failing position (-1 if
   * none), it calls EnsureDeletion from `i-1` down to `k` (none below it),
   * removes `k+1 .. i-1` and keeps them removed on failure.
   */
  lemma {:induction false} DeletionDownCharacterized(s: ApiState, names: seq<string>, i: nat)
    requires i <= |names|
    ensures var k := LastIn(s.failing, i);
      DeletionDown(s, names, i) ==
        (s.(calls := s.calls + DeletionCalls(if k >= 0 then k else 0, i),
            present := s.present - Range(k + 1, i)),
         if k >= 0 then Fail(Wrapped("unable to ensure creation on " + names[k], ApiFailure)) else Pass)
    decreases i
  {
    var k := LastIn(s.failing, i);
    if i == 0 {
      assert s.calls + DeletionCalls(0, 0) == s.calls;
      assert s.present - Range(k + 1, i) == s.present;
    } else if i - 1 in s.failing {
      assert DeletionCalls(i - 1, i) == [Call.EnsureDeletion(i - 1)];
      assert s.present - Range(k + 1, i) == s.present;
    } else {
      var s1 := EnsureDeleted(s, i - 1).0;
      assert LastIn(s1.failing, i - 1) == k;
      DeletionDownCharacterized(s1, names, i - 1);
      DeletionCallsStep(s.calls, if k >= 0 then k else 0, i);
      assert s1.present - Range(k + 1, i - 1) == s.present - Range(k + 1, i);
    }
  }

  /**
   * DeleteAll in summary: it fails exactly when some enforcer fails, the
   * resources above the last failing one are gone, and nothing but the
   * call log and the existing resources changes.
   */
  lemma DeletionSummary(s: ApiState, names: seq<string>)
    ensures var (s', err) := Deletion(s, names);
      var k := LastIn(s.failing, |names|);
      && (err == Pass <==> k == -1)
      && (err.Fail? <==> k >= 0)
      && s'.present == s.present - Range(k + 1, |names|)
      && s' == s.(calls := s'.calls, present := s'.present)
  {
    DeletionDownCharacterized(s, names, |names|);
  }

  /**
   * CreateAll in summary: it fails exactly when some enforcer fails, the
   * resources before the first failing one exist, and nothing but the call
   * log and the existing resources changes.
   */
  lemma CreationSummary(s: ApiState, names: seq<string>)
    ensures var (s', err) := Creation(s, names);
      var k := FirstIn(s.failing, 0, |names|);
      && (err == Pass <==> k == |names|)
      && (err.Fail? <==> k < |names|)
      && s'.present == s.present + Range(0, k)
      && s' == s.(calls := s'.calls, present := s'.present)
  {
    CreationFromCharacterized(s, names, 0);
  }

  /**
   * The scan from position `i`: with `k` the first unsettled position, it
   * calls IsCreated on `i .. k` in order and nothing else changes; it
   * answers true only when no position is unsettled, an error when the
   * check at `k` failed, and a plain false when `k` disagrees.
   */
  lemma {:induction false} ExistenceFromCharacterized(s: ApiState, names: seq<string>, mustExist: bool, i: nat)
    requires i <= |names|
    ensures var k := FirstIn(Unsettled(s, |names|, mustExist), i, |names|);
      ExistenceFrom(s, names, mustExist, i) ==
        (s.(calls := s.calls + CheckCalls(i, if k < |names| then k + 1 else |names|)),
         if k == |names| then Probe(true, Pass)
         else if k in s.failing then Probe(false, Fail(Wrapped("resource " + names[k] + " creation check", ApiFailure)))
         else Probe(false, Pass))
    decreases |names| - i
  {
    var n := |names|;
    var u := Unsettled(s, n, mustExist);
    var k := FirstIn(u, i, n);
    if i == n {
      assert s.calls + CheckCalls(i, n) == s.calls;
    } else if i in u {
      assert CheckCalls(i, i + 1) == [Call.IsCreated(i)];
    } else {
      var s1 := CheckCreated(s, i).0;
      assert Unsettled(s1, n, mustExist) == u;
      assert FirstIn(u, i + 1, n) == k;
      ExistenceFromCharacterized(s1, names, mustExist, i + 1);
      CheckCallsStep(s.calls, i, if k < n then k + 1 else n);
    }
  }

  /** AllCreated is (true, nil) exactly when every check succeeds and finds its resource. */
  lemma AllCreatedIff(s: ApiState, names: seq<string>)
    ensures Existence(s, names, true).1 == Probe(true, Pass)
        <==> forall j :: 0 <= j < |names| ==> j !in s.failing && j in s.present
    ensures Existence(s, names, true).1.ok ==> Existence(s, names, true).1.outcome == Pass
  {
    ExistenceFromCharacterized(s, names, true, 0);
    var u := Unsettled(s, |names|, true);
    var k := FirstIn(u, 0, |names|);
    if k < |names| {
      assert k in u;
    } else {
      forall j | 0 <= j < |names| ensures j !in s.failing && (j in s.present) == true {
        assert j !in u;
      }
    }
  }

  /** AllRemoved is (true, nil) exactly when every check succeeds and finds nothing. */
  lemma AllRemovedIff(s: ApiState, names: seq<string>)
    ensures Existence(s, names, false).1 == Probe(true, Pass)
        <==> forall j :: 0 <= j < |names| ==> j !in s.failing && j !in s.present
    ensures Existence(s, names, false).1.ok ==> Existence(s, names, false).1.outcome == Pass
  {
    ExistenceFromCharacterized(s, names, false, 0);
    var u := Unsettled(s, |names|, false);
    var k := FirstIn(u, 0, |names|);
    if k < |names| {
      assert k in u;
    } else {
      forall j | 0 <= j < |names| ensures j !in s.failing && (j in s.present) == false {
        assert j !in u;
      }
    }
  }

  /** With every enforcer healthy, creation makes all resources exist and AllCreated then holds. */
  lemma CreationThenAllCreated(s: ApiState, names: seq<string>)
    requires forall j :: 0 <= j < |names| ==> j !in s.failing
    ensures Creation(s, names).1 == Pass
    ensures Existence(Creation(s, names).0, names, true).1 == Probe(true, Pass)
  {
    CreationFromCharacterized(s, names, 0);
    AllCreatedIff(Creation(s, names).0, names);
  }

  /** With every enforcer healthy, deletion removes all resources and AllRemoved then holds. */
  lemma DeletionThenAllRemoved(s: ApiState, names: seq<string>)
    requires forall j :: 0 <= j < |names| ==> j !in s.failing
    ensures Deletion(s, names).1 == Pass
    ensures Existence(Deletion(s, names).0, names, false).1 == Probe(true, Pass)
  {
    DeletionDownCharacterized(s, names, |names|);
    AllRemovedIff(Deletion(s, names).0, names);
  }

  class Resource {
    const api: ApiServer
    const builders: seq<string>

    constructor (api: ApiServer, builders: seq<string>)
      ensures this.api == api && this.builders == builders
    {
      this.api := api;
      this.builders := builders;
    }

    method AllCreated() returns (ok: bool, err: Outcome)
      modifies api
      ensures (api.State(), Probe(ok, err)) == Existence(old(api.State()), builders, true)
    {
      ok, err := AllResourcesExist(true);
    }

    method AllRemoved() returns (ok: bool, err: Outcome)
      modifies api
      ensures (api.State(), Probe(ok, err)) == Existence(old(api.State()), builders, false)
    {
      ok, err := AllResourcesExist(false);
    }

    /** `ps` is what the enforcers build their payloads from; the payloads are not modelled. */
    method CreateAll(ps: PrometheusServer) returns (err: Outcome)
      modifies api
      ensures (api.State(), err) == Creation(old(api.State()), builders)
    {
      var i := 0;
      while i < |builders|
        invariant 0 <= i <= |builders|
        invariant CreationFrom(api.State(), builders, i) == Creation(old(api.State()), builders)
      {
        err := api.EnsureCreation(i);
        if err.Fail? {
          return Fail(Wrapped("unable to ensure creation on " + builders[i], err.error));
        }
        i := i + 1;
      }
      return Pass;
    }

    method DeleteAll(ps: PrometheusServer) returns (err: Outcome)
      modifies api
      ensures (api.State(), err) == Deletion(old(api.State()), builders)
    {
      var i := |builders| - 1;
      while i >= 0
        invariant -1 <= i < |builders|
        invariant DeletionDown(api.State(), builders, i + 1) == Deletion(old(api.State()), builders)
      {
        err := api.EnsureDeletion(i);
        if err.Fail? {
          return Fail(Wrapped("unable to ensure creation on " + builders[i], err.error));
        }
        i := i - 1;
      }
      return Pass;
    }

    method AllResourcesExist(mustExist: bool) returns (ok: bool, err: Outcome)
      modifies api
      ensures (api.State(), Probe(ok, err)) == Existence(old(api.State()), builders, mustExist)
    {
      var i := 0;
      while i < |builders|
        invariant 0 <= i <= |builders|
        invariant ExistenceFrom(api.State(), builders, mustExist, i) == Existence(old(api.State()), builders, mustExist)
      {
        var found;
        found, err := api.IsCreated(i);
        if err.Fail? {
          return false, Fail(Wrapped("resource " + builders[i] + " creation check", err.error));
        }
        if mustExist != found {
          return false, Pass;
        }
        i := i + 1;
      }
      return true, Pass;
    }
  }
}
