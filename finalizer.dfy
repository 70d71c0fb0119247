/**
 * The guard finalizer: membership test, and the store writes that add and
 * remove the token `V1alpha1.Name` on a PrometheusServer.
 */
module Finalizers {
  import opened Outcomes
  import opened V1alpha1
  import opened Cluster

  /** Scans the list for the guard token. */
  function Contains(fs: seq<string>): (r: bool)
    ensures r <==> Name in fs
  {
    if |fs| == 0 then false
    else if fs[0] == Name then true
    else Contains(fs[1..])
  }

  function HasFinalizer(ps: PrometheusServer): bool {
    Contains(ps.finalizers)
  }

  /** The list with every occurrence of the guard token dropped. */
  function Without(fs: seq<string>): seq<string> {
    if |fs| == 0 then []
    else Without(fs[..|fs| - 1]) + (if fs[|fs| - 1] == Name then [] else [fs[|fs| - 1]])
  }

  lemma {:induction false} WithoutAppend(a: seq<string>, b: seq<string>)
    ensures Without(a + b) == Without(a) + Without(b)
    decreases |b|
  {
    if |b| == 0 {
      assert a + b == a;
    } else {
      var b' := b[..|b| - 1];
      assert (a + b)[..|a + b| - 1] == a + b';
      WithoutAppend(a, b');
    }
  }

  /** Every occurrence of the token goes, and every other entry stays as often as it was. */
  lemma {:induction false} WithoutCounts(fs: seq<string>)
    ensures multiset(Without(fs)) == multiset(fs)[Name := 0]
  {
    if |fs| > 0 {
      var init := fs[..|fs| - 1];
      WithoutCounts(init);
      assert fs == init + [fs[|fs| - 1]];
    }
  }

  lemma DropsToken(fs: seq<string>)
    ensures Name !in Without(fs)
    ensures forall f :: f != Name ==> (f in Without(fs) <==> f in fs)
  {
    WithoutCounts(fs);
    assert Name !in multiset(Without(fs));
    forall f | f != Name
      ensures f in Without(fs) <==> f in fs
    {
      assert f in multiset(Without(fs)) <==> f in multiset(fs);
    }
  }

  /** The remaining entries keep their relative order: the result is the list itself when the token is absent. */
  lemma {:induction false} WithoutAbsent(fs: seq<string>)
    requires Name !in fs
    ensures Without(fs) == fs
  {
    if |fs| > 0 {
      WithoutAbsent(fs[..|fs| - 1]);
      assert fs == fs[..|fs| - 1] + [fs[|fs| - 1]];
    }
  }

  lemma WithoutIdempotent(fs: seq<string>)
    ensures Without(Without(fs)) == Without(fs)
  {
    DropsToken(fs);
    WithoutAbsent(Without(fs));
  }

  /** The filtering loop of `Remove`. */
  method FilterOut(fs: seq<string>) returns (kept: seq<string>)
    ensures kept == Without(fs)
  {
    kept := [];
    var i := 0;
    while i < |fs|
      invariant 0 <= i <= |fs|
      invariant kept == Without(fs[..i])
    {
      assert fs[..i + 1][..i] == fs[..i];
      if fs[i] != Name {
        kept := kept + [fs[i]];
      }
      i := i + 1;
    }
    assert fs[..|fs|] == fs;
  }

  // The store side of Add, Remove and Ensure.

  function AddFinalizer(s: ApiState, ps: PrometheusServer): (ApiState, Outcome) {
    PutObject(s, ps.(finalizers := ps.finalizers + [Name]))
  }

  function RemoveFinalizer(s: ApiState, ps: PrometheusServer): (ApiState, Outcome) {
    PutObject(s, ps.(finalizers := Without(ps.finalizers)))
  }

  function EnsureFinalizer(s: ApiState, ps: PrometheusServer): (ApiState, Outcome) {
    if HasFinalizer(ps) then (s, Pass)
    else
      var (s', err) := AddFinalizer(s, ps);
      (s', Wrap("unable to add finalizer", err))
  }

  /**
   * Add sends one update, of a copy whose list is the old one with the
   * token appended (twice present if it already was), fails exactly when
   * the store refuses (the object is gone, or the write conflicts), with
   * that refusal, and on success the stored object carries the token.
   */
  lemma AddFinalizerSends(s: ApiState, ps: PrometheusServer)
    ensures var (s', err) := AddFinalizer(s, ps);
      && |s'.calls| == |s.calls| + 1 && s'.calls[..|s.calls|] == s.calls
      && s'.calls[|s.calls|].Update?
      && s'.calls[|s.calls|].obj == ps.(finalizers := ps.finalizers + [Name])
      && multiset(s'.calls[|s.calls|].obj.finalizers)[Name] == multiset(ps.finalizers)[Name] + 1
      && (err.Fail? <==> WriteRefusal(s, ps).Some?)
      && (err.Fail? ==> err.error == WriteRefusal(s, ps).value && s'.objects == s.objects)
      && (WriteRefusal(s, ps).None? ==> ObjectKey(ps) in s'.objects && HasFinalizer(s'.objects[ObjectKey(ps)]))
      && s'.present == s.present
  {
  }

  /**
   * Remove always sends exactly one update, even when the token is absent;
   * the sent list has no token and every other entry, and on success the
   * stored object no longer carries the token.
   */
  lemma RemoveFinalizerSends(s: ApiState, ps: PrometheusServer)
    ensures var (s', err) := RemoveFinalizer(s, ps);
      && |s'.calls| == |s.calls| + 1 && s'.calls[..|s.calls|] == s.calls
      && s'.calls[|s.calls|].Update?
      && var sent := s'.calls[|s.calls|].obj;
      && sent == ps.(finalizers := sent.finalizers)
      && !HasFinalizer(sent)
      && multiset(sent.finalizers) == multiset(ps.finalizers)[Name := 0]
      && (err.Fail? <==> WriteRefusal(s, ps).Some?)
      && (err.Fail? ==> err.error == WriteRefusal(s, ps).value && s'.objects == s.objects)
      && (WriteRefusal(s, ps).None? && ObjectKey(ps) in s'.objects ==> !HasFinalizer(s'.objects[ObjectKey(ps)]))
      && s'.present == s.present
  {
    DropsToken(ps.finalizers);
    WithoutCounts(ps.finalizers);
  }

  /**
   * Ensure writes nothing when the token is present; otherwise it is Add,
   * with Add's error wrapped.
   */
  lemma EnsureFinalizerAddsOnce(s: ApiState, ps: PrometheusServer)
    ensures var (s', err) := EnsureFinalizer(s, ps);
      && (Name in ps.finalizers ==> s' == s && err == Pass)
      && (Name !in ps.finalizers ==>
            s' == AddFinalizer(s, ps).0
            && |s'.calls| == |s.calls| + 1
            && (err.Fail? <==> WriteRefusal(s, ps).Some?)
            && (err.Fail? ==> err.error == Wrapped("unable to add finalizer", WriteRefusal(s, ps).value)))
  {
  }

  class Finalizer {
    const api: ApiServer

    constructor (api: ApiServer)
      ensures this.api == api
    {
      this.api := api;
    }

    method Ensure(ps: PrometheusServer) returns (err: Outcome)
      modifies api
      ensures (api.State(), err) == EnsureFinalizer(old(api.State()), ps)
    {
      if HasFinalizer(ps) {
        return Pass;
      }
      err := Add(ps);
      if err.Fail? {
        return Fail(Wrapped("unable to add finalizer", err.error));
      }
      return Pass;
    }

    /** Works on a copy: `ps` itself is a value and stays as it was. */
    method Add(ps: PrometheusServer) returns (err: Outcome)
      modifies api
      ensures (api.State(), err) == AddFinalizer(old(api.State()), ps)
    {
      var p := ps.(finalizers := ps.finalizers + [Name]);
      err := api.Update(p);
    }

    method Remove(ps: PrometheusServer) returns (err: Outcome)
      modifies api
      ensures (api.State(), err) == RemoveFinalizer(old(api.State()), ps)
    {
      var newFinalizers := FilterOut(ps.finalizers);
      var p := ps.(finalizers := newFinalizers);
      err := api.Update(p);
    }
  }
}
