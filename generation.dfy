/**
 * The generation cache: the last generation the reconciler saw per
 * PrometheusServer, under the slot key "namespace/name". An absent key
 * reads as 0.
 */
module Generation {
  import opened Keys

  /** `Get` on a plain map: the stored value, or 0 when the key is absent. */
  function Lookup(m: map<string, int>, namespace: string, name: string): int {
    var k := SlotKey(namespace, name);
    if k in m then m[k] else 0
  }

  /** A key never written reads as 0. */
  lemma LookupEmpty(namespace: string, name: string)
    ensures Lookup(map[], namespace, name) == 0
  {
  }

  /** After a write, the written pair reads back the value written, and the last write wins. */
  lemma LookupAfterSet(m: map<string, int>, namespace: string, name: string, v: int, w: int)
    ensures Lookup(m[SlotKey(namespace, name) := v], namespace, name) == v
    ensures m[SlotKey(namespace, name) := w][SlotKey(namespace, name) := v]
         == m[SlotKey(namespace, name) := v]
  {
  }

  /** After a removal, the removed pair reads as 0; removing an absent key changes nothing. */
  lemma LookupAfterRemove(m: map<string, int>, namespace: string, name: string)
    ensures Lookup(m - {SlotKey(namespace, name)}, namespace, name) == 0
    ensures SlotKey(namespace, name) !in m ==> m - {SlotKey(namespace, name)} == m
  {
  }

  /**
   * Writing or removing one pair leaves every other pair unchanged, as
   * long as namespaces hold no '/' (otherwise "a/b" + "/" + "c" and
   * "a" + "/" + "b/c" share a slot).
   */
  lemma {:induction false} LookupOtherUnchanged(m: map<string, int>, namespace: string, name: string, v: int,
                                                ns2: string, n2: string)
    requires '/' !in namespace && '/' !in ns2
    requires (namespace, name) != (ns2, n2)
    ensures Lookup(m[SlotKey(namespace, name) := v], ns2, n2) == Lookup(m, ns2, n2)
    ensures Lookup(m - {SlotKey(namespace, name)}, ns2, n2) == Lookup(m, ns2, n2)
  {
    if SlotKey(namespace, name) == SlotKey(ns2, n2) {
      SlotKeyInjective(namespace, name, ns2, n2);
      assert false;
    }
  }

  /** Two pairs that share a slot: the '/' in a namespace aliases them. */
  lemma SlotAliasing()
    ensures SlotKey("a/b", "c") == SlotKey("a", "b/c")
    ensures Lookup(map[SlotKey("a/b", "c") := 7], "a", "b/c") == 7
  {
  }

  class GenerationCache {
    var generation: map<string, int>

    constructor ()
      ensures generation == map[]
    {
      generation := map[];
    }

    function Get(namespace: string, name: string): int
      reads this
    {
      Lookup(generation, namespace, name)
    }

    method Set(namespace: string, name: string, v: int)
      modifies this
      ensures generation == old(generation)[SlotKey(namespace, name) := v]
      ensures Get(namespace, name) == v
    {
      generation := generation[SlotKey(namespace, name) := v];
    }

    method Remove(namespace: string, name: string)
      modifies this
      ensures generation == old(generation) - {SlotKey(namespace, name)}
      ensures Get(namespace, name) == 0
    {
      generation := generation - {SlotKey(namespace, name)};
    }
  }
}
