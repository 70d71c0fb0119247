/**
 * The string keys the controller works with: the "namespace/name" slot of
 * the generation cache and the lister, and client-go's meta-namespace
 * reconciliation key with its splitting function.
 */
module Keys {
  import opened Outcomes

  /** `fmt.Sprintf("%s/%s", namespace, name)`: generation cache slot and lister lookup key. */
  function SlotKey(namespace: string, name: string): string {
    namespace + "/" + name
  }

  /** client-go's MetaNamespaceKeyFunc: the name alone for a cluster-scoped object. */
  function MetaNamespaceKey(namespace: string, name: string): string {
    if namespace != "" then namespace + "/" + name else name
  }

  /** The first index at or after `from` holding '/', or `|s|` if there is none. */
  function IndexOfSlash(s: string, from: nat): (i: nat)
    requires from <= |s|
    ensures from <= i <= |s|
    ensures i < |s| ==> s[i] == '/'
    ensures forall k :: from <= k < i ==> s[k] != '/'
    decreases |s| - from
  {
    if from == |s| then |s|
    else if s[from] == '/' then from
    else IndexOfSlash(s, from + 1)
  }

  /** The inverse of Split: the parts joined with '/'. */
  function Join(parts: seq<string>): string
    requires |parts| >= 1
  {
    if |parts| == 1 then parts[0] else parts[0] + "/" + Join(parts[1..])
  }

  /** `strings.Split(s, "/")`. */
  function Split(s: string): (parts: seq<string>)
    ensures |parts| >= 1
    ensures Join(parts) == s
    ensures forall k :: 0 <= k < |parts| ==> '/' !in parts[k]
    decreases |s|
  {
    var i := IndexOfSlash(s, 0);
    if i == |s| then
      [s]
    else
      var rest := Split(s[i + 1..]);
      assert s == s[..i] + "/" + s[i + 1..];
      [s[..i]] + rest
  }

  /** client-go's SplitMetaNamespaceKey: one part is a name, two are namespace and name. */
  function SplitMetaNamespaceKey(key: string): Option<(string, string)> {
    var parts := Split(key);
    if |parts| == 1 then Some(("", parts[0]))
    else if |parts| == 2 then Some((parts[0], parts[1]))
    else None
  }

  /** Splitting a '/'-free list of parts joined with '/' gives the parts back. */
  lemma {:induction false} SplitJoin(parts: seq<string>)
    requires |parts| >= 1
    requires forall k :: 0 <= k < |parts| ==> '/' !in parts[k]
    ensures Split(Join(parts)) == parts
  {
    var s := Join(parts);
    if |parts| == 1 {
      assert forall k :: 0 <= k < |s| ==> s[k] != '/';
    } else {
      var head := parts[0];
      var tail := Join(parts[1..]);
      assert s == head + "/" + tail;
      assert forall k :: 0 <= k < |head| ==> s[k] != '/';
      assert s[|head|] == '/';
      assert IndexOfSlash(s, 0) == |head|;
      assert s[|head| + 1..] == tail;
      assert s[..|head|] == head;
      SplitJoin(parts[1..]);
    }
  }

  /**
   * The reconciliation key of an object whose namespace and name hold no '/'
   * splits back into that namespace and name.
   */
  lemma SplitMetaNamespaceKeyRoundTrip(namespace: string, name: string)
    requires '/' !in namespace && '/' !in name
    ensures SplitMetaNamespaceKey(MetaNamespaceKey(namespace, name)) == Some((namespace, name))
  {
    if namespace != "" {
      SplitJoin([namespace, name]);
      assert Join([namespace, name]) == namespace + "/" + name;
    } else {
      SplitJoin([name]);
    }
  }

  /** A key with at least two '/' is rejected. */
  lemma SplitMetaNamespaceKeyRejects(key: string, i: nat, j: nat)
    requires i < j < |key| && key[i] == '/' && key[j] == '/'
    ensures SplitMetaNamespaceKey(key) == None
  {
    var parts := Split(key);
    if |parts| == 2 {
      assert false;
    }
  }

  /** If `a + "/" + b == c + "/" + d` and `a` is the shorter prefix, `c` has a '/' where `a` ends. */
  lemma SlashWhereShorterEnds(a: string, b: string, c: string, d: string)
    requires |a| < |c|
    requires a + "/" + b == c + "/" + d
    ensures c[|a|] == '/'
  {
    assert (a + "/" + b)[|a|] == '/';
    assert (c + "/" + d)[|a|] == c[|a|];
  }

  /** Distinct (namespace, name) pairs get distinct slots when namespaces hold no '/'. */
  lemma SlotKeyInjective(ns1: string, n1: string, ns2: string, n2: string)
    requires '/' !in ns1 && '/' !in ns2
    requires SlotKey(ns1, n1) == SlotKey(ns2, n2)
    ensures ns1 == ns2 && n1 == n2
  {
    var k := SlotKey(ns1, n1);
    if |ns1| < |ns2| {
      SlashWhereShorterEnds(ns1, n1, ns2, n2);
      assert false;
    } else if |ns2| < |ns1| {
      SlashWhereShorterEnds(ns2, n2, ns1, n1);
      assert false;
    }
    assert ns1 == k[..|ns1|] == ns2;
    assert n1 == k[|ns1| + 1..] == n2;
  }
}
