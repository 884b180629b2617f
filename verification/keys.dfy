/** Key naming: the namespace prefix applied to every store key, and the
    dot-joined metric names (mackerel-plugin-sidekiq/lib/sidekiq.go,
    `addNamespace` and `metricName`). */
module Keys {

  /** Go's `addNamespace`. */
  function AddNamespace(namespace: string, key: string): string
  {
    if namespace == "" then key else namespace + ":" + key
  }

  /** An empty namespace leaves the key alone; any other namespace is put in
      front of it, followed by one colon. The logical key is always the tail
      of the store key. */
  lemma AddNamespaceShape(namespace: string, key: string)
    ensures namespace == "" <==> AddNamespace(namespace, key) == key
    ensures var r := AddNamespace(namespace, key);
      |r| >= |key| && r[|r| - |key|..] == key
    ensures var r := AddNamespace(namespace, key);
      namespace != "" ==> |r| == |namespace| + 1 + |key| && r[..|namespace|] == namespace && r[|namespace|] == ':'
  {
    var r := AddNamespace(namespace, key);
    if namespace != "" {
      assert |r| > |key|;
      assert r[|r| - |key|..] == key;
    }
  }

  /** Within one namespace, distinct logical keys address distinct store keys. */
  lemma AddNamespaceInjective(namespace: string, k1: string, k2: string)
    requires AddNamespace(namespace, k1) == AddNamespace(namespace, k2)
    ensures k1 == k2
  {
    var r := AddNamespace(namespace, k1);
    AddNamespaceShape(namespace, k1);
    AddNamespaceShape(namespace, k2);
    assert |k1| == |k2|;
    assert k1 == r[|r| - |k1|..];
  }

  lemma AddNamespaceInjectiveAll(namespace: string)
    ensures forall k1, k2 :: AddNamespace(namespace, k1) == AddNamespace(namespace, k2) ==> k1 == k2
  {
    forall k1, k2 | AddNamespace(namespace, k1) == AddNamespace(namespace, k2) {
      AddNamespaceInjective(namespace, k1, k2);
    }
  }

  /** Appending a queue name to the namespaced `"queue:"` prefix gives the
      namespaced queue key: `ns:queue:name`, or `queue:name` without a
      namespace. */
  lemma QueueKeyLayout(namespace: string, q: string)
    ensures AddNamespace(namespace, "queue:") + q == AddNamespace(namespace, "queue:" + q)
    ensures namespace == "" ==> AddNamespace(namespace, "queue:") + q == "queue:" + q
    ensures namespace != "" ==> AddNamespace(namespace, "queue:") + q == namespace + ":queue:" + q
  {
    if namespace != "" {
      assert namespace + ":" + "queue:" + q == namespace + ":" + ("queue:" + q);
      assert namespace + ":" + "queue:" == namespace + ":queue:";
    }
  }

  /** Go's `strings.Join`. */
  function Join(elems: seq<string>, sep: string): (r: string)
    ensures |elems| == 0 ==> r == ""
    ensures |elems| > 0 ==> |r| >= |elems[0]| && r[..|elems[0]|] == elems[0]
    ensures |elems| == 1 ==> r == elems[0]
    ensures |elems| == 2 ==> r == elems[0] + sep + elems[1]
    decreases |elems|
  {
    if |elems| == 0 then ""
    else if |elems| == 1 then elems[0]
    else elems[0] + sep + Join(elems[1..], sep)
  }

  /** Go's variadic `metricName`: the names joined with dots. */
  function MetricName(names: seq<string>): (r: string)
    ensures |names| == 1 ==> r == names[0]
    ensures |names| == 2 ==> r == names[0] + "." + names[1]
  {
    Join(names, ".")
  }
}
