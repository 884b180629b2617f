/** The part of Redis the plugin reads, as an immutable value, and the
    zero-on-absence read helpers built on it
    (mackerel-plugin-sidekiq/lib/sidekiq.go, `get`, `zCard`, `sMembers`,
    `hGet`, `lLen`). */
module Redis {
  import opened Counters
  import opened Keys

  /** One snapshot of the store: string values, hashes, sets (members in the
      order SMEMBERS returns them), lists (head first) and sorted sets, of
      which only the cardinality is ever read. */
  datatype Store = Store(
    strings: map<string, string>,
    hashes: map<string, map<string, string>>,
    sets: map<string, seq<string>>,
    lists: map<string, seq<string>>,
    zsets: map<string, nat>)

  const EmptyStore := Store(map[], map[], map[], map[], map[])

  /** `get`: GET the key and parse it as an unsigned decimal; a missing key
      is 0. `parseUint` stands for `strconv.ParseUint(_, 10, 64)` with its
      error ignored. */
  function Get(s: Store, parseUint: string -> U64, key: string): (r: U64)
    ensures key !in s.strings ==> r == 0
    ensures key in s.strings ==> r == parseUint(s.strings[key])
  {
    if key in s.strings then parseUint(s.strings[key]) else 0
  }

  /** `zCard`: the cardinality of a sorted set, 0 when it is missing. */
  function ZCard(s: Store, key: string): (r: nat)
    ensures key !in s.zsets ==> r == 0
    ensures key in s.zsets ==> r == s.zsets[key]
  {
    if key in s.zsets then s.zsets[key] else 0
  }

  /** `sMembers`: the members of a set, empty when it is missing. */
  function SMembers(s: Store, key: string): (r: seq<string>)
    ensures key !in s.sets ==> r == []
    ensures key in s.sets ==> r == s.sets[key]
  {
    if key in s.sets then s.sets[key] else []
  }

  /** `hGet`: one field of a hash parsed as an unsigned decimal; 0 when the
      hash or the field is missing. */
  function HGet(s: Store, parseUint: string -> U64, key: string, field: string): (r: U64)
    ensures (key !in s.hashes || field !in s.hashes[key]) ==> r == 0
    ensures key in s.hashes && field in s.hashes[key] ==> r == parseUint(s.hashes[key][field])
  {
    if key in s.hashes && field in s.hashes[key] then parseUint(s.hashes[key][field]) else 0
  }

  /** `lLen`: the length of a list, 0 when it is missing. */
  function LLen(s: Store, key: string): (r: nat)
    ensures key !in s.lists ==> r == 0
    ensures key in s.lists ==> r == |s.lists[key]|
  {
    if key in s.lists then |s.lists[key]| else 0
  }

  /** `LRANGE key -1 -1`: the reply holding only the last (tail) element of
      the list, or nothing when the list is missing or empty. */
  function LRangeLast(s: Store, key: string): (r: seq<string>)
    ensures |r| <= 1
    ensures |r| == 0 <==> key !in s.lists || |s.lists[key]| == 0
    ensures |r| == 1 ==> r[0] == s.lists[key][|s.lists[key]| - 1]
  {
    if key in s.lists && |s.lists[key]| > 0 then [s.lists[key][|s.lists[key]| - 1]] else []
  }

  /** Every read helper yields zero or nothing on the empty store, whatever
      the key. */
  lemma EmptyStoreReadsZero(parseUint: string -> U64, key: string, field: string)
    ensures Get(EmptyStore, parseUint, key) == 0
    ensures ZCard(EmptyStore, key) == 0
    ensures SMembers(EmptyStore, key) == []
    ensures HGet(EmptyStore, parseUint, key, field) == 0
    ensures LLen(EmptyStore, key) == 0
    ensures LRangeLast(EmptyStore, key) == []
  {
  }

  /** The same map with every key moved under a namespace. */
  function NamespacedMap<V>(m: map<string, V>, namespace: string): (r: map<string, V>)
    ensures forall k :: k in m ==> AddNamespace(namespace, k) in r && r[AddNamespace(namespace, k)] == m[k]
    ensures forall k :: AddNamespace(namespace, k) in r ==> k in m
    ensures forall k' :: k' in r ==> exists k :: k in m && k' == AddNamespace(namespace, k)
  {
    AddNamespaceInjectiveAll(namespace);
    var r := map k | k in m :: AddNamespace(namespace, k) := m[k];
    assert forall k :: AddNamespace(namespace, k) in r ==> k in m by {
      forall k | AddNamespace(namespace, k) in r
        ensures k in m
      {
        var k' :| k' in m && AddNamespace(namespace, k') == AddNamespace(namespace, k);
      }
    }
    r
  }

  /** The store an installation using `namespace` would hold: the same data
      with every top-level key namespaced. Hash fields, set members and list
      entries are data, not keys, and stay as they are. */
  function Namespaced(s: Store, namespace: string): Store
  {
    Store(NamespacedMap(s.strings, namespace), NamespacedMap(s.hashes, namespace),
          NamespacedMap(s.sets, namespace), NamespacedMap(s.lists, namespace),
          NamespacedMap(s.zsets, namespace))
  }

  /** A namespaced key of a namespaced map holds what the original key held. */
  lemma NamespacedLookup<V>(m: map<string, V>, namespace: string, key: string)
    ensures AddNamespace(namespace, key) in NamespacedMap(m, namespace) <==> key in m
    ensures key in m ==> NamespacedMap(m, namespace)[AddNamespace(namespace, key)] == m[key]
  {
  }

  lemma NamespacedGet(s: Store, namespace: string, parseUint: string -> U64, key: string)
    ensures Get(Namespaced(s, namespace), parseUint, AddNamespace(namespace, key)) == Get(s, parseUint, key)
  {
    NamespacedLookup(s.strings, namespace, key);
  }

  lemma NamespacedHGet(s: Store, namespace: string, parseUint: string -> U64, key: string, field: string)
    ensures HGet(Namespaced(s, namespace), parseUint, AddNamespace(namespace, key), field) == HGet(s, parseUint, key, field)
  {
    NamespacedLookup(s.hashes, namespace, key);
  }

  lemma NamespacedSMembers(s: Store, namespace: string, key: string)
    ensures SMembers(Namespaced(s, namespace), AddNamespace(namespace, key)) == SMembers(s, key)
  {
    NamespacedLookup(s.sets, namespace, key);
  }

  lemma NamespacedListReads(s: Store, namespace: string, key: string)
    ensures LLen(Namespaced(s, namespace), AddNamespace(namespace, key)) == LLen(s, key)
    ensures LRangeLast(Namespaced(s, namespace), AddNamespace(namespace, key)) == LRangeLast(s, key)
  {
    NamespacedLookup(s.lists, namespace, key);
  }

  lemma NamespacedZCard(s: Store, namespace: string, key: string)
    ensures ZCard(Namespaced(s, namespace), AddNamespace(namespace, key)) == ZCard(s, key)
  {
    NamespacedLookup(s.zsets, namespace, key);
  }
}
