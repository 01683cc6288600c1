/** `Get`: read a value by key. Every adapter is total: a missing key, an
    index past the end or the wrong JSON variant gives `None`. */
module Get {
  import opened Wrappers
  import opened Json

  /** `get` on `[V]`, `&[V]`, `[V; N]`, `Vec<V>` and `VecDeque<V>`: the
      element at index `k`, present exactly when `k` is below the length. */
  function SeqGet<V>(s: seq<V>, k: nat): (r: Option<V>)
    ensures r.Some? <==> k < |s|
    ensures r.Some? ==> r.value == s[k]
  {
    if k < |s| then Some(s[k]) else None
  }

  /** `Iterator::skip(k)` over a list's elements: drops the first `k`,
      stopping early at the end. */
  function Skip<V>(s: seq<V>, k: nat): (r: seq<V>)
    ensures r == if k <= |s| then s[k..] else []
  {
    if k == 0 || s == [] then s else Skip(s[1..], k - 1)
  }

  /** `Iterator::next`: the first remaining element, if any. */
  function Next<V>(it: seq<V>): (r: Option<V>)
    ensures r.Some? <==> it != []
    ensures r.Some? ==> r.value == it[0]
  {
    if it == [] then None else Some(it[0])
  }

  /** `get` on `LinkedList<V>` by linear traversal, `iter().skip(k).next()`:
      the same answer as indexing. */
  function ListGet<V>(s: seq<V>, k: nat): (r: Option<V>)
    ensures r == SeqGet(s, k)
  {
    Next(Skip(s, k))
  }

  /** `get` on `BTreeMap<K, V>` and `HashMap<K, V>` by a borrowed key. */
  function MapGet<K, V>(m: map<K, V>, k: K): (r: Option<V>)
    ensures r.Some? <==> k in m
    ensures r.Some? ==> r.value == m[k]
  {
    if k in m then Some(m[k]) else None
  }

  /** `get` on `BTreeSet<K>` and `HashSet<K>`: the stored element equal to
      `k`, when there is one. */
  function SetGet<K>(s: set<K>, k: K): (r: Option<K>)
    ensures r.Some? <==> k in s
    ensures r.Some? ==> r.value == k
  {
    if k in s then Some(k) else None
  }

  /** `get(&str)` on a JSON value: a field lookup on an object, `None` for
      every other variant. */
  function JsonGetKey(j: Json, k: string): (r: Option<Json>)
    ensures r.Some? <==> j.Object? && k in j.fields
    ensures r.Some? ==> r.value == j.fields[k]
  {
    match j
    case Object(o) => MapGet(o, k)
    case _ => None
  }

  /** `get(usize)` on a JSON value: an index lookup on an array, `None` for
      every other variant. */
  function JsonGetIndex(j: Json, k: nat): (r: Option<Json>)
    ensures r.Some? <==> j.Array? && k < |j.items|
    ensures r.Some? ==> r.value == j.items[k]
  {
    match j
    case Array(a) => SeqGet(a, k)
    case _ => None
  }

  /** The default `contains` of the trait, for any implementer's `get`. */
  function Contains<C, K, V>(get: (C, K) -> Option<V>, c: C, k: K): (b: bool)
    ensures b <==> get(c, k) != None
  {
    get(c, k).Some?
  }

  /** The blanket `Get<&usize>`: dereference the index and ask the
      implementer's `Get<usize>`. */
  function GetByRef<C, V>(get: (C, nat) -> Option<V>, c: C, k: Ref<nat>): (r: Option<V>)
    ensures r == get(c, k.deref)
  {
    get(c, k.deref)
  }

  /** `contains` agrees with each family's membership test. */
  lemma ContainsMeansPresent<K, V>(s: seq<V>, i: nat, m: map<K, V>, st: set<K>, k: K, j: Json, key: string)
    ensures Contains(SeqGet, s, i) <==> i < |s|
    ensures Contains(ListGet, s, i) <==> i < |s|
    ensures Contains(MapGet, m, k) <==> k in m
    ensures Contains(SetGet, st, k) <==> k in st
    ensures Contains(JsonGetKey, j, key) <==> j.Object? && key in j.fields
    ensures Contains(JsonGetIndex, j, i) <==> j.Array? && i < |j.items|
  {
  }

  /** Looking up through a borrowed index gives what the owned index gives,
      for the sequence, list and JSON implementers. */
  lemma GetByRefForwards<V>(s: seq<V>, j: Json, i: nat)
    ensures GetByRef(SeqGet, s, Ref(i)) == SeqGet(s, i)
    ensures GetByRef(ListGet, s, Ref(i)) == SeqGet(s, i)
    ensures GetByRef(JsonGetIndex, j, Ref(i)) == JsonGetIndex(j, i)
  {
  }

  /** The unit tests of the source: empty and short slices and arrays, a
      one-element `Vec`, empty containers of every kind, and JSON values. */
  lemma GetExamples()
    ensures SeqGet<int>([], 1) == None
    ensures SeqGet([0, 1], 1) == Some(1)
    ensures SeqGet<nat>([], 0) == None
    ensures SeqGet([0], 0) == Some(0)
    ensures SeqGet([10], 0) == Some(10)
    ensures SeqGet<()>([], 0) == None
    ensures ListGet<()>([], 0) == None
    ensures MapGet<(), ()>(map[], ()) == None
    ensures SetGet<()>({}, ()) == None
    ensures JsonGetKey(Null, "") == None
    ensures JsonGetIndex(Array([Bool(true)]), 0) == Some(Bool(true))
    ensures JsonGetIndex(Array([]), 0) == None
    ensures JsonGetIndex(Null, 0) == None
  {
  }
}
