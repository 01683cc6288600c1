/** `Len`: the element count of a container, never failing. */
module Len {
  import opened Wrappers
  import opened Json
  import opened Get

  /** `len` on a slice `[V]` or an array `[V; N]`: its fixed length, which
      is the number of its elements. */
  function ArrayLen<V>(a: array<V>): (n: nat)
    reads a
    ensures n == |a[..]|
    ensures forall k: nat :: SeqGet(a[..], k).Some? <==> k < n
  {
    a.Length
  }

  /** `len` on `Vec`, `VecDeque` or `LinkedList`: exactly the indices below
      it hold an element. */
  function SeqLen<V>(s: seq<V>): (n: nat)
    ensures forall k: nat :: SeqGet(s, k).Some? <==> k < n
  {
    |s|
  }

  /** `len` on `BTreeMap`/`HashMap`: the number of keys, 0 only when empty. */
  function MapLen<K, V>(m: map<K, V>): (n: nat)
    ensures n == |m.Keys|
    ensures n == 0 <==> m == map[]
  {
    |m|
  }

  /** `len` on `BTreeSet`/`HashSet`: the number of elements, 0 only when
      empty. */
  function SetLen<K>(s: set<K>): (n: nat)
    ensures n == 0 <==> s == {}
  {
    |s|
  }

  /** `len` on a JSON value: the child count of an array or object, 0 for
      every scalar. */
  function JsonLen(j: Json): (n: nat)
    ensures j.Array? ==> n == SeqLen(j.items)
    ensures j.Object? ==> n == MapLen(j.fields)
    ensures !j.Array? && !j.Object? ==> n == 0
  {
    match j
    case Array(a) => |a|
    case Object(o) => |o|
    case _ => 0
  }

  /** The blanket `Len` for `&L`: the length of what is borrowed. */
  function LenByRef<L>(len: L -> nat, r: Ref<L>): (n: nat)
    ensures n == len(r.deref)
  {
    len(r.deref)
  }

  /** The length of an index-addressed container is its element count: an
      index holds an element exactly when it is below the length. */
  lemma SeqLenCountsIndices<V>(s: seq<V>, k: nat)
    ensures SeqGet(s, k).Some? <==> k < SeqLen(s)
    ensures ListGet(s, k).Some? <==> k < SeqLen(s)
  {
  }

  /** The length of a map or set is the size of its key set, and a key is
      found exactly when it is among them. */
  lemma KeyedLenCountsKeys<K, V>(m: map<K, V>, s: set<K>, k: K)
    ensures MapLen(m) == |m.Keys| && (MapGet(m, k).Some? <==> k in m.Keys)
    ensures SetLen(s) == |s| && (SetGet(s, k).Some? <==> k in s)
  {
  }

  /** On a JSON array, the length bounds exactly the indices `get` finds;
      on a scalar, nothing is found by index or key and the length is 0. */
  lemma JsonLenBoundsGet(j: Json, k: nat, key: string)
    ensures j.Array? ==> (JsonGetIndex(j, k).Some? <==> k < JsonLen(j))
    ensures !j.Array? && !j.Object? ==> JsonLen(j) == 0 && JsonGetIndex(j, k) == None && JsonGetKey(j, key) == None
  {
  }

  /** Borrowing a container does not change its length. */
  lemma LenByRefForwards<V, K, W>(s: seq<V>, m: map<K, W>, j: Json)
    ensures LenByRef(SeqLen, Ref(s)) == |s|
    ensures LenByRef(MapLen, Ref(m)) == |m|
    ensures LenByRef(JsonLen, Ref(j)) == JsonLen(j)
  {
  }
}
