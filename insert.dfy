/** `Insert`: write a value at a key, overwriting whatever was there. The
    index-addressed adapters panic out of range (a precondition here); the
    keyed ones are upserts that cannot fail. */
module Insert {
  import opened Wrappers
  import opened Collections
  import opened Json
  import opened Get

  /** `insert` on a slice `[V]` (and so on an array `[V; N]`): overwrite
      slot `k`; panics when `k >= len`. Length and other slots keep. */
  method SliceInsert<V>(a: array<V>, k: nat, v: V)
    requires k < a.Length
    modifies a
    ensures a[..] == old(a[..])[k := v]
  {
    a[k] := v;
  }

  /** `insert` on `Vec<V>`, forwarding to `Vec::insert`; panics when
      `k > len`. */
  method VecInsert<V>(c: Vec<V>, k: nat, v: V)
    requires k <= |c.elems|
    modifies c
    ensures c.elems == InsertAt(old(c.elems), k, v)
  {
    c.Insert(k, v);
  }

  /** `insert` on `VecDeque<V>`, forwarding to `VecDeque::insert`; panics
      when `k > len`. */
  method DequeInsert<V>(c: VecDeque<V>, k: nat, v: V)
    requires k <= |c.elems|
    modifies c
    ensures c.elems == InsertAt(old(c.elems), k, v)
  {
    c.Insert(k, v);
  }

  /** `insert` on `LinkedList<V>`: split at `k`, push `v` on the front part,
      re-attach the rest; `split_off` panics when `k > len`. */
  method ListInsert<V>(c: LinkedList<V>, k: nat, v: V)
    requires k <= |c.elems|
    modifies c
    ensures c.elems == InsertAt(old(c.elems), k, v)
  {
    var rest := c.SplitOff(k);
    c.PushBack(v);
    c.Append(rest);
  }

  /** `insert` on `BTreeMap` and `HashMap`: upsert, never panics. */
  method MapInsert<K, V>(c: KeyedMap<K, V>, k: K, v: V)
    modifies c
    ensures c.entries == old(c.entries)[k := v]
  {
    var _ := c.Insert(k, v);
  }

  /** `insert(k, ())` on `BTreeSet` and `HashSet`: adds `k`, never panics. */
  method SetInsert<K>(c: KeyedSet<K>, k: K, u: ())
    modifies c
    ensures c.elems == old(c.elems) + {k}
  {
    var _ := c.Insert(k);
  }

  /** `insert(String, Value)` on a JSON value: upsert into an object;
      panics ("Value is not an object") on every other variant. */
  method JsonInsertKey(d: Document, k: string, v: Json)
    requires d.value.Object?
    modifies d
    ensures d.value == Object(old(d.value).fields[k := v])
  {
    match d.value
    case Object(o) =>
      d.value := Object(o[k := v]);
  }

  /** After an overwrite, `get(k)` is the new value and every other index
      reads as before. */
  lemma OverwriteThenGet<V>(s: seq<V>, k: nat, v: V, i: nat)
    requires k < |s|
    ensures SeqGet(s[k := v], k) == Some(v)
    ensures i != k ==> SeqGet(s[k := v], i) == SeqGet(s, i)
    ensures |s[k := v]| == |s|
  {
  }

  /** After a shifting insert, `get(k)` is the new value, indices below `k`
      read as before and indices above read what was one below. */
  lemma InsertAtThenGet<V>(s: seq<V>, k: nat, v: V, i: nat)
    requires k <= |s|
    ensures SeqGet(InsertAt(s, k, v), k) == Some(v)
    ensures i < k ==> SeqGet(InsertAt(s, k, v), i) == SeqGet(s, i)
    ensures k < i ==> SeqGet(InsertAt(s, k, v), i) == SeqGet(s, i - 1)
  {
  }

  /** Map, set and JSON object upserts: a following `get` finds what was
      inserted, and nothing else changes. */
  lemma UpsertThenGet<K, V>(m: map<K, V>, s: set<K>, k: K, v: V, other: K, o: map<string, Json>, key: string, j: Json, otherKey: string)
    ensures MapGet(m[k := v], k) == Some(v)
    ensures other != k ==> MapGet(m[k := v], other) == MapGet(m, other)
    ensures SetGet(s + {k}, k) == Some(k)
    ensures other != k ==> SetGet(s + {k}, other) == SetGet(s, other)
    ensures JsonGetKey(Object(o[key := j]), key) == Some(j)
    ensures otherKey != key ==> JsonGetKey(Object(o[key := j]), otherKey) == JsonGetKey(Object(o), otherKey)
  {
  }

  /** The unit test of the linked-list adapter: `insert(0, 1)`,
      `insert(1, 2)`, `insert(1, 3)` on an empty list give `[1, 3, 2]`. */
  method ListInsertOrder() returns (got: seq<Option<int>>)
    ensures got == [Some(1), Some(3), Some(2), None]
  {
    var l := new LinkedList([]);
    ListInsert(l, 0, 1);
    ListInsert(l, 1, 2);
    ListInsert(l, 1, 3);
    got := [ListGet(l.elems, 0), ListGet(l.elems, 1), ListGet(l.elems, 2), ListGet(l.elems, 3)];
  }

  /** The other unit tests of the source: overwriting slot 0 of `[0, 1, 2]`,
      inserting at 0 into an empty `Vec` and `VecDeque`, upserting into maps
      and sets, and inserting `"a" -> Null` into a JSON object. */
  method InsertExamples() returns (slot0: int, vec0: Option<int>, deque0: Option<int>, map0: Option<int>, set0: Option<int>, json: Option<Json>)
    ensures slot0 == 1 && vec0 == Some(1) && deque0 == Some(1)
    ensures map0 == Some(1) && set0 == Some(0) && json == Some(Null)
  {
    var a := new int[3];
    a[0], a[1], a[2] := 0, 1, 2;
    SliceInsert(a, 0, 1);
    slot0 := a[0];
    var v := new Vec([]);
    VecInsert(v, 0, 1);
    vec0 := SeqGet(v.elems, 0);
    var q := new VecDeque([]);
    DequeInsert(q, 0, 1);
    deque0 := SeqGet(q.elems, 0);
    var m := new KeyedMap(map[]);
    MapInsert(m, 0, 1);
    map0 := MapGet(m.entries, 0);
    var s := new KeyedSet({});
    SetInsert(s, 0, ());
    set0 := SetGet(s.elems, 0);
    var o := new Document(Object(map[]));
    JsonInsertKey(o, "a", Null);
    json := JsonGetKey(o.value, "a");
  }
}
