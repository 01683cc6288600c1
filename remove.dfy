/** `Remove`: delete by key and hand back the removed value. Each adapter
    carries a `Safety` tag; a `Safe` adapter here has no precondition, an
    `Unsafe` one has the precondition under which the source does not
    panic. */
module Remove {
  import opened Wrappers
  import opened Collections
  import opened Json
  import opened Get

  /** Whether an implementation may panic. */
  datatype Safety = Safe | Unsafe

  const VecRemoveSafety: Safety := Unsafe
  const DequeRemoveSafety: Safety := Safe
  const ListRemoveSafety: Safety := Unsafe
  const MapRemoveSafety: Safety := Safe
  const SetRemoveSafety: Safety := Safe
  const JsonRemoveSafety: Safety := Unsafe

  /** `remove` on `Vec<V>`: `Some(s[k])`, the later elements shift down;
      `Vec::remove` panics when `k >= len`. */
  method VecRemove<V>(c: Vec<V>, k: nat) returns (r: Option<V>)
    requires k < |c.elems|
    modifies c
    ensures r == Some(old(c.elems)[k]) && c.elems == RemoveAt(old(c.elems), k)
  {
    var v := c.Remove(k);
    r := Some(v);
  }

  /** `remove` on `VecDeque<V>`: total; `None` and no change past the end,
      otherwise the `Vec` behaviour. */
  method DequeRemove<V>(c: VecDeque<V>, k: nat) returns (r: Option<V>)
    modifies c
    ensures r.Some? <==> k < |old(c.elems)|
    ensures r.Some? ==> r.value == old(c.elems)[k] && c.elems == RemoveAt(old(c.elems), k)
    ensures r.None? ==> c.elems == old(c.elems)
  {
    r := c.Remove(k);
  }

  /** `remove` on `LinkedList<V>` as written: split at `k`, pop the front of
      the part BEFORE `k`, re-attach. So `k == 0` removes nothing and any
      other `k` removes the head; `split_off` panics when `k > len`. */
  method ListRemoveAsWritten<V>(c: LinkedList<V>, k: nat) returns (r: Option<V>)
    requires k <= |c.elems|
    modifies c
    ensures k == 0 ==> r == None && c.elems == old(c.elems)
    ensures 0 < k ==> r == Some(old(c.elems)[0]) && c.elems == old(c.elems)[1..]
  {
    var rest := c.SplitOff(k);
    r := c.PopFront();
    c.Append(rest);
  }

  /** `remove` on `LinkedList<V>` popping the front of the part FROM `k`:
      removes element `k` as the trait promises, `None` at `k == len`. */
  method ListRemove<V>(c: LinkedList<V>, k: nat) returns (r: Option<V>)
    requires k <= |c.elems|
    modifies c
    ensures r.Some? <==> k < |old(c.elems)|
    ensures r.Some? ==> r.value == old(c.elems)[k] && c.elems == RemoveAt(old(c.elems), k)
    ensures r.None? ==> c.elems == old(c.elems)
  {
    var rest := c.SplitOff(k);
    r := rest.PopFront();
    c.Append(rest);
  }

  /** The doc example `[1, 2, 3]` with `remove(1)`: the list adapter as
      written returns 1 and leaves `[2, 3]`; the trait promises 2 and
      `[1, 3]`, which the corrected adapter and the `Vec` adapter give. */
  method ListRemoveCounterexample() returns (written: Option<int>, writtenLeft: seq<int>, fixed: Option<int>, fixedLeft: seq<int>, vec: Option<int>, vecLeft: seq<int>)
    ensures written == Some(1) && writtenLeft == [2, 3]
    ensures fixed == Some(2) && fixedLeft == [1, 3]
    ensures vec == fixed && vecLeft == fixedLeft
  {
    var l := new LinkedList([1, 2, 3]);
    written := ListRemoveAsWritten(l, 1);
    writtenLeft := l.elems;
    var l2 := new LinkedList([1, 2, 3]);
    fixed := ListRemove(l2, 1);
    fixedLeft := l2.elems;
    var v := new Vec([1, 2, 3]);
    vec := VecRemove(v, 1);
    vecLeft := v.elems;
  }

  /** `remove(k)` with an owned key on `BTreeMap` and `HashMap`. */
  method MapRemove<K, V>(c: KeyedMap<K, V>, k: K) returns (r: Option<V>)
    modifies c
    ensures r == MapGet(old(c.entries), k)
    ensures c.entries == old(c.entries) - {k}
  {
    r := c.Remove(k);
  }

  /** `remove(&k)` with a borrowed key on `BTreeMap` and `HashMap`: the
      same result and effect as the owned-key adapter. */
  method MapRemoveByRef<K, V>(c: KeyedMap<K, V>, k: Ref<K>) returns (r: Option<V>)
    modifies c
    ensures r == MapGet(old(c.entries), k.deref)
    ensures c.entries == old(c.entries) - {k.deref}
  {
    r := c.Remove(k.deref);
  }

  /** `remove(k)` with an owned key on `BTreeSet` and `HashSet`: `Some(())`
      exactly when `k` was present; `k` is absent afterwards. */
  method SetRemove<K>(c: KeyedSet<K>, k: K) returns (r: Option<()>)
    modifies c
    ensures r.Some? <==> k in old(c.elems)
    ensures c.elems == old(c.elems) - {k}
  {
    var present := c.Remove(k);
    if present {
      r := Some(());
    } else {
      r := None;
    }
  }

  /** `remove(&k)` with a borrowed key on `BTreeSet` and `HashSet`. */
  method SetRemoveByRef<K>(c: KeyedSet<K>, k: Ref<K>) returns (r: Option<()>)
    modifies c
    ensures r.Some? <==> k.deref in old(c.elems)
    ensures c.elems == old(c.elems) - {k.deref}
  {
    var present := c.Remove(k.deref);
    if present {
      r := Some(());
    } else {
      r := None;
    }
  }

  /** `remove(&str)` on a JSON value: map removal on an object; panics
      ("Value is not an object") on every other variant. */
  method JsonRemoveKey(d: Document, k: string) returns (r: Option<Json>)
    requires d.value.Object?
    modifies d
    ensures r == JsonGetKey(old(d.value), k)
    ensures d.value == Object(old(d.value).fields - {k})
  {
    match d.value
    case Object(o) =>
      r := MapGet(o, k);
      d.value := Object(o - {k});
  }

  /** `remove(usize)` on a JSON value: `Some(a[k])` with the later elements
      shifted down; panics on a non-array ("Value is not an array") and,
      inside `Vec::remove`, when `k >= len`. */
  method JsonRemoveIndex(d: Document, k: nat) returns (r: Option<Json>)
    requires d.value.Array? && k < |d.value.items|
    modifies d
    ensures r == Some(old(d.value).items[k])
    ensures d.value == Array(RemoveAt(old(d.value).items, k))
  {
    match d.value
    case Array(a) =>
      r := Some(a[k]);
      d.value := Array(RemoveAt(a, k));
  }

  /** Index removal shifts every higher index down by one and keeps the
      lower ones. */
  lemma RemoveAtThenGet<V>(s: seq<V>, k: nat, i: nat)
    requires k < |s|
    ensures i < k ==> SeqGet(RemoveAt(s, k), i) == SeqGet(s, i)
    ensures k <= i ==> SeqGet(RemoveAt(s, k), i) == SeqGet(s, i + 1)
  {
  }

  /** Keyed round trip: after `insert(k, v)`, `remove(k)` returns `Some(v)`
      and a following `get(k)` is `None`; for sets the same with `()`. */
  lemma InsertRemoveGet<K, V>(m: map<K, V>, s: set<K>, k: K, v: V)
    ensures MapGet(m[k := v], k) == Some(v)
    ensures MapGet(m[k := v] - {k}, k) == None
    ensures k in s + {k} && SetGet(s + {k} - {k}, k) == None
  {
  }

  /** Removing an absent key changes nothing. */
  lemma RemoveAbsentKeyKeeps<K, V>(m: map<K, V>, s: set<K>, k: K)
    requires k !in m && k !in s
    ensures m - {k} == m && s - {k} == s
  {
  }
}
