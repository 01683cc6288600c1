/** The standard-library containers that the adapters delegate to, as black
    boxes: each keeps its contents as a mathematical value and offers exactly
    the native operations the adapters call, with the native success and
    panic boundaries (a panic is a precondition). */
module Collections {
  import opened Wrappers

  /** The sequence after `Vec::insert(k, v)`: `v` at `k`, later elements
      shifted up by one. */
  function InsertAt<V>(s: seq<V>, k: nat, v: V): (r: seq<V>)
    requires k <= |s|
    ensures |r| == |s| + 1 && r[k] == v
    ensures forall i :: 0 <= i < k ==> r[i] == s[i]
    ensures forall i :: k < i < |r| ==> r[i] == s[i - 1]
  {
    s[..k] + [v] + s[k..]
  }

  /** The sequence after `Vec::remove(k)`: element `k` gone, later elements
      shifted down by one. */
  function RemoveAt<V>(s: seq<V>, k: nat): (r: seq<V>)
    requires k < |s|
    ensures |r| == |s| - 1
    ensures forall i :: 0 <= i < k ==> r[i] == s[i]
    ensures forall i :: k <= i < |r| ==> r[i] == s[i + 1]
  {
    s[..k] + s[k + 1..]
  }

  /** Removing what was just inserted at the same position gives the
      sequence back. */
  lemma RemoveInsertedAt<V>(s: seq<V>, k: nat, v: V)
    requires k <= |s|
    ensures RemoveAt(InsertAt(s, k, v), k) == s
  {
  }

  /** `std::vec::Vec<V>`. */
  class Vec<V> {
    var elems: seq<V>

    constructor (s: seq<V>)
      ensures elems == s
    {
      elems := s;
    }

    /** `Vec::insert`: panics when `k > len`. */
    method Insert(k: nat, v: V)
      requires k <= |elems|
      modifies this
      ensures elems == InsertAt(old(elems), k, v)
    {
      elems := InsertAt(elems, k, v);
    }

    /** `Vec::remove`: panics when `k >= len`. */
    method Remove(k: nat) returns (v: V)
      requires k < |elems|
      modifies this
      ensures v == old(elems)[k] && elems == RemoveAt(old(elems), k)
    {
      v := elems[k];
      elems := RemoveAt(elems, k);
    }

    /** `Vec::push`. */
    method Push(v: V)
      modifies this
      ensures elems == old(elems) + [v]
    {
      elems := elems + [v];
    }
  }

  /** `std::collections::VecDeque<V>`. */
  class VecDeque<V> {
    var elems: seq<V>

    constructor (s: seq<V>)
      ensures elems == s
    {
      elems := s;
    }

    /** `VecDeque::insert`: panics when `k > len`. */
    method Insert(k: nat, v: V)
      requires k <= |elems|
      modifies this
      ensures elems == InsertAt(old(elems), k, v)
    {
      elems := InsertAt(elems, k, v);
    }

    /** `VecDeque::remove`: total, `None` when `k >= len`. */
    method Remove(k: nat) returns (r: Option<V>)
      modifies this
      ensures k < |old(elems)| ==> r == Some(old(elems)[k]) && elems == RemoveAt(old(elems), k)
      ensures |old(elems)| <= k ==> r == None && elems == old(elems)
    {
      if k < |elems| {
        r := Some(elems[k]);
        elems := RemoveAt(elems, k);
      } else {
        r := None;
      }
    }

    /** `VecDeque::push_back`. */
    method PushBack(v: V)
      modifies this
      ensures elems == old(elems) + [v]
    {
      elems := elems + [v];
    }
  }

  /** `std::collections::LinkedList<V>`: no random access; the adapters
      compose `split_off`, `push_back`, `pop_front` and `append`. */
  class LinkedList<V> {
    var elems: seq<V>

    constructor (s: seq<V>)
      ensures elems == s
    {
      elems := s;
    }

    /** `LinkedList::split_off(k)`: keeps the first `k` elements and returns
        a new list of the rest; panics when `k > len`. */
    method SplitOff(k: nat) returns (rest: LinkedList<V>)
      requires k <= |elems|
      modifies this
      ensures fresh(rest)
      ensures elems == old(elems)[..k] && rest.elems == old(elems)[k..]
    {
      rest := new LinkedList(elems[k..]);
      elems := elems[..k];
    }

    /** `LinkedList::push_back`. */
    method PushBack(v: V)
      modifies this
      ensures elems == old(elems) + [v]
    {
      elems := elems + [v];
    }

    /** `LinkedList::pop_front`: `None` on an empty list. */
    method PopFront() returns (r: Option<V>)
      modifies this
      ensures old(elems) == [] ==> r == None && elems == []
      ensures old(elems) != [] ==> r == Some(old(elems)[0]) && elems == old(elems)[1..]
    {
      if elems == [] {
        r := None;
      } else {
        r := Some(elems[0]);
        elems := elems[1..];
      }
    }

    /** `LinkedList::append(&mut other)`: moves every element of `other` to
        the back of this list and leaves `other` empty. */
    method Append(other: LinkedList<V>)
      requires other != this
      modifies this, other
      ensures elems == old(elems) + old(other.elems) && other.elems == []
    {
      elems := elems + other.elems;
      other.elems := [];
    }
  }

  /** `BTreeMap<K, V>` and `HashMap<K, V>`: the same key-to-value map; their
      internal ordering and hashing are not modelled. */
  class KeyedMap<K(==), V> {
    var entries: map<K, V>

    constructor (m: map<K, V>)
      ensures entries == m
    {
      entries := m;
    }

    /** `insert`: upsert, returning the previous value. */
    method Insert(k: K, v: V) returns (prev: Option<V>)
      modifies this
      ensures prev == if k in old(entries) then Some(old(entries)[k]) else None
      ensures entries == old(entries)[k := v]
    {
      prev := if k in entries then Some(entries[k]) else None;
      entries := entries[k := v];
    }

    /** `remove`: the removed value, or `None` when the key is absent. */
    method Remove(k: K) returns (r: Option<V>)
      modifies this
      ensures r == if k in old(entries) then Some(old(entries)[k]) else None
      ensures entries == old(entries) - {k}
    {
      r := if k in entries then Some(entries[k]) else None;
      entries := entries - {k};
    }
  }

  /** `BTreeSet<K>` and `HashSet<K>`. */
  class KeyedSet<K(==)> {
    var elems: set<K>

    constructor (s: set<K>)
      ensures elems == s
    {
      elems := s;
    }

    /** `insert`: `true` when `k` was not yet present. */
    method Insert(k: K) returns (added: bool)
      modifies this
      ensures added == (k !in old(elems)) && elems == old(elems) + {k}
    {
      added := k !in elems;
      elems := elems + {k};
    }

    /** `remove`: `true` when `k` was present. */
    method Remove(k: K) returns (present: bool)
      modifies this
      ensures present == (k in old(elems)) && elems == old(elems) - {k}
    {
      present := k in elems;
      elems := elems - {k};
    }
  }
}
