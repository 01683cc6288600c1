/** `Push`: append a value without naming a position. */
module Push {
  import opened Wrappers
  import opened Collections
  import opened Json
  import opened Get
  import opened Len

  /** `push` on `Vec<V>`: back-append. */
  method VecPush<V>(c: Vec<V>, v: V)
    modifies c
    ensures c.elems == old(c.elems) + [v]
  {
    c.Push(v);
  }

  /** `push` on `VecDeque<V>`: `push_back`. */
  method DequePush<V>(c: VecDeque<V>, v: V)
    modifies c
    ensures c.elems == old(c.elems) + [v]
  {
    c.PushBack(v);
  }

  /** `push` on `LinkedList<V>`: `push_back`. */
  method ListPush<V>(c: LinkedList<V>, v: V)
    modifies c
    ensures c.elems == old(c.elems) + [v]
  {
    c.PushBack(v);
  }

  /** `push` on a JSON value: append to an array; panics ("Value is not an
      array") on every other variant. */
  method JsonPush(d: Document, v: Json)
    requires d.value.Array?
    modifies d
    ensures d.value == Array(old(d.value).items + [v])
  {
    match d.value
    case Array(a) =>
      d.value := Array(a + [v]);
  }

  /** A push grows the length by exactly one, puts the value last and
      keeps every earlier element at its index. */
  lemma PushThenGet<V>(s: seq<V>, v: V, i: nat)
    ensures SeqLen(s + [v]) == SeqLen(s) + 1
    ensures SeqGet(s + [v], |s|) == Some(v)
    ensures i < |s| ==> SeqGet(s + [v], i) == SeqGet(s, i)
  {
  }

  /** On a JSON array a push adds one to `len` and is found at the old
      length. */
  lemma JsonPushThenGet(a: seq<Json>, v: Json)
    ensures JsonLen(Array(a + [v])) == JsonLen(Array(a)) + 1
    ensures JsonGetIndex(Array(a + [v]), |a|) == Some(v)
  {
  }

  /** Pushing 0 then 1 onto an empty `Vec` gives `get(0) == Some(0)` and
      `get(1) == Some(1)`. */
  method PushOrder() returns (got: seq<Option<int>>)
    ensures got == [Some(0), Some(1), None]
  {
    var v := new Vec([]);
    VecPush(v, 0);
    VecPush(v, 1);
    got := [SeqGet(v.elems, 0), SeqGet(v.elems, 1), SeqGet(v.elems, 2)];
  }
}
