/** `TryInsert`: an insert that reports failure as an `InsertError` value
    instead of panicking. Index-addressed adapters check the index against
    the length; keyed adapters always succeed; JSON adapters also reject the
    wrong variant. */
module TryInsert {
  import opened Wrappers
  import opened Collections
  import opened Json
  import Insert

  /** Why a `try_insert` failed. */
  datatype InsertError = OutOfBounds | UnsupportedContainerType

  /** The one message `Display` writes. */
  const OutOfBoundsMessage: string := "The inserted key is out of bounds"

  /** The `Display` text of an `InsertError`, as written: one message for
      both variants, whatever the variant. */
  function Display(e: InsertError): (msg: string)
    ensures msg == OutOfBoundsMessage
  {
    "The inserted key is out of bounds"
  }

  /** The `Display` text with a message per variant, each taken from the
      variant's documentation. */
  function DisplayPerVariant(e: InsertError): (msg: string)
    ensures msg == OutOfBoundsMessage <==> e.OutOfBounds?
  {
    match e
    case OutOfBounds => "The inserted key is out of bounds"
    case UnsupportedContainerType => "The container type doesn't support the attempted insert operation"
  }

  /** As written, `Display` cannot tell the variants apart; the per-variant
      text can. */
  lemma DisplayConflatesVariants()
    ensures Display(UnsupportedContainerType) == Display(OutOfBounds)
    ensures DisplayPerVariant(UnsupportedContainerType) != DisplayPerVariant(OutOfBounds)
  {
  }

  /** `try_insert` on `[V; N]` as written: the guard `len >= k` lets
      `k == N` through to the write `self[k] = v`, which then panics. */
  function ArrayTryInsertAsWritten<V>(s: seq<V>, k: nat, v: V): (o: Outcome<(Result<(), InsertError>, seq<V>)>)
    ensures o.Panics? <==> k == |s|
    ensures k < |s| ==> o == Returns((Ok(()), s[k := v]))
    ensures |s| < k ==> o == Returns((Err(OutOfBounds), s))
  {
    if |s| >= k then
      if k < |s| then Returns((Ok(()), s[k := v])) else Panics
    else
      Returns((Err(OutOfBounds), s))
  }

  /** The crate's own slice `Insert` as a call that may panic: overwrite
      slot `k`, or panic when `k >= len`. */
  function SliceInsertOutcome<V>(s: seq<V>, k: nat, v: V): (o: Outcome<seq<V>>)
    ensures o.Returns? <==> k < |s|
    ensures o.Returns? ==> o.value == s[k := v]
  {
    if k < |s| then Returns(s[k := v]) else Panics
  }

  /** `try_insert` on `[V]` as written: the same guard `len >= k`, then the
      crate's overwriting slice `insert`, which panics at `k == len`. */
  function SliceTryInsertAsWritten<V>(s: seq<V>, k: nat, v: V): (o: Outcome<(Result<(), InsertError>, seq<V>)>)
    ensures o == ArrayTryInsertAsWritten(s, k, v)
  {
    if |s| >= k then
      match SliceInsertOutcome(s, k, v)
      case Returns(t) => Returns((Ok(()), t))
      case Panics => Panics
    else
      Returns((Err(OutOfBounds), s))
  }

  /** The doc example `try_insert(&mut [0, 1], 0, 1)` on the `[V; N]`
      adapter as written: `Ok`, and slot 0 reads 1. */
  lemma ArrayDocExampleAsWritten()
    ensures ArrayTryInsertAsWritten([0, 1], 0, 1) == Returns((Ok(()), [1, 1]))
  {
    assert [0, 1][0 := 1] == [1, 1];
  }

  /** The never-panics promise fails for both fixed-length adapters, as
      written, at the index equal to the length: for `[0, 1]` and `k == 2`. */
  lemma FixedLengthTryInsertPanicsAtLength()
    ensures ArrayTryInsertAsWritten([0, 1], 2, 7).Panics?
    ensures SliceTryInsertAsWritten([0, 1], 2, 7).Panics?
  {
  }

  /** `try_insert` on `[V; N]` with the guard `k < N`: overwrite slot `k`,
      or report `OutOfBounds` and leave the array alone. Never panics. */
  method ArrayTryInsert<V>(a: array<V>, k: nat, v: V) returns (r: Result<(), InsertError>)
    modifies a
    ensures r.Ok? <==> k < a.Length
    ensures r.Ok? ==> a[..] == old(a[..])[k := v]
    ensures r.Err? ==> r.error == OutOfBounds && a[..] == old(a[..])
  {
    if k < a.Length {
      a[k] := v;
      r := Ok(());
    } else {
      r := Err(OutOfBounds);
    }
  }

  /** `try_insert` on `[V]` with the guard `k < len`, through the crate's
      slice `insert`. Never panics. */
  method SliceTryInsert<V>(a: array<V>, k: nat, v: V) returns (r: Result<(), InsertError>)
    modifies a
    ensures r.Ok? <==> k < a.Length
    ensures r.Ok? ==> a[..] == old(a[..])[k := v]
    ensures r.Err? ==> r.error == OutOfBounds && a[..] == old(a[..])
  {
    if k < a.Length {
      Insert.SliceInsert(a, k, v);
      r := Ok(());
    } else {
      r := Err(OutOfBounds);
    }
  }

  /** Away from `k == len` the as-written fixed-length adapter returns, and
      it succeeds exactly when `k < len`: the boundary the corrected guard
      keeps. */
  lemma CorrectedGuardKeepsNonPanickingCases<V>(s: seq<V>, k: nat, v: V)
    requires k != |s|
    ensures ArrayTryInsertAsWritten(s, k, v).Returns?
    ensures ArrayTryInsertAsWritten(s, k, v).value.0.Ok? <==> k < |s|
  {
  }

  /** `try_insert` on `Vec<V>`: `Ok` exactly when `k <= len`, and then a
      shifting insert; otherwise `OutOfBounds` with the vector unchanged. */
  method VecTryInsert<V>(c: Vec<V>, k: nat, v: V) returns (r: Result<(), InsertError>)
    modifies c
    ensures r.Ok? <==> k <= |old(c.elems)|
    ensures r.Ok? ==> c.elems == InsertAt(old(c.elems), k, v)
    ensures r.Err? ==> r.error == OutOfBounds && c.elems == old(c.elems)
  {
    if |c.elems| >= k {
      c.Insert(k, v);
      r := Ok(());
    } else {
      r := Err(OutOfBounds);
    }
  }

  /** `try_insert` on `VecDeque<V>`: the same boundary and effect as `Vec`. */
  method DequeTryInsert<V>(c: VecDeque<V>, k: nat, v: V) returns (r: Result<(), InsertError>)
    modifies c
    ensures r.Ok? <==> k <= |old(c.elems)|
    ensures r.Ok? ==> c.elems == InsertAt(old(c.elems), k, v)
    ensures r.Err? ==> r.error == OutOfBounds && c.elems == old(c.elems)
  {
    if |c.elems| >= k {
      c.Insert(k, v);
      r := Ok(());
    } else {
      r := Err(OutOfBounds);
    }
  }

  /** `try_insert` on `LinkedList<V>`: `split_off(k)`, `push_back(v)`,
      `append` yield the same sequence as the `Vec` adapter. */
  method ListTryInsert<V>(c: LinkedList<V>, k: nat, v: V) returns (r: Result<(), InsertError>)
    modifies c
    ensures r.Ok? <==> k <= |old(c.elems)|
    ensures r.Ok? ==> c.elems == InsertAt(old(c.elems), k, v)
    ensures r.Err? ==> r.error == OutOfBounds && c.elems == old(c.elems)
  {
    if |c.elems| >= k {
      var rest := c.SplitOff(k);
      c.PushBack(v);
      c.Append(rest);
      r := Ok(());
    } else {
      r := Err(OutOfBounds);
    }
  }

  /** `try_insert` on `BTreeMap` and `HashMap`: always `Ok`, an upsert. */
  method MapTryInsert<K, V>(c: KeyedMap<K, V>, k: K, v: V) returns (r: Result<(), InsertError>)
    modifies c
    ensures r == Ok(()) && c.entries == old(c.entries)[k := v]
  {
    var _ := c.Insert(k, v);
    r := Ok(());
  }

  /** `try_insert(k, ())` on `BTreeSet` and `HashSet`: always `Ok`, adds `k`. */
  method SetTryInsert<K>(c: KeyedSet<K>, k: K, u: ()) returns (r: Result<(), InsertError>)
    modifies c
    ensures r == Ok(()) && c.elems == old(c.elems) + {k}
  {
    var _ := c.Insert(k);
    r := Ok(());
  }

  /** `try_insert(usize, Value)` on a JSON value: on an array, the `Vec`
      behaviour including `OutOfBounds`; on any other variant
      `UnsupportedContainerType` with the value unchanged. */
  method JsonTryInsertIndex(d: Document, k: nat, v: Json) returns (r: Result<(), InsertError>)
    modifies d
    ensures !old(d.value).Array? ==> r == Err(UnsupportedContainerType) && d.value == old(d.value)
    ensures old(d.value).Array? ==> (r.Ok? <==> k <= |old(d.value).items|)
    ensures old(d.value).Array? && r.Ok? ==> d.value == Array(InsertAt(old(d.value).items, k, v))
    ensures old(d.value).Array? && r.Err? ==> r.error == OutOfBounds && d.value == old(d.value)
  {
    match d.value
    case Array(a) =>
      if |a| >= k {
        d.value := Array(InsertAt(a, k, v));
        r := Ok(());
      } else {
        r := Err(OutOfBounds);
      }
    case _ =>
      r := Err(UnsupportedContainerType);
  }

  /** `try_insert(String, Value)` on a JSON value: upsert on an object;
      `UnsupportedContainerType` with the value unchanged otherwise. */
  method JsonTryInsertKey(d: Document, k: string, v: Json) returns (r: Result<(), InsertError>)
    modifies d
    ensures old(d.value).Object? ==> r == Ok(()) && d.value == Object(old(d.value).fields[k := v])
    ensures !old(d.value).Object? ==> r == Err(UnsupportedContainerType) && d.value == old(d.value)
  {
    match d.value
    case Object(o) =>
      d.value := Object(o[k := v]);
      r := Ok(());
    case _ =>
      r := Err(UnsupportedContainerType);
  }

  /** The doc examples, `try_insert(&mut vec![], 0, s)` then `v[0] == s`
      and `try_insert(&mut [0, 1], 0, 1)` then `v[0] == 1` (here through the
      corrected array adapter), and two extra boundary cases: one index past
      the end of a `Vec` is `OutOfBounds`, and a `Null` refuses a key. */
  method TryInsertExamples() returns (vec0: int, arr0: int, past: Result<(), InsertError>, onNull: Result<(), InsertError>)
    ensures vec0 == 5 && arr0 == 1
    ensures past == Err(OutOfBounds) && onNull == Err(UnsupportedContainerType)
  {
    var v := new Vec([]);
    var r := VecTryInsert(v, 0, 5);
    assert v.elems == [5];
    vec0 := v.elems[0];
    var a := new int[2];
    a[0], a[1] := 0, 1;
    r := ArrayTryInsert(a, 0, 1);
    arr0 := a[0];
    past := VecTryInsert(v, 2, 6);
    var d := new Document(Null);
    onNull := JsonTryInsertKey(d, "a", Null);
  }
}
