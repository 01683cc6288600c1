# collectivity, modelled in Dafny

collectivity is a Rust crate of capability traits: `Get`, `Len`, `Insert`,
`TryInsert`, `Remove` and `Push`. Each trait gives one collection operation a
single shape across many containers: fixed arrays, slices, `Vec`, `VecDeque`,
`LinkedList`, `BTreeMap`/`HashMap`, `BTreeSet`/`HashSet` and JSON document
values. This project models every std and JSON adapter of those six traits and
proves what each one does.

Layout, one module per source file:

- `wrappers.dfy`: `Option`, `Result`, `Outcome` (a call's return or its panic) and `Ref` (a shared borrow `&T`).
- `collections.dfy`: the std containers the adapters call, as black boxes.
  - `Vec`, `VecDeque` and `LinkedList` are classes over a `seq`; `KeyedMap` is a class over a `map`; `KeyedSet` is a class over a `set`.
  - Each class has only the native methods the adapters use, such as `split_off`, `push_back`, `pop_front` and `append` for the list.
  - A native panic is written as a precondition.
  - The module also defines `InsertAt` and `RemoveAt`, the sequence before and after a shifting insert or remove.
- `json.dfy`: the value `Null | Bool | Num | Str | Array(seq) | Object(map)`, and a `Document` class for a value that is mutated in place.
- `get.dfy`, `len.dfy`: pure; functions and the lemmas about them.
- `insert.dfy`, `try_insert.dfy`, `remove.dfy`, `push.dfy`: imperative.
  - Each adapter is a method that takes the container object and modifies it.
  - Each method's `ensures` gives the full new contents in terms of the old contents.
  - Lemmas relate these effects back to `Get` and `Len`.

Fixed arrays `[V; N]` and slices `[V]` are both Dafny `array<V>`: neither can change length.

An `Unsafe` adapter (one that may panic) has as its `requires` exactly the condition under which the source does not panic. A `Safe` adapter has no `requires` at all. The `Remove` module gives each remove adapter its `Safety` tag as a constant.

Facts about the source that shape the model:

- The `Insert` trait in src/insert.rs:37-45 has no `Safety` associated type, so no insert adapter is tagged. The only insert tagged `Safe` in the repository is a simd-json object insert in commented-out code (src/try_insert.rs:247-259), which is not live.
- Set `remove` returns `Some(())` when the element was present, not the element itself (src/remove.rs:86-148).
- `try_insert` on arrays and slices panics at `k == len` (see Findings).

## Model

| member | source | states |
|---|---|---|
| Collections.InsertAt | src/insert.rs:23-35 | the shifting insert that `Vec::insert`/`VecDeque::insert` perform: one longer, `v` at `k`, earlier indices kept, later ones moved up by one |
| Collections.RemoveAt | src/remove.rs:44-49 | the shifting removal of `Vec::remove`: one shorter, earlier indices kept, later ones moved down by one |
| Collections.RemoveInsertedAt | src/remove.rs:19-21 | removing at `k` what was inserted at `k` restores the sequence |
| Get.SeqGet | src/get.rs:58-112 | `get(k)` on slice, array, `Vec`, `VecDeque` is `Some(s[k])` exactly when `k < len`, else `None` |
| Get.Skip | src/get.rs:121-123 | `iter().skip(k)` leaves the suffix from `k`, or nothing when `k` exceeds the length |
| Get.Next | src/get.rs:122 | `next()` yields the first remaining element, `None` when none remain |
| Get.ListGet | src/get.rs:114-124 | linked-list `get` by traversal equals sequence indexing |
| Get.MapGet | src/get.rs:126-160 | `BTreeMap`/`HashMap` `get(&k)` is `Some(m[k])` exactly when `k` is a key |
| Get.SetGet | src/get.rs:138-172 | `BTreeSet`/`HashSet` `get(&k)` returns the stored element `k` exactly when present |
| Get.JsonGetKey | src/get.rs:198-212 | JSON `get(&str)` finds something exactly when the value is an `Object` holding the key, and then the field's value |
| Get.JsonGetIndex | src/get.rs:214-228 | JSON `get(usize)` finds something exactly when the value is an `Array` and the index is in range, and then that element |
| Get.Contains | src/get.rs:31-33 | the default `contains` is true exactly when the implementer's `get` is not `None` |
| Get.GetByRef | src/get.rs:47-56 | the blanket `Get<&usize>` answers with `Get<usize>` on the dereferenced index |
| Get.ContainsMeansPresent | src/get.rs:30-33 | the default `contains`, `get(k).is_some()`, is each family's membership test: index below length, key in map, element in set, JSON variant and key or index |
| Get.GetByRefForwards | src/get.rs:47-56 | the blanket `Get<&usize>` returns what `Get<usize>` returns on the dereferenced index |
| Get.GetExamples | src/get.rs:307-392 | the unit tests: `get` on empty slices, arrays, deques, lists, maps and sets is `None`; `[0,1].get(1)`, `[0;1].get(0)`, `vec![10].get(0)` find the element; `Null.get("")` is `None`; `Array([Bool(true)]).get(0)` is `Some(Bool(true))` |
| Len.ArrayLen | src/len.rs:14-24 | slice and array `len` is the element count: exactly the indices below it hold an element |
| Len.SeqLen | src/len.rs:26-44 | `Vec`, `VecDeque`, `LinkedList` `len`: exactly the indices below it hold an element |
| Len.MapLen | src/len.rs:53-72 | `BTreeMap`/`HashMap` `len` is the number of keys, and 0 only for the empty map |
| Len.SetLen | src/len.rs:60-79 | `BTreeSet`/`HashSet` `len` is 0 only for the empty set |
| Len.LenByRef | src/len.rs:8-12 | the `&L` impl's `len` is the borrowed container's `len` |
| Len.JsonLen | src/len.rs:95-126 | JSON `len` is the array length on `Array`, the key count on `Object`, 0 on every scalar variant |
| Len.SeqLenCountsIndices | src/len.rs:14-44 | sequence `len` is the element count: exactly the indices below it hold an element, for indexing and list traversal alike |
| Len.KeyedLenCountsKeys | src/len.rs:53-79 | map and set `len` is the number of keys or elements, which are exactly what `get` finds |
| Len.JsonLenBoundsGet | src/len.rs:95-104 | on a JSON array `len` bounds exactly the indices `get` finds; a scalar has `len` 0 and `get` finds nothing in it |
| Len.LenByRefForwards | src/len.rs:8-12 | the `&L` forwarding `len` equals the underlying `len` |
| Insert.SliceInsert | src/insert.rs:62-75 | slice/array `insert` requires `k < len` and overwrites slot `k` only; length and every other slot are unchanged |
| Insert.VecInsert | src/insert.rs:77 | `Vec` `insert` requires `k <= len` and yields `s[..k] + [v] + s[k..]` |
| Insert.DequeInsert | src/insert.rs:79-80 | `VecDeque` `insert` requires `k <= len` and yields `s[..k] + [v] + s[k..]` |
| Insert.ListInsert | src/insert.rs:82-93 | linked-list `split_off(k)`, `push_back(v)`, `append` yields exactly `s[..k] + [v] + s[k..]` |
| Insert.MapInsert | src/insert.rs:95-126 | `BTreeMap`/`HashMap` `insert` is the upsert `m[k := v]` with no precondition |
| Insert.SetInsert | src/insert.rs:106-137 | `BTreeSet`/`HashSet` `insert(k, ())` adds `k` with no precondition |
| Insert.JsonInsertKey | src/insert.rs:164-194 | JSON `insert(String, v)` requires the `Object` variant (panics otherwise) and upserts the field |
| Insert.OverwriteThenGet | src/insert.rs:72-74 | after an overwrite `get(k)` is `Some(v)`, every other index reads as before, the length is kept |
| Insert.InsertAtThenGet | src/insert.rs:30-32 | after a shifting insert `get(k)` is `Some(v)`, lower indices read as before and higher ones read their predecessor |
| Insert.UpsertThenGet | src/insert.rs:95-178 | after a map, set or JSON-object insert, `get(k)` returns `v` (for sets `k`) and every other key reads as before |
| Insert.ListInsertOrder | src/insert.rs:233-239 | the test `insert(0,1); insert(1,2); insert(1,3)` on an empty list gives `[1, 3, 2]` |
| Insert.InsertExamples | src/insert.rs:219-283 | the unit tests: `[0,1,2]` after `insert(0,1)` reads 1 at slot 0; inserting at 0 into an empty `Vec`/`VecDeque`; map `m[&0] == 1`; set `get(&0) == Some(&0)`; JSON object `"a" -> Null` then `get("a") == Some(Null)` |
| TryInsert.Display | src/try_insert.rs:47-51 | as written, `Display` gives the out-of-bounds message whatever the variant |
| TryInsert.DisplayPerVariant | src/try_insert.rs:37-51 | an `InsertError` text per variant, from the variants' documentation: the written message exactly for `OutOfBounds` |
| TryInsert.DisplayConflatesVariants | src/try_insert.rs:47-51 | as written, `Display` gives both variants the same message |
| TryInsert.ArrayTryInsertAsWritten | src/try_insert.rs:62-70 | as written, `[V; N]` `try_insert` panics exactly at `k == N`; for `k < N` it overwrites slot `k` only; for `k > N` it is `Err(OutOfBounds)` with nothing changed |
| TryInsert.SliceInsertOutcome | src/insert.rs:72-74 | the crate's slice `insert` returns the overwritten slice exactly when `k < len` and panics otherwise |
| TryInsert.SliceTryInsertAsWritten | src/try_insert.rs:72-80 | as written, `[V]` `try_insert`, its guard followed by the overwriting slice `insert`, behaves exactly like the array one, panic at `k == len` included |
| TryInsert.ArrayDocExampleAsWritten | src/try_insert.rs:28-30 | the doc example on `[0, 1]` through the `[V; N]` adapter as written: `try_insert(0, 1)` is `Ok` and slot 0 reads 1 |
| TryInsert.FixedLengthTryInsertPanicsAtLength | src/try_insert.rs:62-80 | concrete counterexample: `[0, 1]` with `k == 2` panics in both fixed-length adapters |
| TryInsert.ArrayTryInsert | src/try_insert.rs:62-70 | with the guard `k < N`: total; `Ok` exactly when `k < N` and then only slot `k` changes; otherwise `Err(OutOfBounds)` with the array unchanged |
| TryInsert.SliceTryInsert | src/try_insert.rs:72-80 | with the guard `k < len`, through the slice `insert`: same total contract as the array adapter |
| TryInsert.CorrectedGuardKeepsNonPanickingCases | src/try_insert.rs:64-67 | away from `k == len` the as-written adapter does not panic and succeeds exactly when `k < len`, as the corrected one does |
| TryInsert.VecTryInsert | src/try_insert.rs:82-90 | `Vec` `try_insert` is `Ok` iff `k <= len`, then `s[..k] + [v] + s[k..]`; otherwise `Err(OutOfBounds)` with the vector unchanged |
| TryInsert.DequeTryInsert | src/try_insert.rs:92-101 | `VecDeque` `try_insert`: the same boundary and effect as `Vec` |
| TryInsert.ListTryInsert | src/try_insert.rs:103-115 | linked-list `try_insert` by split/push/append: the same boundary and the same resulting sequence as `Vec` |
| TryInsert.MapTryInsert | src/try_insert.rs:117-139 | `BTreeMap`/`HashMap` `try_insert` is always `Ok` and the map becomes `m[k := v]` |
| TryInsert.SetTryInsert | src/try_insert.rs:125-147 | `BTreeSet`/`HashSet` `try_insert` is always `Ok` and `k` is added |
| TryInsert.JsonTryInsertIndex | src/try_insert.rs:171-219 | JSON `try_insert(usize)`: on a non-`Array` `Err(UnsupportedContainerType)` with the value unchanged; on an `Array` the `Vec` behaviour, `OutOfBounds` included |
| TryInsert.JsonTryInsertKey | src/try_insert.rs:188-199 | JSON `try_insert(String)`: upsert and `Ok` on `Object`; `Err(UnsupportedContainerType)` with the value unchanged otherwise |
| TryInsert.TryInsertExamples | src/try_insert.rs:8-31 | the doc examples, insert at 0 into an empty `Vec` and at 0 into `[0, 1]` (through the corrected array adapter), both read back; and two extra cases: past the end of a `Vec` is `OutOfBounds`, a `Null` refuses a key with `UnsupportedContainerType` |
| Remove.VecRemove | src/remove.rs:44-49 | `Vec` `remove(k)` (Unsafe) requires `k < len`, returns `Some(s[k])` and leaves `s[..k] + s[k+1..]` |
| Remove.DequeRemove | src/remove.rs:51-57 | `VecDeque` `remove(k)` (Safe) is total: `None` with nothing changed when `k >= len`, otherwise the `Vec` behaviour |
| Remove.ListRemoveAsWritten | src/remove.rs:59-68 | as written, linked-list `remove(k)` requires `k <= len`; at `k = 0` it returns `None` with the list unchanged, else it removes and returns the head |
| Remove.ListRemove | src/remove.rs:26-35 | popping the front of the split-off tail instead: removes element `k` and returns `Some(s[k])`, `None` with no change at `k == len` |
| Remove.ListRemoveCounterexample | src/remove.rs:19-21 | on `[1, 2, 3]` with `remove(1)`, the list adapter as written returns 1 and leaves `[2, 3]`; the corrected one and the `Vec` adapter return 2 and leave `[1, 3]` |
| Remove.MapRemove | src/remove.rs:78-84 | owned-key map `remove`: `Some(m[k])` and the key removed when present, `None` and no change when absent |
| Remove.MapRemoveByRef | src/remove.rs:70-76 | borrowed-key map `remove`: the same result and effect as the owned-key one |
| Remove.SetRemove | src/remove.rs:98-108 | owned-key set `remove`: `Some(())` exactly when `k` was present; `k` absent afterwards |
| Remove.SetRemoveByRef | src/remove.rs:86-96 | borrowed-key set `remove`: the same as the owned-key one |
| Remove.JsonRemoveKey | src/remove.rs:188-197 | JSON `remove(&str)` requires `Object` (panics otherwise), returns the field if present and removes it |
| Remove.JsonRemoveIndex | src/remove.rs:199-208 | JSON `remove(usize)` requires `Array` and `k < len` (panics otherwise), returns `Some(a[k])` and shifts the rest down |
| Remove.RemoveAtThenGet | src/remove.rs:44-49 | after removing index `k`, lower indices read as before and every higher index reads its successor |
| Remove.InsertRemoveGet | src/remove.rs:70-148 | keyed round trip: after `insert(k, v)`, `remove(k)` gives `Some(v)` and `get(k)` is then `None`; the same for sets |
| Remove.RemoveAbsentKeyKeeps | src/remove.rs:29 | removing an absent key leaves the map or set unchanged |
| Push.VecPush | src/push.rs:13-17 | `Vec` `push(v)` yields `s + [v]` |
| Push.DequePush | src/push.rs:19-24 | `VecDeque` `push` is `push_back`, `s + [v]` |
| Push.ListPush | src/push.rs:26-31 | `LinkedList` `push` is `push_back`, `s + [v]` |
| Push.JsonPush | src/push.rs:36-73 | JSON `push` requires the `Array` variant (panics otherwise) and appends |
| Push.PushThenGet | src/push.rs:13-31 | a push adds exactly one to `len`, puts `v` at the old length and keeps every earlier element at its index |
| Push.JsonPushThenGet | src/push.rs:36-46 | on a JSON array a push adds one to `len` and `get` finds the value at the old length |
| Push.PushOrder | src/push.rs:13-17 | pushing 0 then 1 onto an empty `Vec` gives `get(0) == Some(0)` and `get(1) == Some(1)` |

## Left out

- DashMap/DashSet adapters are not modelled, nor their internal locking and sharding. Their insert, get and len match the ordinary map and set adapters, but DashSet `remove` returns `Option<K>` (src/remove.rs:170-183), not `Some(())`.
- SmallVec and Slab adapters: external crates. Slab's `push` takes an arbitrary free slot.
- The `BinaryHeap` `len` adapter: `BinaryHeap` is not modelled.
- The `&mut T` forwarding impls of `TryInsert`, `Insert`, `Remove` and `Push` (src/try_insert.rs:56-60, src/insert.rs:47-60, src/remove.rs:37-42, src/push.rs:8-12): there is nothing to model. A Dafny object is already a reference, so the adapter method applied to the borrowed object is the model. The forwarded `Safety` is the underlying one.
- The `nosafety` re-derivations are not modelled. Each is a one-line forwarding. `nosafety::Insert` expects an `Insert<K, V>` that the current `Insert` trait no longer is.
- Lifetimes and generic associated types: the model returns values. It does not distinguish a borrowed result from an owned one.
- Integer width: indices and lengths are `nat`. The capacity-overflow panics of `Vec::insert` and `push` are not modelled.
- JSON number payloads are an abstract type. simd-json's static nodes are the `Null`/`Bool`/`Num` variants, and its borrowed and owned values share one model with `serde_json::Value`.
- Map and set iteration order and hashing are not modelled: `BTreeMap`/`HashMap` share `KeyedMap`, and `BTreeSet`/`HashSet` share `KeyedSet`.
- Get.SetGet: returns `k` itself rather than the stored element equal to `k`; under Dafny's equality the two are the same value, so a stored element distinct from but equal to `k` is not represented.
- `InsertError`'s `Debug` and `std::error::Error` impls, and the `Formatter` plumbing of `Display`, are not modelled: `Display` is just the message string.
- Panics inside `Unsafe` adapters are preconditions, not values. `Outcome.Panics` appears only where the code panics despite its own never-panics contract.
- Commented-out code is not live and is not modelled.

## Findings

| source | as written | input that shows it | evidently intended | confidence | as-written member | corrected member |
|---|---|---|---|---|---|---|
| src/remove.rs:63-66 | splits at `k`, then pops the front of the part before `k` | `[1, 2, 3]`, `remove(1)` returns `Some(1)` and leaves `[2, 3]`; `remove(0)` returns `None` | pop the front of the split-off tail, removing element `k` as the trait doc at src/remove.rs:29 promises | high (not executed) | Remove.ListRemoveAsWritten, Remove.ListRemoveCounterexample | Remove.ListRemove |
| src/try_insert.rs:64-65 | guard `len >= k`, then `self[k] = v` on `[V; N]` | `[0, 1]`, `k == 2`: the guard passes and the write is out of bounds, a panic in a never-panicking trait | guard `k < N`, `OutOfBounds` otherwise | high (not executed) | TryInsert.ArrayTryInsertAsWritten, TryInsert.FixedLengthTryInsertPanicsAtLength | TryInsert.ArrayTryInsert |
| src/try_insert.rs:74-75 | guard `len >= k`, then the crate's overwriting slice `insert` (src/insert.rs:72-74) on `[V]` | `[0, 1]`, `k == 2`: panics inside `self[k] = v` | guard `k < len`, `OutOfBounds` otherwise | high (not executed) | TryInsert.SliceTryInsertAsWritten, TryInsert.FixedLengthTryInsertPanicsAtLength | TryInsert.SliceTryInsert |
| src/try_insert.rs:47-51 | `Display` writes "The inserted key is out of bounds" for every variant | `UnsupportedContainerType` is displayed as an out-of-bounds error | a message per variant, as each variant's documentation describes | medium (not executed) | TryInsert.Display, TryInsert.DisplayConflatesVariants | TryInsert.DisplayPerVariant |
