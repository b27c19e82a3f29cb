# ReactiveTwoFieldCollection, modelled in Dafny

`reactive::ReactiveTwoFieldCollection` is a header-only C++ container. Each
element has two observable fields, and the container keeps two running
totals over all live elements. A total is either additive or the minimum or
maximum of an extracted value:

- An additive total is folded from per-transition deltas by an apply functor.
- A Min/Max total is read from an ordered value→count map.

Elements get monotonically increasing ids. A collection configured with a
key type also keeps a key→id index. Each element has a change subscription
(its "monitor"). Writing one of the element's field cells runs that
subscription's callback, which brings the totals up to date.

This project models that container with locking and the reactive substrate
stripped away. The state is one immutable record and every public call is a
pure function on it:

| Dafny | C++ |
|---|---|
| `State.elems` | `elems_` (id → snapshot `lastElem1`/`lastElem2` and key) |
| `State.monitors` | the ids with an open subscription in `monitors_` |
| `State.keyIdx` | `key_index_` |
| `State.idx1`/`idx2` | the count-maps `idx1_`/`idx2_` |
| `State.total1`/`total2` | the values of the total cells |
| `State.nextId` | `nextId_` |
| `Config` | the template and constructor configuration: modes, delta/apply/extract functors (shipped ones or a custom function), `combined_atomic`, key type |
| `Push`, `PushBatch` | `push_one` / `push_back` (single and batch) |
| `Erase`, `EraseByKey`, `FindByKey`, `Clear`, `Size`, `IsEmpty` | the operations of the same names |
| `Update(id, new1, new2)` | the body of the monitor callback, run when a field cell of `id` is written |
| `ApplyPair` | `apply_pair` with `apply_total1/2` |
| `Insert`, `EraseOne`, `Top` | `insert_index*`, `erase_one_index*`, `top_index*` |
| `Notice` | one write to the total cells, as observers see it |

The types are fixed to the header's defaults:

- field 1 is `real` (the header's `double`);
- field 2 is `int` (`long`);
- total 1 is `int` (`Total1T = Elem2T`);
- total 2 is `real`.

Arithmetic is exact.

The invariant `Invariants.Valid` ties the caches to the live records:

- additive totals equal a fold over the live records;
- each count-map holds, for every value, the number of live records that extract it;
- each Min/Max total is its count-map's extreme;
- monitors are exactly the live ids;
- every key-index entry names a live record carrying that key;
- every live id is below `nextId`.

`Valid` covers the shipped or no-op delta and apply functors on additive
totals. Under that condition every operation preserves `Valid`, with one
exception: `clear()` on a non-empty collection does not when either total
is Min or Max. That is the finding below.

Three details of the header shape the model:

- On the non-combined path `apply_pair` writes a Min/Max total on every
  call, even when its value is unchanged. Only the combined-atomic path
  compares against the current value and skips unchanged totals
  (`Aggregates.ApplyPairPublication`).
- `erase_one_index` of a value that is not in the count-map does nothing
  (`CountMap.EraseOne`).
- `erase` applies the current→neutral transition first, then drops the key
  and closes the subscription. The model follows that order.

## Model

| member | source | states |
|---|---|---|
| Base.Emplace | reactive_two_field_collection.h:540-542 | emplace never overwrites: an existing key keeps its value, a new key gets the given one, every other entry is kept |
| CountMap.Insert | reactive_two_field_collection.h:404-406 | the count of v goes up by one (creating the entry), every other count is unchanged, v is a key afterwards |
| CountMap.EraseOne | reactive_two_field_collection.h:407-412 | an absent value changes nothing; otherwise its count goes down by one and the entry disappears exactly when the count was 1; other counts unchanged |
| CountMap.Top | reactive_two_field_collection.h:413-417 | nothing exactly when the count-map is empty; otherwise the key that comes first under the order (least for Min, greatest for Max) |
| CountMap.TopIsTop | reactive_two_field_collection.h:447-449 | the value a total takes from its count-map is the leading key, or the default value when the map is empty |
| CountMap.TopUnique | reactive_two_field_collection.h:413-417 | a count-map has only one extreme |
| CountMap.LeaderExists | reactive_two_field_collection.h:415-416 | every non-empty finite set of values has a first element under a strict total order, so begin()/rbegin() always exist |
| CountMap.CountExt | reactive_two_field_collection.h:611-612 | count-maps that agree on every value's count are equal |
| Functors.Delta1 | reactive_two_field_collection.h:35-43 | the default total-1 delta is the change in the default extracted value (field 2), zero when field 2 is unchanged; the no-op delta (75-81) is zero |
| Functors.Delta2 | reactive_two_field_collection.h:45-54 | the default total-2 delta is the change in the default extracted value (field1*field2), zero when neither field changes; the no-op delta is zero |
| Functors.Apply1 | reactive_two_field_collection.h:56-64 | the default apply adds the delta and always reports a change; the no-op apply (83-90) keeps the total and reports none |
| Functors.Apply2 | reactive_two_field_collection.h:56-64 | the same for total 2 |
| Functors.Extract1 | reactive_two_field_collection.h:98-103 | the default total-1 extractor yields field 2 |
| Functors.Extract2 | reactive_two_field_collection.h:105-110 | the default total-2 extractor yields the product field2*field1: zero when either field is zero, field 2 when field 1 is 1 |
| Functors.ShippedDelta1Telescopes | reactive_two_field_collection.h:35-43 | the shipped and no-op total-1 deltas are path-independent (a→c = a→b + b→c) and zero on a no-change transition |
| Functors.ShippedDelta2Telescopes | reactive_two_field_collection.h:45-54 | the same for total 2's deltas (field1*field2 differences) |
| Collection.Init | reactive_two_field_collection.h:166-177 | a new collection is empty, totals at the default value, first id 1 |
| Collection.Size | reactive_two_field_collection.h:339-351 | size() is the number of stored elements, zero exactly when none is stored |
| Collection.IsEmpty | reactive_two_field_collection.h:352-364 | empty() is true exactly when no element is stored |
| Collection.IndexSide | reactive_two_field_collection.h:444-449 | Min/Max half of apply_pair: counts lose the old value (if indexed) and gain the new one, the total becomes the extreme, and it is written unconditionally on the non-combined path and only when it changed on the combined path (479-483) |
| Collection.ApplyPair | reactive_two_field_collection.h:435-507 | apply_pair touches only the count-maps and totals: elements, monitors, key index and next id are unchanged |
| Collection.StoredKey | reactive_two_field_collection.h:150-151 | a record has a key exactly when the collection has a key type; a given key is stored as is, and a missing one becomes the key type's default value |
| Collection.BatchKey | reactive_two_field_collection.h:205-209 | the batch push's i-th key is keys[i] when a key vector is given and has an i-th entry, otherwise none (so the default key) |
| Collection.Admit | reactive_two_field_collection.h:531-542 | push's first half: the next id is consumed and a fresh id gets the new record; totals and count-maps untouched |
| Collection.Push | reactive_two_field_collection.h:531-597 | push returns the current next id and increments it, opens its subscription, stores the record (size +1), and indexes the key only if it is not indexed yet |
| Collection.PushFrom | reactive_two_field_collection.h:203-211 | pushing pairs in vector order issues consecutive ids, one per pair |
| Collection.PushStep | reactive_two_field_collection.h:204-211 | one pair of a batch: the next id advances by one and gets the pair with its batch key, and that key is emplaced in the key index |
| Collection.PushFromRecords | reactive_two_field_collection.h:203-211 | after pushing pairs i.. in order every earlier record is kept, pair j is stored under the j-th new id with its batch key, nothing else is added; existing key mappings are kept, every batch key is indexed, a new key names the first pair carrying it, and no other key appears |
| Collection.PushBatch | reactive_two_field_collection.h:200-213 | an empty vector changes nothing; otherwise ids are consecutive from the next id, one per pair, each pair is stored under its id with its batch key while every earlier record is kept, and the key index gains each new batch key pointing at its first holder |
| Collection.Erase | reactive_two_field_collection.h:216-241 | absent id: nothing changes and nothing is published; otherwise the record, its subscription and its key's index entry are removed, size drops by one, next id kept |
| Collection.FindByKey | reactive_two_field_collection.h:252-273 | an id exactly when the key index holds the key, and then that id |
| Collection.EraseByKey | reactive_two_field_collection.h:243-250 | an unindexed key changes nothing; otherwise it is erase of the id the index names |
| Collection.Update | reactive_two_field_collection.h:561-594 | a change for an id no longer stored is ignored; otherwise the snapshot becomes (new1, new2) and the element set, key index, monitors and next id are unchanged |
| Collection.EmptiedSides | reactive_two_field_collection.h:413-417 | a Min/Max half of apply_pair over an empty count-map with no value change leaves it empty and the total at its default value |
| Collection.Clear | reactive_two_field_collection.h:366-386 | as written: empty collection is a no-op; otherwise elements, monitors and (keyed) key index end empty and the count-maps are left as they were |
| Collection.ClearCorrected | reactive_two_field_collection.h:366-386 | corrected: as clear() but the Min/Max count-maps are emptied too, so those totals fall back to the default value |
| Aggregates.ApplyPairAdditive | reactive_two_field_collection.h:509-529 | additive total: with DefaultApplyAdd it becomes total + delta and is written; when any apply reports a change the total is the functor's result (515-516, 476); when the apply reports no change it keeps its value and is not written; the count-map is untouched |
| Aggregates.ApplyPairIndexed | reactive_two_field_collection.h:444-459 | Min/Max total: old value removed before the new one is inserted, then the total is the count-map's extreme or the default value |
| Aggregates.ApplyPairPublication | reactive_two_field_collection.h:441-507 | notices carry final values; non-combined: one notice per written total, Min/Max always written; combined: at most one notice, none when neither total changed, a Min/Max total in it exactly when it changed, an additive one exactly when its apply reported a change |
| Aggregates.PublishWrites | reactive_two_field_collection.h:441-506 | each notice carries the freshly computed values; a total is written exactly when its half asks for it; non-combined notices write one total each; the combined path raises at most one, and none when neither half asks |
| Invariants.InitValid | reactive_two_field_collection.h:166-177 | a new collection satisfies every invariant |
| Invariants.ApplyPairAgrees1 | reactive_two_field_collection.h:435-450 | if the delta (Add) or the extracted-value change (Min/Max) is the exact difference to a new record set, total 1 agrees with that set after apply_pair |
| Invariants.ApplyPairAgrees2 | reactive_two_field_collection.h:452-460 | the same for total 2 |
| Invariants.PushTracks1 | reactive_two_field_collection.h:544-554 | after push total 1 still agrees with the live records (neutral→initial delta added, new extracted value inserted) |
| Invariants.PushTracks2 | reactive_two_field_collection.h:544-554 | the same for total 2 |
| Invariants.PushKeys | reactive_two_field_collection.h:542 | after push every key-index entry still names a live record carrying that key |
| Invariants.IdsAfterAdd | reactive_two_field_collection.h:532-539 | storing one record under the next id and advancing it keeps the id bounds and subscriptions and grows the size by one |
| Invariants.PushIds | reactive_two_field_collection.h:532 | the new id is not live before, is live after, stays below the next id, and size grows by one |
| Invariants.PushValid | reactive_two_field_collection.h:531-597 | push keeps every invariant and issues an id above every live id |
| Invariants.PushFromValid | reactive_two_field_collection.h:203-211 | pushing a batch one pair at a time keeps every invariant, adds one element per pair and keeps existing records |
| Invariants.PushBatchValid | reactive_two_field_collection.h:200-213 | batch push keeps every invariant, grows by the number of pairs, issues only new ids, keeps existing records |
| Invariants.LiveIndexed1 | reactive_two_field_collection.h:445-446 | in Min/Max mode every live record's extracted value is in count-map 1 |
| Invariants.LiveIndexed2 | reactive_two_field_collection.h:455-456 | the same for count-map 2 |
| Invariants.UnkeyedIndexEmpty | reactive_two_field_collection.h:163 | a collection without a key type holds no key mappings |
| Invariants.EraseTracks1 | reactive_two_field_collection.h:222-234 | after erase total 1 agrees with the remaining records (current→neutral delta, old extracted value removed) |
| Invariants.EraseTracks2 | reactive_two_field_collection.h:222-234 | the same for total 2 |
| Invariants.EraseKeys | reactive_two_field_collection.h:236 | after erase every key-index entry still names a live record with that key |
| Invariants.EraseIds | reactive_two_field_collection.h:238-240 | after erase the monitors are exactly the live ids and ids stay below the next id |
| Invariants.EraseValid | reactive_two_field_collection.h:216-241 | erase keeps every invariant |
| Invariants.EraseByKeyValid | reactive_two_field_collection.h:243-250 | erase_by_key keeps every invariant |
| Invariants.UpdateTracks1 | reactive_two_field_collection.h:570-591 | after a change notification total 1 agrees with the records (snapshot delta, old value out before new in) |
| Invariants.UpdateTracks2 | reactive_two_field_collection.h:570-591 | the same for total 2 |
| Invariants.UpdateKeys | reactive_two_field_collection.h:584-585 | a change notification keeps key coherence, id bounds and subscriptions |
| Invariants.UpdateValid | reactive_two_field_collection.h:561-594 | a change notification keeps every invariant |
| Invariants.RemovalCancels1 | reactive_two_field_collection.h:370-378 | the summed removal deltas bring an additive total 1 back to exactly its initial value |
| Invariants.RemovalCancels2 | reactive_two_field_collection.h:370-378 | the same for total 2 |
| Invariants.ClearTracks1 | reactive_two_field_collection.h:366-386 | with total 1 additive, clear() leaves total 1 agreeing with the empty collection |
| Invariants.ClearTracks2 | reactive_two_field_collection.h:366-386 | with total 2 additive, clear() leaves total 2 agreeing with the empty collection |
| Invariants.ClearValid | reactive_two_field_collection.h:366-386 | with both totals additive, clear() keeps every invariant and leaves size 0 |
| Invariants.ClearLeavesStaleIndex | reactive_two_field_collection.h:378-385 | in Min/Max mode clear() of a non-empty collection leaves a non-empty count-map, so total 1 no longer agrees with the now-empty collection |
| Invariants.ClearLeavesStaleIndex2 | reactive_two_field_collection.h:378-385 | the same for count-map 2 and total 2 |
| Invariants.ClearCorrectedTracks1 | reactive_two_field_collection.h:366-386 | the corrected clear() leaves total 1 agreeing with the empty collection in every mode |
| Invariants.ClearCorrectedTracks2 | reactive_two_field_collection.h:366-386 | the same for total 2 |
| Invariants.ClearCorrectedValid | reactive_two_field_collection.h:366-386 | the corrected clear() keeps every invariant in every mode and leaves size 0 |
| Properties.ExtremeOfLive1 | reactive_two_field_collection.h:413-417 | a Min/Max total 1 is attained by a live element and is ≤ (Min) or ≥ (Max) every live extracted value; default value when empty |
| Properties.ExtremeOfLive2 | reactive_two_field_collection.h:428-432 | the same for total 2 |
| Properties.RemovalExtreme1 | reactive_two_field_collection.h:407-417 | of two valid states one record apart, the smaller keeps total 1 when another record also holds the extreme, and, when at least one other record remains, only then |
| Properties.RemovalExtreme2 | reactive_two_field_collection.h:422-432 | the same for total 2 |
| Properties.EraseExtreme1 | reactive_two_field_collection.h:222-234 | erasing leaves a Min/Max total 1 unchanged when another live element holds the same extreme (duplicates are counted), and, when at least one other element remains, only then |
| Properties.EraseExtreme2 | reactive_two_field_collection.h:222-234 | the same for total 2 |
| Properties.UpdateToSnapshotKeepsState | reactive_two_field_collection.h:570-591 | a change notification carrying the snapshot's own values leaves the whole state unchanged |
| Properties.SnapshotSide1 | reactive_two_field_collection.h:570-591 | a snapshot-valued notification leaves total 1 and its count-map as they were: zero delta, or the same value removed and re-inserted |
| Properties.SnapshotSide2 | reactive_two_field_collection.h:570-591 | the same for total 2 |
| Properties.FindByKeySound | reactive_two_field_collection.h:252-273 | every answer of find_by_key is a live element carrying the key |
| Properties.FindAfterPush | reactive_two_field_collection.h:542 | after pushing with key k, find_by_key(k) is the new id if k was not indexed, otherwise the earlier answer |
| Properties.EraseDuplicateHidesFirst | reactive_two_field_collection.h:236 | erasing the second holder of a key drops the index entry of the first holder, which stays live but is no longer found |
| Properties.EraseByKeyRemovesFound | reactive_two_field_collection.h:243-250 | erase_by_key removes exactly the indexed element, leaves the key unfound, and changes nothing for an unindexed key |
| Properties.PushAdds | reactive_two_field_collection.h:544-554 | with the shipped functors push adds field2 to total 1 and field1*field2 to total 2 |
| Properties.UpdateShifts | reactive_two_field_collection.h:570-571 | a change notification moves the summing totals by new contribution minus snapshot contribution |
| Properties.EraseSubtracts | reactive_two_field_collection.h:227-230 | erase subtracts the element's contribution from the summing totals |
| Properties.PushFromAdds | reactive_two_field_collection.h:203-211 | pushing pairs one by one adds their summed contributions |
| Properties.PushBatchAdds | reactive_two_field_collection.h:200-213 | batch push adds the pairs' summed contributions |
| Traces.Exec | reactive_two_field_collection.h:531-532 | one public call issues consecutive ids from the next id, and only pushes issue ids |
| Traces.Run | reactive_two_field_collection.h:532 | any sequence of calls issues consecutive ids from the first next id, in issue order |
| Traces.ExecValid | reactive_two_field_collection.h:186-386 | every public call keeps the invariants; a clear() only when both totals are additive |
| Traces.RunValid | reactive_two_field_collection.h:186-386 | any sequence of public calls keeps the invariants, provided every clear() in it happens with both totals additive |
| Traces.ExecClearBreaksExtreme | reactive_two_field_collection.h:366-386 | that proviso is needed: clear() on a non-empty valid collection with a Min/Max total (either one) leaves a state that breaks the invariants |
| Traces.RunIssuesFreshIds | test_lock_free.cpp:155-164 | ids issued by any sequence of calls are strictly increasing, at least 1 and never those of a live element: no duplicates |
| Scenarios.Shipped | reactive_two_field_collection.h:112-125 | the default template arguments: additive totals with the shipped functors |
| Scenarios.MinOfField2 | reactive_two_field_collection.h:122 | a Min-of-field-2 configuration |
| Scenarios.DemoTotals | main.cpp:27-57 | the demo's sequence yields totals 13/19.5, 15/27.5, 18/37.5 and 8/22.5 |
| Scenarios.SizeLifecycle | test_lock_free.cpp:100-115 | sizes 0, 1, 2, 1, 0 and empty() at both ends over push, push, erase, erase |
| Scenarios.MinWithDuplicates | reactive_two_field_collection.h:403-432 | Min over 5, 3, 3 is 3, stays 3 after erasing one 3, becomes 5 after erasing the other |
| Scenarios.ClearStaleMinimum | reactive_two_field_collection.h:366-386 | as written: push 7, clear(), push 9 — the empty collection reports 7 and the later minimum reads 7 though the only element has 9 |
| Scenarios.ClearCorrectedFreshMinimum | reactive_two_field_collection.h:366-386 | corrected: the same calls give 0 after clear and 9 after the push |

## Left out

- The `reaction::` substrate (`Var`, `action`, `batchExecute`, observer scheduling). Field cells are represented by each element's snapshot. A cell write is the explicit `Update` call, and a total-cell write is a `Notice`. How `batchExecute` coalesces the notifications of a batch push is not modelled.
- Whether the substrate runs a new action once at creation. If it does, that run is an `Update` with the snapshot's own values, which `Properties.UpdateToSnapshotKeepsState` shows leaves the state unchanged.
- Mutexes, the coarse/fine lock choice, `lock_public`/`maybe_lock` and the per-total and combined mutexes. The model is sequential.
- Collection.EraseByKey: with the coarse lock on, `erase_by_key` holds `coarse_mtx_` (:246) and then calls `erase`, which locks the same non-recursive `std::mutex` again (:217). That self-deadlock is undefined behaviour. The model simply returns, so its contract describes only the lock-free configuration.
- IEEE `double` rounding in the shipped deltas and extractors. Arithmetic is exact.
- The `size_t` width of ids and counts. `nextId` and the counts are unbounded, so wrap-around after 2^64 pushes is not modelled.
- Template types other than the defaults. Field and total types are fixed to `real`/`int`/`int`/`real`.
- Iterators, `elem1Var`/`elem2Var`, `total*Var`, the `MapType` parameter and `find_by_key_linear`. These are access plumbing or a duplicate lookup.
- Invariants.Valid: a custom delta or apply functor on an additive total is allowed by the operations but excluded from the invariant, because a custom total has no closed form over the live records.
- Invariants.Valid: the statement "Σ counts = number of live elements" is not stated separately. The invariant already fixes each value's count to its exact number of live occurrences, which is stronger.
- The `long` width of field 2 and total 1. Both are unbounded integers here. Signed overflow in the default delta `new2 - last2` (:41) and in `total1_ += d` (:511) is undefined behaviour in C++ and is not modelled.
- Traces.ExecValid: the invariants are promised for a `clear()` only when both totals are additive. A clear with a Min/Max total breaks them (`Traces.ExecClearBreaksExtreme`); see the finding below.
- Traces.RunValid: the same proviso holds for every `clear()` in the sequence.
- Functors.Extract2: the default extractor's product is stated through its zero and unit cases and through `Functors.Delta2`, not as a closed formula.
- Collection.ApplyPair: its contract states only the frame. The arithmetic, count-map and publication behaviour is stated by the three `Aggregates` lemmas about it.

## Findings

| source | as written | input that shows it | evidently intended | confidence | as-written member | corrected member |
|---|---|---|---|---|---|---|
| reactive_two_field_collection.h:366-386 | `clear()` empties the elements, monitors and key index but never the count-maps `idx1_`/`idx2_`, and `apply_pair` is called with no extracted-value changes. A Min/Max total therefore keeps its old extreme. | Min of field 2: push (1.0, 7), clear(), push (1.0, 9). The empty collection reports 7, and afterwards the minimum reads 7 although the only element has 9. | clear() also empties the count-maps, so a Min/Max total returns to its default value and later pushes see a fresh index. | high, not executed | Collection.Clear, Invariants.ClearLeavesStaleIndex, Scenarios.ClearStaleMinimum | Collection.ClearCorrected, Invariants.ClearCorrectedValid, Scenarios.ClearCorrectedFreshMinimum |

The operation sequences in `Traces` use `clear()` as written, and so they carry the proviso above. `ClearCorrectedValid` shows that the corrected clear keeps the invariants in every mode.
