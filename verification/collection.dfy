/** The two-field collection with its locking and reactive substrate
    stripped away: an immutable state record and pure transitions.

    Each element's two observable field cells are represented by the
    element's snapshot (`last1`, `last2`): a write to a cell synchronously
    runs the element's change callback, which is `Update` below and ends by
    copying the written values into the snapshot. A write to a total cell is
    recorded as a `Notice`, the event its observers see. */
module Collection {
  import opened Base
  import opened CountMap
  import opened Functors
  import opened Folds

  /** One element: the snapshot of its two fields and its key, which is
      `None` exactly when the collection has no key type. */
  datatype Rec<K> = Rec(last1: real, last2: int, key: Option<K>)

  /** Whether the collection has a key type; `blank` is the key's default
      value, used when an element is pushed without a key. */
  datatype Keying<K> = Unkeyed | Keyed(blank: K)

  /** The template configuration: per-total mode and functors, the
      combined-atomic flag and the key type. */
  datatype Config<K> = Config(
    mode1: AggMode, mode2: AggMode,
    delta1: Delta<int>, apply1: Apply<int>,
    delta2: Delta<real>, apply2: Apply<real>,
    extract1: Extract<int>, extract2: Extract<real>,
    combined: bool,
    keying: Keying<K>)

  /** The collection: element map, open change subscriptions (monitors),
      key index, the two count-maps, the two totals and the next id. */
  datatype State<K(==)> = State(
    elems: map<nat, Rec<K>>,
    monitors: set<nat>,
    keyIdx: map<K, nat>,
    idx1: map<int, Pos>,
    idx2: map<real, Pos>,
    total1: int,
    total2: real,
    nextId: nat)

  /** One write to the total cells as observers see it: the new value of
      each total written by that event. */
  datatype Notice = Notice(total1: Option<int>, total2: Option<real>)

  /** A transition's result: the new state and the notices it raised, in order. */
  datatype Step<K(==)> = Step(state: State<K>, notices: seq<Notice>)

  /** The result of a single push: the new state, the id issued and the notices. */
  datatype Pushed<K(==)> = Pushed(state: State<K>, id: nat, notices: seq<Notice>)

  /** The result of a batch push: the new state, the ids issued in order and the notices. */
  datatype Batch<K(==)> = Batch(state: State<K>, ids: seq<nat>, notices: seq<Notice>)

  /** What one total's half of apply_pair produces: its count-map, its
      value, and whether the value is written to the total's cell. */
  datatype Side<T(==)> = Side(idx: map<T, Pos>, total: T, publish: bool)

  /** The count-map order for total 1: Min reads the least key, Max the greatest. */
  function Order1(mode: AggMode): (int, int) -> bool {
    if mode == Min then (a: int, b: int) => a < b else (a: int, b: int) => a > b
  }

  /** The count-map order for total 2. */
  function Order2(mode: AggMode): (real, real) -> bool {
    if mode == Min then (a: real, b: real) => a < b else (a: real, b: real) => a > b
  }

  lemma OrdersTotal(mode: AggMode)
    ensures StrictTotal(Order1(mode))
    ensures StrictTotal(Order2(mode))
  {
  }

  /** A freshly constructed collection: no elements, totals at their
      default value, first id 1. */
  function Init<K(==)>(): (s: State<K>)
    ensures s.elems == map[] && s.keyIdx == map[] && s.monitors == {}
    ensures s.idx1 == map[] && s.idx2 == map[]
    ensures s.total1 == 0 && s.total2 == 0.0
    ensures s.nextId == 1
  {
    State(map[], {}, map[], map[], map[], 0, 0.0, 1)
  }

  /** size(): the number of live elements, zero exactly when the collection is empty. */
  function Size<K(==)>(s: State<K>): (n: nat)
    ensures n == |s.elems.Keys|
    ensures n == 0 <==> s.elems == map[]
  {
    |s.elems|
  }

  /** empty() */
  function IsEmpty<K(==)>(s: State<K>): (b: bool)
    ensures b <==> s.elems == map[]
  {
    |s.elems| == 0
  }

  /** An additive total's half of apply_pair (apply_total1/2, or the
      combined path's Add branch, which behave the same): the functor's
      result is kept and written only when it reports a change. */
  function AddSide<T(==)>(idx: map<T, Pos>, total: T, applied: (T, bool)): Side<T> {
    if applied.1 then Side(idx, applied.0, true) else Side(idx, total, false)
  }

  /** A Min/Max total's half of apply_pair: remove the old extracted value
      (`removed`), then insert the new one (`added`), then read the extreme (or `zero` when the
      count-map is empty). The non-combined path writes the total
      unconditionally; the combined path (`suppress`) only when it differs
      from the current value. */
  function IndexSide<T(==,!new)>(lt: (T, T) -> bool, idx: map<T, Pos>, total: T, zero: T,
                                 removed: Option<T>, added: Option<T>, suppress: bool): (r: Side<T>)
    requires StrictTotal(lt)
    ensures forall v :: Count(r.idx, v)
                        == Count(idx, v) - (if removed == Some(v) && v in idx then 1 else 0)
                                         + (if added == Some(v) then 1 else 0)
    ensures IsTop(lt, r.idx, r.total, zero)
    ensures r.publish <==> !suppress || r.total != total
  {
    var afterOld := if removed.Some? then EraseOne(idx, removed.value) else idx;
    var afterNew := if added.Some? then Insert(afterOld, added.value) else afterOld;
    var value := Top(afterNew, lt).GetOr(zero);
    TopIsTop(afterNew, lt, zero);
    Side(afterNew, value, !suppress || value != total)
  }

  /** The notices raised by one apply_pair. Non-combined: each written total
      is its own event. Combined: one batched event carrying every changed
      total, and none at all when neither changed. */
  function Publish(combined: bool, side1: Side<int>, side2: Side<real>): seq<Notice>
  {
    if combined then
      if side1.publish || side2.publish then
        [Notice(if side1.publish then Some(side1.total) else None,
                if side2.publish then Some(side2.total) else None)]
      else []
    else
      (if side1.publish then [Notice(Some(side1.total), None)] else [])
      + (if side2.publish then [Notice(None, Some(side2.total))] else [])
  }

  /** Total 1's half of apply_pair. */
  function Side1<K(==)>(cfg: Config<K>, s: State<K>, d1: int, old1: Option<int>, new1: Option<int>): Side<int> {
    if cfg.mode1 == Add then AddSide(s.idx1, s.total1, Apply1(cfg.apply1, s.total1, d1))
    else
      OrdersTotal(cfg.mode1);
      IndexSide(Order1(cfg.mode1), s.idx1, s.total1, 0, old1, new1, cfg.combined)
  }

  /** Total 2's half of apply_pair. */
  function Side2<K(==)>(cfg: Config<K>, s: State<K>, d2: real, old2: Option<real>, new2: Option<real>): Side<real> {
    if cfg.mode2 == Add then AddSide(s.idx2, s.total2, Apply2(cfg.apply2, s.total2, d2))
    else
      OrdersTotal(cfg.mode2);
      IndexSide(Order2(cfg.mode2), s.idx2, s.total2, 0.0, old2, new2, cfg.combined)
  }

  /** apply_pair: fold the deltas into the additive totals, or move the
      extracted values in the count-maps of the Min/Max totals, and publish.
      `oldN`/`newN` are the optional old and new extracted values. */
  function ApplyPair<K(==)>(cfg: Config<K>, s: State<K>, d1: int, d2: real,
                            old1: Option<int>, new1: Option<int>,
                            old2: Option<real>, new2: Option<real>): (r: Step<K>)
    ensures r.state.elems == s.elems && r.state.monitors == s.monitors
    ensures r.state.keyIdx == s.keyIdx && r.state.nextId == s.nextId
  {
    var side1 := Side1(cfg, s, d1, old1, new1);
    var side2 := Side2(cfg, s, d2, old2, new2);
    var st := s.(idx1 := side1.idx, total1 := side1.total, idx2 := side2.idx, total2 := side2.total);
    Step(st, Publish(cfg.combined, side1, side2))
  }

  /** The key stored with a new element: none without a key type, otherwise
      the given key or the key type's default value. */
  function StoredKey<K>(keying: Keying<K>, key: Option<K>): (k: Option<K>)
    ensures k.Some? <==> keying.Keyed?
    ensures keying.Keyed? && key.Some? ==> k == key
    ensures keying.Keyed? && key.None? ==> k == Some(keying.blank)
  {
    match keying
    case Unkeyed => None
    case Keyed(blank) => Some(key.GetOr(blank))
  }

  /** The optional extracted value of total 1 (absent in Add mode). */
  function Ext1<K(==)>(cfg: Config<K>, e1: real, e2: int): Option<int> {
    if cfg.mode1 == Add then None else Some(Extract1(cfg.extract1, e1, e2))
  }

  /** The optional extracted value of total 2 (absent in Add mode). */
  function Ext2<K(==)>(cfg: Config<K>, e1: real, e2: int): Option<real> {
    if cfg.mode2 == Add then None else Some(Extract2(cfg.extract2, e1, e2))
  }

  /** The first half of push_one: issue the next id, store the record (never
      overwriting) and index its key (never overwriting an existing mapping). */
  function Admit<K(==)>(cfg: Config<K>, s: State<K>, e1: real, e2: int, key: Option<K>): (r: State<K>)
    ensures r.nextId == s.nextId + 1
    ensures r.idx1 == s.idx1 && r.idx2 == s.idx2 && r.total1 == s.total1 && r.total2 == s.total2
    ensures r.monitors == s.monitors
    ensures s.nextId !in s.elems ==> r.elems == s.elems[s.nextId := Rec(e1, e2, StoredKey(cfg.keying, key))]
  {
    var id := s.nextId;
    var elems := Emplace(s.elems, id, Rec(e1, e2, StoredKey(cfg.keying, key)));
    var k := elems[id].key;
    var keyIdx := if k.Some? then Emplace(s.keyIdx, k.value, id) else s.keyIdx;
    s.(elems := elems, keyIdx := keyIdx, nextId := id + 1)
  }

  /** push_one: admit the record, apply the neutral -> initial transition
      and open the element's change subscription. */
  function Push<K(==)>(cfg: Config<K>, s: State<K>, e1: real, e2: int, key: Option<K>): (r: Pushed<K>)
    ensures r.id == s.nextId && r.state.nextId == s.nextId + 1
    ensures r.state.monitors == s.monitors + {r.id}
    ensures s.nextId !in s.elems ==>
      && r.state.elems == s.elems[r.id := Rec(e1, e2, StoredKey(cfg.keying, key))]
      && |r.state.elems| == |s.elems| + 1
    ensures s.nextId !in s.elems && cfg.keying.Keyed? ==>
      var k := StoredKey(cfg.keying, key).value;
      r.state.keyIdx == (if k in s.keyIdx then s.keyIdx else s.keyIdx[k := r.id])
    ensures s.nextId !in s.elems && cfg.keying.Unkeyed? ==> r.state.keyIdx == s.keyIdx
  {
    var pre := Admit(cfg, s, e1, e2, key);
    var d1 := Delta1(cfg.delta1, e1, e2, 0.0, 0);
    var d2 := Delta2(cfg.delta2, e1, e2, 0.0, 0);
    var step := ApplyPair(cfg, pre, d1, d2, None, Ext1(cfg, e1, e2), None, Ext2(cfg, e1, e2));
    Pushed(step.state.(monitors := s.monitors + {s.nextId}), s.nextId, step.notices)
  }

  /** The key the batch push gives its i-th element: keys[i] when a key
      vector is given and long enough, otherwise none (the default key). */
  function BatchKey<K>(keys: Option<seq<K>>, i: nat): (r: Option<K>)
    ensures keys.Some? && i < |keys.value| ==> r == Some(keys.value[i])
    ensures !(keys.Some? && i < |keys.value|) ==> r.None?
  {
    if keys.Some? && i < |keys.value| then Some(keys.value[i]) else None
  }

  /** The key stored with the batch's i-th element. */
  function BatchKeyAt<K>(cfg: Config<K>, keys: Option<seq<K>>, i: nat): Option<K> {
    StoredKey(cfg.keying, BatchKey(keys, i))
  }

  /** Every live id is below the next id to be issued, so a push never
      meets an id already in use. */
  predicate IdsBelow<K>(s: State<K>) {
    forall id | id in s.elems :: id < s.nextId
  }

  /** The records after pushing vals[i..] onto `s` and arriving at `t`:
      every earlier record is kept, pair j is stored under
      s.nextId + (j - i) with its batch key, and there is nothing else. */
  ghost predicate BatchStored<K>(cfg: Config<K>, s: State<K>, t: State<K>,
                                     vals: seq<(real, int)>, keys: Option<seq<K>>, i: nat) {
    && (forall id | id in s.elems :: id in t.elems && t.elems[id] == s.elems[id])
    && (forall j | i <= j < |vals| ::
          StoresAt(t, s.nextId + (j - i), Rec(vals[j].0, vals[j].1, BatchKeyAt(cfg, keys, j))))
    && (forall id | id in t.elems :: id in s.elems || s.nextId <= id < s.nextId + (|vals| - i))
  }

  /** `t` holds record `r` under `id`. */
  predicate StoresAt<K>(t: State<K>, id: nat, r: Rec<K>) {
    id in t.elems && t.elems[id] == r
  }

  /** Pair j is the first of vals[i..] to carry its key, and that key was
      not indexed before the batch. */
  ghost predicate FirstHolder<K>(cfg: Config<K>, s: State<K>, keys: Option<seq<K>>, i: nat, j: nat) {
    && BatchKeyAt(cfg, keys, j).Some?
    && BatchKeyAt(cfg, keys, j).value !in s.keyIdx
    && forall j' | i <= j' < j :: BatchKeyAt(cfg, keys, j') != BatchKeyAt(cfg, keys, j)
  }

  /** The key index after pushing vals[i..] onto `s` and arriving at `t`
      (one emplace per pair, in order): existing mappings are kept, every
      stored key is indexed, a newly indexed key names the first pair that
      carries it, and no other key appears. */
  ghost predicate BatchIndexed<K>(cfg: Config<K>, s: State<K>, t: State<K>,
                                  vals: seq<(real, int)>, keys: Option<seq<K>>, i: nat) {
    && IndexKept(s, t)
    && IndexCovers(cfg, t, keys, i, |vals|)
    && IndexFirst(cfg, s, t, keys, i, |vals|)
    && IndexOnlyNew(cfg, s, t, keys, i, |vals|)
  }

  ghost predicate IndexKept<K>(s: State<K>, t: State<K>) {
    forall k | k in s.keyIdx :: k in t.keyIdx && t.keyIdx[k] == s.keyIdx[k]
  }

  ghost predicate IndexCovers<K>(cfg: Config<K>, t: State<K>, keys: Option<seq<K>>, i: nat, n: nat) {
    forall j | i <= j < n && BatchKeyAt(cfg, keys, j).Some? :: BatchKeyAt(cfg, keys, j).value in t.keyIdx
  }

  ghost predicate IndexFirst<K>(cfg: Config<K>, s: State<K>, t: State<K>, keys: Option<seq<K>>, i: nat, n: nat) {
    forall j | i <= j < n && FirstHolder(cfg, s, keys, i, j) ::
      IndexesAt(t, BatchKeyAt(cfg, keys, j).value, s.nextId + (j - i))
  }

  /** `t`'s key index maps `k` to `id`. */
  predicate IndexesAt<K>(t: State<K>, k: K, id: nat) {
    k in t.keyIdx && t.keyIdx[k] == id
  }

  ghost predicate IndexOnlyNew<K>(cfg: Config<K>, s: State<K>, t: State<K>, keys: Option<seq<K>>, i: nat, n: nat) {
    forall k | k in t.keyIdx && k !in s.keyIdx :: exists j | i <= j < n :: BatchKeyAt(cfg, keys, j) == Some(k)
  }

  /** Pushing pair i onto `s` gives key index `u`: its stored key is
      emplaced, so it is added only when absent. */
  ghost predicate IndexStep<K>(cfg: Config<K>, s: State<K>, u: State<K>, keys: Option<seq<K>>, i: nat) {
    u.keyIdx == (match BatchKeyAt(cfg, keys, i)
                 case None => s.keyIdx
                 case Some(k) => if k in s.keyIdx then s.keyIdx else s.keyIdx[k := s.nextId])
  }

  /** One step of a batch: pushing pair i onto `s` gives `u`; then the
      records of vals[i+1..] on top of `u` are the records of vals[i..]. */
  lemma PushFromStored<K>(cfg: Config<K>, s: State<K>, u: State<K>, t: State<K>,
                          vals: seq<(real, int)>, keys: Option<seq<K>>, i: nat)
    requires i < |vals| && IdsBelow(s)
    requires u.nextId == s.nextId + 1
    requires u.elems == s.elems[s.nextId := Rec(vals[i].0, vals[i].1, BatchKeyAt(cfg, keys, i))]
    requires BatchStored(cfg, u, t, vals, keys, i + 1)
    ensures BatchStored(cfg, s, t, vals, keys, i)
  {
    assert s.nextId !in s.elems;
    forall j | i <= j < |vals|
      ensures StoresAt(t, s.nextId + (j - i), Rec(vals[j].0, vals[j].1, BatchKeyAt(cfg, keys, j)))
    {
      if j == i {
        assert s.nextId in u.elems;
      } else {
        assert s.nextId + (j - i) == u.nextId + (j - (i + 1));
      }
    }
  }

  /** One step of a batch for the key index: `u`'s key index is `s`'s
      after emplacing pair i's key. */
  lemma PushFromIndexed<K>(cfg: Config<K>, s: State<K>, u: State<K>, t: State<K>,
                           vals: seq<(real, int)>, keys: Option<seq<K>>, i: nat)
    requires i < |vals|
    requires u.nextId == s.nextId + 1
    requires IndexStep(cfg, s, u, keys, i)
    requires BatchIndexed(cfg, u, t, vals, keys, i + 1)
    ensures BatchIndexed(cfg, s, t, vals, keys, i)
  {
    KeptStep(cfg, s, u, t, keys, i);
    CoversStep(cfg, s, u, t, keys, i, |vals|);
    FirstStep(cfg, s, u, t, keys, i, |vals|);
    OnlyNewStep(cfg, s, u, t, keys, i, |vals|);
  }

  lemma KeptStep<K>(cfg: Config<K>, s: State<K>, u: State<K>, t: State<K>, keys: Option<seq<K>>, i: nat)
    requires IndexStep(cfg, s, u, keys, i) && IndexKept(u, t)
    ensures IndexKept(s, t)
  {
    assert forall k | k in s.keyIdx :: k in u.keyIdx && u.keyIdx[k] == s.keyIdx[k];
  }

  lemma CoversStep<K>(cfg: Config<K>, s: State<K>, u: State<K>, t: State<K>, keys: Option<seq<K>>, i: nat, n: nat)
    requires i < n
    requires IndexStep(cfg, s, u, keys, i) && IndexKept(u, t) && IndexCovers(cfg, t, keys, i + 1, n)
    ensures IndexCovers(cfg, t, keys, i, n)
  {
    var ki := BatchKeyAt(cfg, keys, i);
    assert ki.Some? ==> ki.value in u.keyIdx;
  }

  lemma FirstStep<K>(cfg: Config<K>, s: State<K>, u: State<K>, t: State<K>, keys: Option<seq<K>>, i: nat, n: nat)
    requires i < n && u.nextId == s.nextId + 1
    requires IndexStep(cfg, s, u, keys, i) && IndexKept(u, t) && IndexFirst(cfg, u, t, keys, i + 1, n)
    ensures IndexFirst(cfg, s, t, keys, i, n)
  {
    var ki := BatchKeyAt(cfg, keys, i);
    forall j | i <= j < n && FirstHolder(cfg, s, keys, i, j)
      ensures IndexesAt(t, BatchKeyAt(cfg, keys, j).value, s.nextId + (j - i))
    {
      if j == i {
        assert ki.value in u.keyIdx && u.keyIdx[ki.value] == s.nextId;
      } else {
        assert FirstHolder(cfg, u, keys, i + 1, j);
      }
    }
  }

  lemma OnlyNewStep<K>(cfg: Config<K>, s: State<K>, u: State<K>, t: State<K>, keys: Option<seq<K>>, i: nat, n: nat)
    requires i < n
    requires IndexStep(cfg, s, u, keys, i) && IndexOnlyNew(cfg, u, t, keys, i + 1, n)
    ensures IndexOnlyNew(cfg, s, t, keys, i, n)
  {
    var ki := BatchKeyAt(cfg, keys, i);
    forall k | k in t.keyIdx && k !in s.keyIdx
      ensures exists j | i <= j < n :: BatchKeyAt(cfg, keys, j) == Some(k)
    {
      if k !in u.keyIdx {
        var j :| i + 1 <= j < n && BatchKeyAt(cfg, keys, j) == Some(k);
      } else {
        assert ki == Some(k);
      }
    }
  }

  /** Pushes vals[i..] in order. */
  function PushFrom<K(==)>(cfg: Config<K>, s: State<K>, vals: seq<(real, int)>, keys: Option<seq<K>>, i: nat): (r: Batch<K>)
    requires i <= |vals|
    ensures |r.ids| == |vals| - i
    ensures forall j | 0 <= j < |r.ids| :: r.ids[j] == s.nextId + j
    ensures r.state.nextId == s.nextId + (|vals| - i)
    decreases |vals| - i
  {
    if i == |vals| then Batch(s, [], [])
    else
      var p := Push(cfg, s, vals[i].0, vals[i].1, BatchKey(keys, i));
      var rest := PushFrom(cfg, p.state, vals, keys, i + 1);
      var ids := [p.id] + rest.ids;
      assert forall j | 0 < j < |ids| :: ids[j] == rest.ids[j - 1];
      Batch(rest.state, ids, p.notices + rest.notices)
  }

  /** Pair i of a batch, pushed onto `s`, in the terms of the step lemmas. */
  lemma PushStep<K>(cfg: Config<K>, s: State<K>, vals: seq<(real, int)>, keys: Option<seq<K>>, i: nat, p: Pushed<K>)
    requires i < |vals| && IdsBelow(s)
    requires p == Push(cfg, s, vals[i].0, vals[i].1, BatchKey(keys, i))
    ensures p.state.nextId == s.nextId + 1
    ensures p.state.elems == s.elems[s.nextId := Rec(vals[i].0, vals[i].1, BatchKeyAt(cfg, keys, i))]
    ensures IndexStep(cfg, s, p.state, keys, i)
    ensures IdsBelow(p.state)
  {
    assert s.nextId !in s.elems;
  }

  /** What pushing vals[i..] leaves behind: every earlier record is kept,
      pair j is stored under the j-th issued id with its batch key, and the
      key index gains exactly the new keys, each pointing at its first
      holder in the batch. */
  lemma {:induction false} PushFromRecords<K>(cfg: Config<K>, s: State<K>, vals: seq<(real, int)>, keys: Option<seq<K>>, i: nat)
    requires i <= |vals| && IdsBelow(s)
    ensures BatchStored(cfg, s, PushFrom(cfg, s, vals, keys, i).state, vals, keys, i)
    ensures BatchIndexed(cfg, s, PushFrom(cfg, s, vals, keys, i).state, vals, keys, i)
    decreases |vals| - i
  {
    if i < |vals| {
      var p := Push(cfg, s, vals[i].0, vals[i].1, BatchKey(keys, i));
      PushStep(cfg, s, vals, keys, i, p);
      var rest := PushFrom(cfg, p.state, vals, keys, i + 1);
      PushFromRecords(cfg, p.state, vals, keys, i + 1);
      PushFromStored(cfg, s, p.state, rest.state, vals, keys, i);
      PushFromIndexed(cfg, s, p.state, rest.state, vals, keys, i);
    }
  }

  /** Batch push_back: pushes every pair in vector order (inside one batch
      scope of the substrate); an empty vector changes nothing. */
  function PushBatch<K(==)>(cfg: Config<K>, s: State<K>, vals: seq<(real, int)>, keys: Option<seq<K>>): (r: Batch<K>)
    ensures |r.ids| == |vals|
    ensures forall j | 0 <= j < |vals| :: r.ids[j] == s.nextId + j
    ensures r.state.nextId == s.nextId + |vals|
    ensures vals == [] ==> r == Batch(s, [], [])
    ensures IdsBelow(s) ==> BatchStored(cfg, s, r.state, vals, keys, 0) && BatchIndexed(cfg, s, r.state, vals, keys, 0)
  {
    if |vals| == 0 then Batch(s, [], [])
    else
      if IdsBelow(s) then PushFromRecords(cfg, s, vals, keys, 0); PushFrom(cfg, s, vals, keys, 0)
      else PushFrom(cfg, s, vals, keys, 0)
  }

  /** erase(id): nothing for an absent id; otherwise apply the current ->
      neutral transition, drop whatever the record's key maps to in the key
      index, close the subscription and remove the record. */
  function Erase<K(==)>(cfg: Config<K>, s: State<K>, id: nat): (r: Step<K>)
    ensures id !in s.elems ==> r == Step(s, [])
    ensures id in s.elems ==>
      && r.state.elems == s.elems - {id}
      && |r.state.elems| == |s.elems| - 1
      && r.state.monitors == s.monitors - {id}
      && r.state.nextId == s.nextId
      && r.state.keyIdx == (match s.elems[id].key
                            case Some(k) => s.keyIdx - {k}
                            case None => s.keyIdx)
  {
    if id !in s.elems then Step(s, [])
    else
      var rec := s.elems[id];
      var d1 := Delta1(cfg.delta1, 0.0, 0, rec.last1, rec.last2);
      var d2 := Delta2(cfg.delta2, 0.0, 0, rec.last1, rec.last2);
      var step := ApplyPair(cfg, s, d1, d2, Ext1(cfg, rec.last1, rec.last2), None,
                            Ext2(cfg, rec.last1, rec.last2), None);
      var keyIdx := if rec.key.Some? then step.state.keyIdx - {rec.key.value} else step.state.keyIdx;
      assert (s.elems - {id}).Keys == s.elems.Keys - {id};
      Step(step.state.(keyIdx := keyIdx, monitors := s.monitors - {id}, elems := s.elems - {id}), step.notices)
  }

  /** find_by_key: the id the key index holds for `k`, if any. Exists only
      for a collection with a key type. */
  function FindByKey<K(==)>(cfg: Config<K>, s: State<K>, k: K): (r: Option<nat>)
    requires cfg.keying.Keyed?
    ensures r.Some? <==> k in s.keyIdx
    ensures r.Some? ==> r.value == s.keyIdx[k]
  {
    if k in s.keyIdx then Some(s.keyIdx[k]) else None
  }

  /** erase_by_key: nothing for a key the index does not hold; otherwise
      erase the id it maps to. Exists only for a collection with a key type. */
  function EraseByKey<K(==)>(cfg: Config<K>, s: State<K>, k: K): (r: Step<K>)
    requires cfg.keying.Keyed?
    ensures k !in s.keyIdx ==> r == Step(s, [])
    ensures k in s.keyIdx ==> r == Erase(cfg, s, s.keyIdx[k])
  {
    match FindByKey(cfg, s, k)
    case None => Step(s, [])
    case Some(id) => Erase(cfg, s, id)
  }

  /** The element's change callback, run when its field cells now hold
      (new1, new2): ignored for an id no longer stored; otherwise deltas and
      the old extracted values come from the pre-update snapshot, the
      snapshot is overwritten, and apply_pair removes the old extracted
      value before inserting the new one. */
  function Update<K(==)>(cfg: Config<K>, s: State<K>, id: nat, new1: real, new2: int): (r: Step<K>)
    ensures id !in s.elems ==> r == Step(s, [])
    ensures id in s.elems ==>
      && r.state.elems == s.elems[id := s.elems[id].(last1 := new1, last2 := new2)]
      && r.state.keyIdx == s.keyIdx && r.state.monitors == s.monitors && r.state.nextId == s.nextId
  {
    if id !in s.elems then Step(s, [])
    else
      var rec := s.elems[id];
      var dd1 := Delta1(cfg.delta1, new1, new2, rec.last1, rec.last2);
      var dd2 := Delta2(cfg.delta2, new1, new2, rec.last1, rec.last2);
      var old1, old2 := Ext1(cfg, rec.last1, rec.last2), Ext2(cfg, rec.last1, rec.last2);
      var ext1, ext2 := Ext1(cfg, new1, new2), Ext2(cfg, new1, new2);
      var s' := s.(elems := s.elems[id := rec.(last1 := new1, last2 := new2)]);
      ApplyPair(cfg, s', dd1, dd2, old1, ext1, old2, ext2)
  }

  /** Removal delta of total 1 for one record (current -> neutral). */
  function Removal1<K>(cfg: Config<K>): Rec<K> -> int {
    (r: Rec<K>) => Delta1(cfg.delta1, 0.0, 0, r.last1, r.last2)
  }

  /** Removal delta of total 2 for one record (current -> neutral). */
  function Removal2<K>(cfg: Config<K>): Rec<K> -> real {
    (r: Rec<K>) => Delta2(cfg.delta2, 0.0, 0, r.last1, r.last2)
  }

  /** clear(), as written: nothing on an empty collection; otherwise apply
      the summed removal deltas of all records with no extracted-value
      changes, then drop every subscription, record and key mapping. The
      count-maps are left as they are. (Live ids are all below nextId, so
      the sums run over every record.) */
  function Clear<K(==)>(cfg: Config<K>, s: State<K>): (r: Step<K>)
    ensures s.elems == map[] ==> r == Step(s, [])
    ensures s.elems != map[] ==>
      && r.state.elems == map[] && r.state.monitors == {} && r.state.nextId == s.nextId
      && r.state.idx1 == s.idx1 && r.state.idx2 == s.idx2
      && (cfg.keying.Keyed? ==> r.state.keyIdx == map[])
  {
    if s.elems == map[] then Step(s, [])
    else
      var sumRem1 := SumInt(s.elems, s.nextId, Removal1(cfg));
      var sumRem2 := SumReal(s.elems, s.nextId, Removal2(cfg));
      var step := ApplyPair(cfg, s, sumRem1, sumRem2, None, None, None, None);
      var keyIdx := if cfg.keying.Keyed? then map[] else step.state.keyIdx;
      Step(step.state.(monitors := {}, elems := map[], keyIdx := keyIdx), step.notices)
  }

  /** A Min/Max half of apply_pair over an empty count-map with no
      extracted-value change leaves the count-map empty and the total at
      its default value. */
  lemma EmptiedSides<K>(cfg: Config<K>, s: State<K>, d1: int, d2: real)
    requires cfg.mode1 != Add ==> s.idx1 == map[]
    requires cfg.mode2 != Add ==> s.idx2 == map[]
    ensures cfg.mode1 != Add ==> Side1(cfg, s, d1, None, None).idx == map[] && Side1(cfg, s, d1, None, None).total == 0
    ensures cfg.mode2 != Add ==> Side2(cfg, s, d2, None, None).idx == map[] && Side2(cfg, s, d2, None, None).total == 0.0
  {
    if cfg.mode1 != Add {
      CountExt(Side1(cfg, s, d1, None, None).idx, map[]);
    }
    if cfg.mode2 != Add {
      CountExt(Side2(cfg, s, d2, None, None).idx, map[]);
    }
  }

  /** clear() as evidently intended: the count-maps are emptied together
      with the records, so a Min/Max total falls back to its default value. */
  function ClearCorrected<K(==)>(cfg: Config<K>, s: State<K>): (r: Step<K>)
    ensures s.elems == map[] ==> r == Step(s, [])
    ensures s.elems != map[] ==>
      && r.state.elems == map[] && r.state.monitors == {} && r.state.nextId == s.nextId
      && r.state.idx1 == (if cfg.mode1 == Add then s.idx1 else map[])
      && r.state.idx2 == (if cfg.mode2 == Add then s.idx2 else map[])
      && (cfg.mode1 != Add ==> r.state.total1 == 0)
      && (cfg.mode2 != Add ==> r.state.total2 == 0.0)
  {
    if s.elems == map[] then Step(s, [])
    else
      var sumRem1 := SumInt(s.elems, s.nextId, Removal1(cfg));
      var sumRem2 := SumReal(s.elems, s.nextId, Removal2(cfg));
      var emptied := s.(idx1 := if cfg.mode1 == Add then s.idx1 else map[],
                        idx2 := if cfg.mode2 == Add then s.idx2 else map[]);
      var step := ApplyPair(cfg, emptied, sumRem1, sumRem2, None, None, None, None);
      EmptiedSides(cfg, emptied, sumRem1, sumRem2);
      var keyIdx := if cfg.keying.Keyed? then map[] else step.state.keyIdx;
      Step(step.state.(monitors := {}, elems := map[], keyIdx := keyIdx), step.notices)
  }
}
