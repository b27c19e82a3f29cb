/** The collection's invariants over live records, and their preservation
    by every transition. */
module Invariants {
  import opened Base
  import opened CountMap
  import opened Functors
  import opened Folds
  import opened Collection
  import opened Aggregates

  /** A record's contribution to the default total 1: field 2. */
  function Weight1<K>(r: Rec<K>): int {
    r.last2
  }

  /** A record's contribution to the default total 2: field1 * field2. */
  function Weight2<K>(r: Rec<K>): real {
    (r.last2 as real) * r.last1
  }

  /** A record's extracted value for total 1. */
  function Extracted1<K>(cfg: Config<K>): Rec<K> -> int {
    (r: Rec<K>) => Extract1(cfg.extract1, r.last1, r.last2)
  }

  /** A record's extracted value for total 2. */
  function Extracted2<K>(cfg: Config<K>): Rec<K> -> real {
    (r: Rec<K>) => Extract2(cfg.extract2, r.last1, r.last2)
  }

  /** The additive totals use the shipped functors, whose totals have a
      closed form over the live records. */
  ghost predicate Tracked<K>(cfg: Config<K>) {
    && (cfg.mode1 == Add ==> !cfg.delta1.CustomDelta? && !cfg.apply1.CustomApply?)
    && (cfg.mode2 == Add ==> !cfg.delta2.CustomDelta? && !cfg.apply2.CustomApply?)
  }

  /** The value an additive total 1 must hold over the records `elems`
      (ids below `n`): the sum of field 2, or the default value when the
      delta or apply is a no-op. */
  ghost function Expected1<K>(cfg: Config<K>, elems: map<nat, Rec<K>>, n: nat): int {
    if cfg.apply1.NoopApply? || cfg.delta1.NoopDelta? then 0 else SumInt(elems, n, Weight1)
  }

  /** The value an additive total 2 must hold: the sum of field1 * field2,
      or the default value for the no-op functors. */
  ghost function Expected2<K>(cfg: Config<K>, elems: map<nat, Rec<K>>, n: nat): real {
    if cfg.apply2.NoopApply? || cfg.delta2.NoopDelta? then 0.0 else SumReal(elems, n, Weight2)
  }

  /** Ids start at 1 and every live id is below the next one to be issued. */
  ghost predicate IdsIssued<K>(s: State<K>) {
    && 1 <= s.nextId
    && (forall id | id in s.elems :: 1 <= id)
    && IdsBelow(s)
  }

  /** Exactly the live elements have an open change subscription. */
  ghost predicate Subscribed<K>(s: State<K>) {
    s.monitors == s.elems.Keys
  }

  /** A record has a key exactly when the collection has a key type, and
      every key-index entry names a live record carrying that key. */
  ghost predicate KeysCoherent<K>(cfg: Config<K>, s: State<K>) {
    && (forall id | id in s.elems :: s.elems[id].key.Some? == cfg.keying.Keyed?)
    && (forall k | k in s.keyIdx :: s.keyIdx[k] in s.elems && s.elems[s.keyIdx[k]].key == Some(k))
  }

  /** Total 1 (`total`, with count-map `idx`) agrees with the records
      `elems`: in Add mode it is the closed form and the count-map stays
      empty; in Min/Max mode the count-map holds, for every value, the
      number of records extracting it, and the total is that count-map's
      extreme (default value when empty). */
  ghost predicate Agrees1<K>(cfg: Config<K>, elems: map<nat, Rec<K>>, n: nat, idx: map<int, Pos>, total: int) {
    if cfg.mode1 == Add then
      idx == map[] && total == Expected1(cfg, elems, n)
    else
      && (forall v :: Count(idx, v) == Occ(elems, n, Extracted1(cfg), v))
      && IsTop(Order1(cfg.mode1), idx, total, 0)
  }

  /** Total 2 agrees with the records `elems`. */
  ghost predicate Agrees2<K>(cfg: Config<K>, elems: map<nat, Rec<K>>, n: nat, idx: map<real, Pos>, total: real) {
    if cfg.mode2 == Add then
      idx == map[] && total == Expected2(cfg, elems, n)
    else
      && (forall v :: Count(idx, v) == Occ(elems, n, Extracted2(cfg), v))
      && IsTop(Order2(cfg.mode2), idx, total, 0.0)
  }

  ghost predicate Tracks1<K>(cfg: Config<K>, s: State<K>) {
    Agrees1(cfg, s.elems, s.nextId, s.idx1, s.total1)
  }

  ghost predicate Tracks2<K>(cfg: Config<K>, s: State<K>) {
    Agrees2(cfg, s.elems, s.nextId, s.idx2, s.total2)
  }

  ghost predicate Valid<K>(cfg: Config<K>, s: State<K>) {
    && Tracked(cfg)
    && IdsIssued(s)
    && Subscribed(s)
    && KeysCoherent(cfg, s)
    && Tracks1(cfg, s)
    && Tracks2(cfg, s)
  }

  // ---------------------------------------------------------------- init

  lemma InitValid<K>(cfg: Config<K>)
    requires Tracked(cfg)
    ensures Valid(cfg, Init<K>())
  {
    var s := Init<K>();
    forall v ensures Occ(s.elems, s.nextId, Extracted1(cfg), v) == 0 {
      OccEmpty(s.nextId, Extracted1(cfg), v);
    }
    forall v ensures Occ(s.elems, s.nextId, Extracted2(cfg), v) == 0 {
      OccEmpty(s.nextId, Extracted2(cfg), v);
    }
  }

  // ---------------------------------------------------------------- transfer

  /** apply_pair carries total 1 over to the records `elems`, provided the
      delta (Add mode) or the extracted-value change (Min/Max mode) is
      exactly the difference between `pre`'s total and `elems`. */
  lemma ApplyPairAgrees1<K>(cfg: Config<K>, pre: State<K>, d1: int, d2: real,
                            old1: Option<int>, new1: Option<int>, old2: Option<real>, new2: Option<real>,
                            elems: map<nat, Rec<K>>, n: nat)
    requires Tracked(cfg)
    requires cfg.mode1 == Add ==>
      && pre.idx1 == map[]
      && Expected1(cfg, elems, n) == (if cfg.apply1.NoopApply? then pre.total1 else pre.total1 + d1)
    requires cfg.mode1 != Add ==>
      forall v :: Occ(elems, n, Extracted1(cfg), v)
                  == Count(pre.idx1, v) - (if old1 == Some(v) && v in pre.idx1 then 1 else 0)
                                        + (if new1 == Some(v) then 1 else 0)
    ensures var r := ApplyPair(cfg, pre, d1, d2, old1, new1, old2, new2).state;
      Agrees1(cfg, elems, n, r.idx1, r.total1)
  {
    ApplyPairAdditive(cfg, pre, d1, d2, old1, new1, old2, new2);
    ApplyPairIndexed(cfg, pre, d1, d2, old1, new1, old2, new2);
  }

  /** apply_pair carries total 2 over to the records `elems`. */
  lemma ApplyPairAgrees2<K>(cfg: Config<K>, pre: State<K>, d1: int, d2: real,
                            old1: Option<int>, new1: Option<int>, old2: Option<real>, new2: Option<real>,
                            elems: map<nat, Rec<K>>, n: nat)
    requires Tracked(cfg)
    requires cfg.mode2 == Add ==>
      && pre.idx2 == map[]
      && Expected2(cfg, elems, n) == (if cfg.apply2.NoopApply? then pre.total2 else pre.total2 + d2)
    requires cfg.mode2 != Add ==>
      forall v :: Occ(elems, n, Extracted2(cfg), v)
                  == Count(pre.idx2, v) - (if old2 == Some(v) && v in pre.idx2 then 1 else 0)
                                        + (if new2 == Some(v) then 1 else 0)
    ensures var r := ApplyPair(cfg, pre, d1, d2, old1, new1, old2, new2).state;
      Agrees2(cfg, elems, n, r.idx2, r.total2)
  {
    ApplyPairAdditive(cfg, pre, d1, d2, old1, new1, old2, new2);
    ApplyPairIndexed(cfg, pre, d1, d2, old1, new1, old2, new2);
  }

  // ---------------------------------------------------------------- push

  lemma PushTracks1<K>(cfg: Config<K>, s: State<K>, e1: real, e2: int, key: Option<K>)
    requires Valid(cfg, s)
    ensures Tracks1(cfg, Push(cfg, s, e1, e2, key).state)
  {
    var id := s.nextId;
    var rec := Rec(e1, e2, StoredKey(cfg.keying, key));
    var pre := Admit(cfg, s, e1, e2, key);
    var d1 := Delta1(cfg.delta1, e1, e2, 0.0, 0);
    var d2 := Delta2(cfg.delta2, e1, e2, 0.0, 0);
    var n1 := Ext1(cfg, e1, e2);
    if cfg.mode1 == Add {
      if !cfg.apply1.NoopApply? && !cfg.delta1.NoopDelta? {
        SumIntPush(s.elems, id, rec, Weight1);
        assert d1 == Weight1(rec);
      }
    } else {
      forall v ensures Occ(pre.elems, pre.nextId, Extracted1(cfg), v)
                       == Count(pre.idx1, v) + (if n1 == Some(v) then 1 else 0) {
        OccPush(s.elems, id, rec, Extracted1(cfg), v);
      }
    }
    ApplyPairAgrees1(cfg, pre, d1, d2, None, n1, None, Ext2(cfg, e1, e2), pre.elems, pre.nextId);
  }

  lemma PushTracks2<K>(cfg: Config<K>, s: State<K>, e1: real, e2: int, key: Option<K>)
    requires Valid(cfg, s)
    ensures Tracks2(cfg, Push(cfg, s, e1, e2, key).state)
  {
    var id := s.nextId;
    var rec := Rec(e1, e2, StoredKey(cfg.keying, key));
    var pre := Admit(cfg, s, e1, e2, key);
    var d1 := Delta1(cfg.delta1, e1, e2, 0.0, 0);
    var d2 := Delta2(cfg.delta2, e1, e2, 0.0, 0);
    var n2 := Ext2(cfg, e1, e2);
    if cfg.mode2 == Add {
      if !cfg.apply2.NoopApply? && !cfg.delta2.NoopDelta? {
        SumRealPush(s.elems, id, rec, Weight2);
        assert d2 == Weight2(rec);
      }
    } else {
      forall v ensures Occ(pre.elems, pre.nextId, Extracted2(cfg), v)
                       == Count(pre.idx2, v) + (if n2 == Some(v) then 1 else 0) {
        OccPush(s.elems, id, rec, Extracted2(cfg), v);
      }
    }
    ApplyPairAgrees2(cfg, pre, d1, d2, None, Ext1(cfg, e1, e2), None, n2, pre.elems, pre.nextId);
  }

  lemma PushKeys<K>(cfg: Config<K>, s: State<K>, e1: real, e2: int, key: Option<K>)
    requires Valid(cfg, s)
    ensures KeysCoherent(cfg, Push(cfg, s, e1, e2, key).state)
  {
    var p := Push(cfg, s, e1, e2, key);
    var k := StoredKey(cfg.keying, key);
    forall j | j in p.state.keyIdx
      ensures p.state.keyIdx[j] in p.state.elems && p.state.elems[p.state.keyIdx[j]].key == Some(j)
    {
      if j in s.keyIdx {
        assert p.state.keyIdx[j] == s.keyIdx[j];
      } else {
        assert k == Some(j) && p.state.keyIdx[j] == p.id;
      }
    }
  }

  lemma PushIds<K>(cfg: Config<K>, s: State<K>, e1: real, e2: int, key: Option<K>)
    requires Valid(cfg, s)
    ensures var p := Push(cfg, s, e1, e2, key);
      && IdsIssued(p.state) && Subscribed(p.state)
      && p.id !in s.elems && p.id in p.state.elems
      && Size(p.state) == Size(s) + 1
  {
    var p := Push(cfg, s, e1, e2, key);
    assert s.nextId !in s.elems;
    IdsAfterAdd(s, p.state, Rec(e1, e2, StoredKey(cfg.keying, key)));
  }

  /** Adding one record under the next id and advancing the counter keeps
      the id invariants and the subscriptions, and grows the size by one. */
  lemma IdsAfterAdd<K>(s: State<K>, u: State<K>, rec: Rec<K>)
    requires IdsIssued(s) && Subscribed(s)
    requires u.nextId == s.nextId + 1
    requires u.elems == s.elems[s.nextId := rec]
    requires u.monitors == s.monitors + {s.nextId}
    ensures IdsIssued(u) && Subscribed(u)
    ensures s.nextId !in s.elems && s.nextId in u.elems
    ensures Size(u) == Size(s) + 1
  {
    assert s.nextId !in s.elems;
    assert u.elems.Keys == s.elems.Keys + {s.nextId};
  }

  /** push keeps every invariant, issues an id no live element has and
      that exceeds every live id, and grows the collection by one. */
  lemma PushValid<K>(cfg: Config<K>, s: State<K>, e1: real, e2: int, key: Option<K>)
    requires Valid(cfg, s)
    ensures var p := Push(cfg, s, e1, e2, key);
      && Valid(cfg, p.state)
      && p.id !in s.elems
      && (forall id | id in s.elems :: id < p.id)
      && p.id in p.state.elems
      && Size(p.state) == Size(s) + 1
  {
    PushTracks1(cfg, s, e1, e2, key);
    PushTracks2(cfg, s, e1, e2, key);
    PushKeys(cfg, s, e1, e2, key);
    PushIds(cfg, s, e1, e2, key);
  }

  // ---------------------------------------------------------------- helpers

  /** In Min/Max mode the extracted value of every live record is in the
      count-map (its count is that value's positive occurrence count). */
  lemma LiveIndexed1<K>(cfg: Config<K>, s: State<K>, id: nat)
    requires IdsIssued(s) && Tracks1(cfg, s) && cfg.mode1 != Add && id in s.elems
    ensures Extracted1(cfg)(s.elems[id]) in s.idx1
  {
    OccPositive(s.elems, s.nextId, id, Extracted1(cfg));
  }

  lemma LiveIndexed2<K>(cfg: Config<K>, s: State<K>, id: nat)
    requires IdsIssued(s) && Tracks2(cfg, s) && cfg.mode2 != Add && id in s.elems
    ensures Extracted2(cfg)(s.elems[id]) in s.idx2
  {
    OccPositive(s.elems, s.nextId, id, Extracted2(cfg));
  }

  /** A collection without a key type holds no key mappings. */
  lemma UnkeyedIndexEmpty<K>(cfg: Config<K>, s: State<K>)
    requires Valid(cfg, s) && cfg.keying.Unkeyed?
    ensures s.keyIdx == map[]
  {
    assert forall k :: k !in s.keyIdx;
  }

  // ---------------------------------------------------------------- erase

  lemma EraseTracks1<K>(cfg: Config<K>, s: State<K>, id: nat)
    requires Valid(cfg, s) && id in s.elems
    ensures Tracks1(cfg, Erase(cfg, s, id).state)
  {
    var rec := s.elems[id];
    var d1 := Delta1(cfg.delta1, 0.0, 0, rec.last1, rec.last2);
    var d2 := Delta2(cfg.delta2, 0.0, 0, rec.last1, rec.last2);
    var o1, o2 := Ext1(cfg, rec.last1, rec.last2), Ext2(cfg, rec.last1, rec.last2);
    var elems := s.elems - {id};
    if cfg.mode1 == Add {
      if !cfg.apply1.NoopApply? && !cfg.delta1.NoopDelta? {
        SumIntRemove(s.elems, s.nextId, id, Weight1);
        assert d1 == -Weight1(rec);
      }
    } else {
      LiveIndexed1(cfg, s, id);
      forall v ensures Occ(elems, s.nextId, Extracted1(cfg), v)
                       == Count(s.idx1, v) - (if o1 == Some(v) && v in s.idx1 then 1 else 0) {
        OccRemove(s.elems, s.nextId, id, Extracted1(cfg), v);
      }
    }
    ApplyPairAgrees1(cfg, s, d1, d2, o1, None, o2, None, elems, s.nextId);
  }

  lemma EraseTracks2<K>(cfg: Config<K>, s: State<K>, id: nat)
    requires Valid(cfg, s) && id in s.elems
    ensures Tracks2(cfg, Erase(cfg, s, id).state)
  {
    var rec := s.elems[id];
    var d1 := Delta1(cfg.delta1, 0.0, 0, rec.last1, rec.last2);
    var d2 := Delta2(cfg.delta2, 0.0, 0, rec.last1, rec.last2);
    var o1, o2 := Ext1(cfg, rec.last1, rec.last2), Ext2(cfg, rec.last1, rec.last2);
    var elems := s.elems - {id};
    if cfg.mode2 == Add {
      if !cfg.apply2.NoopApply? && !cfg.delta2.NoopDelta? {
        SumRealRemove(s.elems, s.nextId, id, Weight2);
        assert d2 == -Weight2(rec);
      }
    } else {
      LiveIndexed2(cfg, s, id);
      forall v ensures Occ(elems, s.nextId, Extracted2(cfg), v)
                       == Count(s.idx2, v) - (if o2 == Some(v) && v in s.idx2 then 1 else 0) {
        OccRemove(s.elems, s.nextId, id, Extracted2(cfg), v);
      }
    }
    ApplyPairAgrees2(cfg, s, d1, d2, o1, None, o2, None, elems, s.nextId);
  }

  lemma EraseKeys<K>(cfg: Config<K>, s: State<K>, id: nat)
    requires Valid(cfg, s) && id in s.elems
    ensures KeysCoherent(cfg, Erase(cfg, s, id).state)
  {
    var r := Erase(cfg, s, id).state;
    forall k | k in r.keyIdx
      ensures r.keyIdx[k] in r.elems && r.elems[r.keyIdx[k]].key == Some(k)
    {
      assert r.keyIdx[k] == s.keyIdx[k];
      assert s.keyIdx[k] != id;
    }
  }

  lemma EraseIds<K>(cfg: Config<K>, s: State<K>, id: nat)
    requires Valid(cfg, s)
    ensures IdsIssued(Erase(cfg, s, id).state) && Subscribed(Erase(cfg, s, id).state)
  {
  }

  /** erase keeps every invariant, and erasing an id that is not stored
      changes nothing. */
  lemma EraseValid<K>(cfg: Config<K>, s: State<K>, id: nat)
    requires Valid(cfg, s)
    ensures Valid(cfg, Erase(cfg, s, id).state)
  {
    EraseIds(cfg, s, id);
    if id in s.elems {
      EraseTracks1(cfg, s, id);
      EraseTracks2(cfg, s, id);
      EraseKeys(cfg, s, id);
    }
  }

  /** erase_by_key keeps every invariant. */
  lemma EraseByKeyValid<K>(cfg: Config<K>, s: State<K>, k: K)
    requires Valid(cfg, s) && cfg.keying.Keyed?
    ensures Valid(cfg, EraseByKey(cfg, s, k).state)
  {
    if k in s.keyIdx {
      EraseValid(cfg, s, s.keyIdx[k]);
    }
  }

  // ---------------------------------------------------------------- update

  lemma UpdateTracks1<K>(cfg: Config<K>, s: State<K>, id: nat, new1: real, new2: int)
    requires Valid(cfg, s) && id in s.elems
    ensures Tracks1(cfg, Update(cfg, s, id, new1, new2).state)
  {
    var rec := s.elems[id];
    var rec' := rec.(last1 := new1, last2 := new2);
    var d1 := Delta1(cfg.delta1, new1, new2, rec.last1, rec.last2);
    var d2 := Delta2(cfg.delta2, new1, new2, rec.last1, rec.last2);
    var o1, o2 := Ext1(cfg, rec.last1, rec.last2), Ext2(cfg, rec.last1, rec.last2);
    var n1, n2 := Ext1(cfg, new1, new2), Ext2(cfg, new1, new2);
    var pre := s.(elems := s.elems[id := rec']);
    if cfg.mode1 == Add {
      if !cfg.apply1.NoopApply? && !cfg.delta1.NoopDelta? {
        SumIntPut(s.elems, s.nextId, id, rec', Weight1);
        // old -> new is old -> neutral (a removal) plus neutral -> new (a push)
        ShippedDelta1Telescopes(cfg.delta1, rec.last1, rec.last2, 0.0, 0, new1, new2);
        assert d1 == Weight1(rec') - Weight1(rec);
      }
    } else {
      LiveIndexed1(cfg, s, id);
      forall v ensures Occ(pre.elems, s.nextId, Extracted1(cfg), v)
                       == Count(s.idx1, v) - (if o1 == Some(v) && v in s.idx1 then 1 else 0)
                                           + (if n1 == Some(v) then 1 else 0) {
        OccPut(s.elems, s.nextId, id, rec', Extracted1(cfg), v);
      }
    }
    ApplyPairAgrees1(cfg, pre, d1, d2, o1, n1, o2, n2, pre.elems, s.nextId);
  }

  lemma UpdateTracks2<K>(cfg: Config<K>, s: State<K>, id: nat, new1: real, new2: int)
    requires Valid(cfg, s) && id in s.elems
    ensures Tracks2(cfg, Update(cfg, s, id, new1, new2).state)
  {
    var rec := s.elems[id];
    var rec' := rec.(last1 := new1, last2 := new2);
    var d1 := Delta1(cfg.delta1, new1, new2, rec.last1, rec.last2);
    var d2 := Delta2(cfg.delta2, new1, new2, rec.last1, rec.last2);
    var o1, o2 := Ext1(cfg, rec.last1, rec.last2), Ext2(cfg, rec.last1, rec.last2);
    var n1, n2 := Ext1(cfg, new1, new2), Ext2(cfg, new1, new2);
    var pre := s.(elems := s.elems[id := rec']);
    if cfg.mode2 == Add {
      if !cfg.apply2.NoopApply? && !cfg.delta2.NoopDelta? {
        SumRealPut(s.elems, s.nextId, id, rec', Weight2);
        ShippedDelta2Telescopes(cfg.delta2, rec.last1, rec.last2, 0.0, 0, new1, new2);
        assert d2 == Weight2(rec') - Weight2(rec);
      }
    } else {
      LiveIndexed2(cfg, s, id);
      forall v ensures Occ(pre.elems, s.nextId, Extracted2(cfg), v)
                       == Count(s.idx2, v) - (if o2 == Some(v) && v in s.idx2 then 1 else 0)
                                           + (if n2 == Some(v) then 1 else 0) {
        OccPut(s.elems, s.nextId, id, rec', Extracted2(cfg), v);
      }
    }
    ApplyPairAgrees2(cfg, pre, d1, d2, o1, n1, o2, n2, pre.elems, s.nextId);
  }

  lemma UpdateKeys<K>(cfg: Config<K>, s: State<K>, id: nat, new1: real, new2: int)
    requires Valid(cfg, s)
    ensures KeysCoherent(cfg, Update(cfg, s, id, new1, new2).state)
      && IdsIssued(Update(cfg, s, id, new1, new2).state)
      && Subscribed(Update(cfg, s, id, new1, new2).state)
  {
  }

  /** A change notification keeps every invariant. */
  lemma UpdateValid<K>(cfg: Config<K>, s: State<K>, id: nat, new1: real, new2: int)
    requires Valid(cfg, s)
    ensures Valid(cfg, Update(cfg, s, id, new1, new2).state)
  {
    UpdateKeys(cfg, s, id, new1, new2);
    if id in s.elems {
      UpdateTracks1(cfg, s, id, new1, new2);
      UpdateTracks2(cfg, s, id, new1, new2);
    }
  }

  // ---------------------------------------------------------------- batch push

  /** Pushing vals[i..] one by one keeps every invariant and adds exactly
      one live element per pair. */
  lemma {:induction false} PushFromValid<K>(cfg: Config<K>, s: State<K>, vals: seq<(real, int)>,
                                            keys: Option<seq<K>>, i: nat)
    requires Valid(cfg, s) && i <= |vals|
    ensures var b := PushFrom(cfg, s, vals, keys, i);
      && Valid(cfg, b.state) && Size(b.state) == Size(s) + (|vals| - i)
      && (forall id | id in s.elems :: id in b.state.elems && b.state.elems[id] == s.elems[id])
    decreases |vals| - i
  {
    if i < |vals| {
      var p := Push(cfg, s, vals[i].0, vals[i].1, BatchKey(keys, i));
      PushValid(cfg, s, vals[i].0, vals[i].1, BatchKey(keys, i));
      PushFromValid(cfg, p.state, vals, keys, i + 1);
    }
  }

  /** Batch push_back keeps every invariant, grows the collection by the
      number of pairs, and every id it issues is new. */
  lemma PushBatchValid<K>(cfg: Config<K>, s: State<K>, vals: seq<(real, int)>, keys: Option<seq<K>>)
    requires Valid(cfg, s)
    ensures var b := PushBatch(cfg, s, vals, keys);
      && Valid(cfg, b.state)
      && Size(b.state) == Size(s) + |vals|
      && (forall j | 0 <= j < |b.ids| :: b.ids[j] !in s.elems)
      && (forall id | id in s.elems :: id in b.state.elems && b.state.elems[id] == s.elems[id])
  {
    if |vals| > 0 {
      PushFromValid(cfg, s, vals, keys, 0);
    }
  }

  // ---------------------------------------------------------------- clear

  /** The summed removal deltas cancel an additive total 1 exactly. */
  lemma RemovalCancels1<K>(cfg: Config<K>, s: State<K>)
    requires Valid(cfg, s) && cfg.mode1 == Add
    ensures (if cfg.apply1.NoopApply? then s.total1
             else s.total1 + SumInt(s.elems, s.nextId, Removal1(cfg))) == 0
  {
    if !cfg.apply1.NoopApply? {
      if cfg.delta1.NoopDelta? {
        SumIntZero(s.elems, s.nextId, Removal1(cfg));
      } else {
        SumIntNegate(s.elems, s.nextId, Removal1(cfg), Weight1);
      }
    }
  }

  /** The summed removal deltas cancel an additive total 2 exactly. */
  lemma RemovalCancels2<K>(cfg: Config<K>, s: State<K>)
    requires Valid(cfg, s) && cfg.mode2 == Add
    ensures (if cfg.apply2.NoopApply? then s.total2
             else s.total2 + SumReal(s.elems, s.nextId, Removal2(cfg))) == 0.0
  {
    if !cfg.apply2.NoopApply? {
      if cfg.delta2.NoopDelta? {
        SumRealZero(s.elems, s.nextId, Removal2(cfg));
      } else {
        forall i | i in s.elems ensures Removal2(cfg)(s.elems[i]) == -Weight2(s.elems[i]) {
          var r := s.elems[i];
          assert Removal2(cfg)(r) == (0 as real) * 0.0 - (r.last2 as real) * r.last1;
        }
        SumRealNegate(s.elems, s.nextId, Removal2(cfg), Weight2);
      }
    }
  }

  /** clear() as written leaves an additive total 1 agreeing with the empty
      collection, whatever total 2's mode. */
  lemma ClearTracks1<K>(cfg: Config<K>, s: State<K>)
    requires Valid(cfg, s) && cfg.mode1 == Add
    ensures Tracks1(cfg, Clear(cfg, s).state)
  {
    if s.elems != map[] {
      var d1 := SumInt(s.elems, s.nextId, Removal1(cfg));
      var d2 := SumReal(s.elems, s.nextId, Removal2(cfg));
      RemovalCancels1(cfg, s);
      SumIntEmpty<Rec<K>>(s.nextId, Weight1);
      ApplyPairAgrees1(cfg, s, d1, d2, None, None, None, None, map[], s.nextId);
    }
  }

  /** clear() as written leaves an additive total 2 agreeing with the empty
      collection, whatever total 1's mode. */
  lemma ClearTracks2<K>(cfg: Config<K>, s: State<K>)
    requires Valid(cfg, s) && cfg.mode2 == Add
    ensures Tracks2(cfg, Clear(cfg, s).state)
  {
    if s.elems != map[] {
      var d1 := SumInt(s.elems, s.nextId, Removal1(cfg));
      var d2 := SumReal(s.elems, s.nextId, Removal2(cfg));
      RemovalCancels2(cfg, s);
      SumRealEmpty<Rec<K>>(s.nextId, Weight2);
      ApplyPairAgrees2(cfg, s, d1, d2, None, None, None, None, map[], s.nextId);
    }
  }

  /** clear() as written keeps every invariant when both totals are
      additive (the Min/Max case is the finding below). */
  lemma ClearValid<K>(cfg: Config<K>, s: State<K>)
    requires Valid(cfg, s) && cfg.mode1 == Add && cfg.mode2 == Add
    ensures Valid(cfg, Clear(cfg, s).state)
    ensures Size(Clear(cfg, s).state) == 0
  {
    ClearTracks1(cfg, s);
    ClearTracks2(cfg, s);
    if s.elems != map[] {
      if cfg.keying.Unkeyed? {
        UnkeyedIndexEmpty(cfg, s);
      }
    }
  }

  /** Finding: in Min/Max mode clear() as written leaves the count-map of a
      non-empty collection in place, so the total no longer agrees with the
      (now empty) collection. */
  lemma ClearLeavesStaleIndex<K>(cfg: Config<K>, s: State<K>)
    requires Valid(cfg, s) && cfg.mode1 != Add && s.elems != map[]
    ensures Clear(cfg, s).state.idx1 != map[]
    ensures !Tracks1(cfg, Clear(cfg, s).state)
  {
    var id :| id in s.elems;
    LiveIndexed1(cfg, s, id);
    var v := Extracted1(cfg)(s.elems[id]);
    OccEmpty(s.nextId, Extracted1(cfg), v);
    assert Count(Clear(cfg, s).state.idx1, v) > 0;
  }

  lemma ClearLeavesStaleIndex2<K>(cfg: Config<K>, s: State<K>)
    requires Valid(cfg, s) && cfg.mode2 != Add && s.elems != map[]
    ensures Clear(cfg, s).state.idx2 != map[]
    ensures !Tracks2(cfg, Clear(cfg, s).state)
  {
    var id :| id in s.elems;
    LiveIndexed2(cfg, s, id);
    var v := Extracted2(cfg)(s.elems[id]);
    OccEmpty(s.nextId, Extracted2(cfg), v);
    assert Count(Clear(cfg, s).state.idx2, v) > 0;
  }

  lemma ClearCorrectedTracks1<K>(cfg: Config<K>, s: State<K>)
    requires Valid(cfg, s) && s.elems != map[]
    ensures Tracks1(cfg, ClearCorrected(cfg, s).state)
  {
    var d1 := SumInt(s.elems, s.nextId, Removal1(cfg));
    var d2 := SumReal(s.elems, s.nextId, Removal2(cfg));
    var emptied := s.(idx1 := if cfg.mode1 == Add then s.idx1 else map[],
                      idx2 := if cfg.mode2 == Add then s.idx2 else map[]);
    if cfg.mode1 == Add {
      RemovalCancels1(cfg, s);
      SumIntEmpty<Rec<K>>(s.nextId, Weight1);
    } else {
      forall v ensures Occ(map[], s.nextId, Extracted1(cfg), v) == Count(emptied.idx1, v) {
        OccEmpty(s.nextId, Extracted1(cfg), v);
      }
    }
    ApplyPairAgrees1(cfg, emptied, d1, d2, None, None, None, None, map[], s.nextId);
  }

  lemma ClearCorrectedTracks2<K>(cfg: Config<K>, s: State<K>)
    requires Valid(cfg, s) && s.elems != map[]
    ensures Tracks2(cfg, ClearCorrected(cfg, s).state)
  {
    var d1 := SumInt(s.elems, s.nextId, Removal1(cfg));
    var d2 := SumReal(s.elems, s.nextId, Removal2(cfg));
    var emptied := s.(idx1 := if cfg.mode1 == Add then s.idx1 else map[],
                      idx2 := if cfg.mode2 == Add then s.idx2 else map[]);
    if cfg.mode2 == Add {
      RemovalCancels2(cfg, s);
      SumRealEmpty<Rec<K>>(s.nextId, Weight2);
    } else {
      forall v ensures Occ(map[], s.nextId, Extracted2(cfg), v) == Count(emptied.idx2, v) {
        OccEmpty(s.nextId, Extracted2(cfg), v);
      }
    }
    ApplyPairAgrees2(cfg, emptied, d1, d2, None, None, None, None, map[], s.nextId);
  }

  /** The corrected clear() keeps every invariant in every mode. */
  lemma ClearCorrectedValid<K>(cfg: Config<K>, s: State<K>)
    requires Valid(cfg, s)
    ensures Valid(cfg, ClearCorrected(cfg, s).state)
    ensures Size(ClearCorrected(cfg, s).state) == 0
  {
    if s.elems != map[] {
      ClearCorrectedTracks1(cfg, s);
      ClearCorrectedTracks2(cfg, s);
      if cfg.keying.Unkeyed? {
        UnkeyedIndexEmpty(cfg, s);
      }
    }
  }
}
