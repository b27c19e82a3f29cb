/** What the invariants give a user of the collection: the Min/Max total is
    the extreme of the live elements, duplicates are counted, a no-change
    notification is harmless, and how the key index answers. */
module Properties {
  import opened Base
  import opened CountMap
  import opened Functors
  import opened Collection
  import opened Aggregates
  import opened Folds
  import opened Invariants

  // ---------------------------------------------------------------- extremes

  /** A Min/Max total 1 is the extreme extracted value over the live
      elements: attained by one of them and on the right side of every
      other; the default value when there are none. */
  lemma ExtremeOfLive1<K>(cfg: Config<K>, s: State<K>)
    requires IdsIssued(s) && Tracks1(cfg, s) && cfg.mode1 != Add
    ensures s.elems == map[] ==> s.total1 == 0
    ensures s.elems != map[] ==> exists id | id in s.elems :: Extracted1(cfg)(s.elems[id]) == s.total1
    ensures forall id | id in s.elems ::
      if cfg.mode1 == Min then s.total1 <= Extracted1(cfg)(s.elems[id])
      else s.total1 >= Extracted1(cfg)(s.elems[id])
  {
    var e := Extracted1(cfg);
    if s.elems == map[] {
      forall v ensures v !in s.idx1 {
        OccEmpty(s.nextId, e, v);
      }
      assert s.idx1.Keys == {};
    } else {
      var id :| id in s.elems;
      LiveIndexed1(cfg, s, id);
      assert Count(s.idx1, s.total1) > 0;
      OccWitness(s.elems, s.nextId, e, s.total1);
      forall j | j in s.elems
        ensures if cfg.mode1 == Min then s.total1 <= e(s.elems[j]) else s.total1 >= e(s.elems[j])
      {
        LiveIndexed1(cfg, s, j);
      }
    }
  }

  /** A Min/Max total 2 is the extreme extracted value over the live elements. */
  lemma ExtremeOfLive2<K>(cfg: Config<K>, s: State<K>)
    requires IdsIssued(s) && Tracks2(cfg, s) && cfg.mode2 != Add
    ensures s.elems == map[] ==> s.total2 == 0.0
    ensures s.elems != map[] ==> exists id | id in s.elems :: Extracted2(cfg)(s.elems[id]) == s.total2
    ensures forall id | id in s.elems ::
      if cfg.mode2 == Min then s.total2 <= Extracted2(cfg)(s.elems[id])
      else s.total2 >= Extracted2(cfg)(s.elems[id])
  {
    var e := Extracted2(cfg);
    if s.elems == map[] {
      forall v ensures v !in s.idx2 {
        OccEmpty(s.nextId, e, v);
      }
      assert s.idx2.Keys == {};
    } else {
      var id :| id in s.elems;
      LiveIndexed2(cfg, s, id);
      assert Count(s.idx2, s.total2) > 0;
      OccWitness(s.elems, s.nextId, e, s.total2);
      forall j | j in s.elems
        ensures if cfg.mode2 == Min then s.total2 <= e(s.elems[j]) else s.total2 >= e(s.elems[j])
      {
        LiveIndexed2(cfg, s, j);
      }
    }
  }

  /** Two valid states one element apart: the smaller one keeps the larger
      one's Min/Max total 1 when another element also holds it, and, when
      some element remains, only then. */
  lemma RemovalExtreme1<K>(cfg: Config<K>, s: State<K>, r: State<K>, a: nat)
    requires IdsIssued(s) && Tracks1(cfg, s) && IdsIssued(r) && Tracks1(cfg, r) && cfg.mode1 != Add
    requires a in s.elems && r.elems == s.elems - {a}
    ensures (exists b | b in s.elems && b != a :: Extracted1(cfg)(s.elems[b]) == s.total1) ==> r.total1 == s.total1
    ensures |s.elems| > 1 && r.total1 == s.total1 ==>
      exists b | b in s.elems && b != a :: Extracted1(cfg)(s.elems[b]) == s.total1
  {
    ExtremeOfLive1(cfg, s);
    ExtremeOfLive1(cfg, r);
    if |s.elems| > 1 {
      assert r.elems.Keys == s.elems.Keys - {a};
      assert |r.elems.Keys| == |s.elems.Keys| - 1;
      assert r.elems != map[];
      var c :| c in r.elems && Extracted1(cfg)(r.elems[c]) == r.total1;
      assert c in s.elems && c != a && r.elems[c] == s.elems[c];
    }
    if b :| b in s.elems && b != a && Extracted1(cfg)(s.elems[b]) == s.total1 {
      assert b in r.elems;
      var c :| c in r.elems && Extracted1(cfg)(r.elems[c]) == r.total1;
      assert c in s.elems && r.elems[c] == s.elems[c];
    }
  }

  /** The same for total 2. */
  lemma RemovalExtreme2<K>(cfg: Config<K>, s: State<K>, r: State<K>, a: nat)
    requires IdsIssued(s) && Tracks2(cfg, s) && IdsIssued(r) && Tracks2(cfg, r) && cfg.mode2 != Add
    requires a in s.elems && r.elems == s.elems - {a}
    ensures (exists b | b in s.elems && b != a :: Extracted2(cfg)(s.elems[b]) == s.total2) ==> r.total2 == s.total2
    ensures |s.elems| > 1 && r.total2 == s.total2 ==>
      exists b | b in s.elems && b != a :: Extracted2(cfg)(s.elems[b]) == s.total2
  {
    ExtremeOfLive2(cfg, s);
    ExtremeOfLive2(cfg, r);
    if |s.elems| > 1 {
      assert r.elems.Keys == s.elems.Keys - {a};
      assert |r.elems.Keys| == |s.elems.Keys| - 1;
      assert r.elems != map[];
      var c :| c in r.elems && Extracted2(cfg)(r.elems[c]) == r.total2;
      assert c in s.elems && c != a && r.elems[c] == s.elems[c];
    }
    if b :| b in s.elems && b != a && Extracted2(cfg)(s.elems[b]) == s.total2 {
      assert b in r.elems;
      var c :| c in r.elems && Extracted2(cfg)(r.elems[c]) == r.total2;
      assert c in s.elems && r.elems[c] == s.elems[c];
    }
  }

  /** Erasing an element leaves a Min/Max total 1 where it is exactly when
      another live element also holds the extreme (the count-map keeps
      duplicates): always when one does, and, when some element remains,
      only when one does. */
  lemma EraseExtreme1<K>(cfg: Config<K>, s: State<K>, a: nat)
    requires Valid(cfg, s) && cfg.mode1 != Add && a in s.elems
    ensures (exists b | b in s.elems && b != a :: Extracted1(cfg)(s.elems[b]) == s.total1) ==>
      Erase(cfg, s, a).state.total1 == s.total1
    ensures |s.elems| > 1 && Erase(cfg, s, a).state.total1 == s.total1 ==>
      exists b | b in s.elems && b != a :: Extracted1(cfg)(s.elems[b]) == s.total1
  {
    EraseValid(cfg, s, a);
    RemovalExtreme1(cfg, s, Erase(cfg, s, a).state, a);
  }

  /** Erasing an element leaves a Min/Max total 2 where it is exactly when
      another live element also holds the extreme. */
  lemma EraseExtreme2<K>(cfg: Config<K>, s: State<K>, a: nat)
    requires Valid(cfg, s) && cfg.mode2 != Add && a in s.elems
    ensures (exists b | b in s.elems && b != a :: Extracted2(cfg)(s.elems[b]) == s.total2) ==>
      Erase(cfg, s, a).state.total2 == s.total2
    ensures |s.elems| > 1 && Erase(cfg, s, a).state.total2 == s.total2 ==>
      exists b | b in s.elems && b != a :: Extracted2(cfg)(s.elems[b]) == s.total2
  {
    EraseValid(cfg, s, a);
    RemovalExtreme2(cfg, s, Erase(cfg, s, a).state, a);
  }

  // ---------------------------------------------------------------- no-op update

  /** A change notification that reports the snapshot's own values leaves
      the whole state as it was: zero deltas, and the old extracted value is
      removed from and re-inserted into the same count-map. */
  lemma UpdateToSnapshotKeepsState<K>(cfg: Config<K>, s: State<K>, id: nat)
    requires Valid(cfg, s) && id in s.elems
    ensures Update(cfg, s, id, s.elems[id].last1, s.elems[id].last2).state == s
  {
    var rec := s.elems[id];
    assert s.elems[id := rec.(last1 := rec.last1, last2 := rec.last2)] == s.elems;
    SnapshotSide1(cfg, s, id);
    SnapshotSide2(cfg, s, id);
  }

  /** Total 1's half of a snapshot-valued change notification keeps its
      count-map and value. */
  lemma SnapshotSide1<K>(cfg: Config<K>, s: State<K>, id: nat)
    requires Valid(cfg, s) && id in s.elems
    ensures var rec := s.elems[id];
      var x1 := Ext1(cfg, rec.last1, rec.last2);
      var side := Side1(cfg, s, Delta1(cfg.delta1, rec.last1, rec.last2, rec.last1, rec.last2), x1, x1);
      side.idx == s.idx1 && side.total == s.total1
  {
    var rec := s.elems[id];
    var x1 := Ext1(cfg, rec.last1, rec.last2);
    var side := Side1(cfg, s, Delta1(cfg.delta1, rec.last1, rec.last2, rec.last1, rec.last2), x1, x1);
    OrdersTotal(cfg.mode1);
    if cfg.mode1 != Add {
      LiveIndexed1(cfg, s, id);
      CountExt(side.idx, s.idx1);
      TopUnique(Order1(cfg.mode1), s.idx1, side.total, s.total1, 0);
    }
  }

  /** Total 2's half of a snapshot-valued change notification keeps its
      count-map and value. */
  lemma SnapshotSide2<K>(cfg: Config<K>, s: State<K>, id: nat)
    requires Valid(cfg, s) && id in s.elems
    ensures var rec := s.elems[id];
      var x2 := Ext2(cfg, rec.last1, rec.last2);
      var side := Side2(cfg, s, Delta2(cfg.delta2, rec.last1, rec.last2, rec.last1, rec.last2), x2, x2);
      side.idx == s.idx2 && side.total == s.total2
  {
    var rec := s.elems[id];
    var x2 := Ext2(cfg, rec.last1, rec.last2);
    var d2 := Delta2(cfg.delta2, rec.last1, rec.last2, rec.last1, rec.last2);
    var side := Side2(cfg, s, d2, x2, x2);
    OrdersTotal(cfg.mode2);
    if cfg.mode2 != Add {
      LiveIndexed2(cfg, s, id);
      CountExt(side.idx, s.idx2);
      TopUnique(Order2(cfg.mode2), s.idx2, side.total, s.total2, 0.0);
    } else if cfg.apply2.DefaultApplyAdd? {
      assert d2 == 0.0 by {
        if cfg.delta2.DefaultDelta? {
          assert d2 == (rec.last2 as real) * rec.last1 - (rec.last2 as real) * rec.last1;
        }
      }
    }
  }

  // ---------------------------------------------------------------- key index

  /** Every answer of find_by_key names a live element carrying that key. */
  lemma FindByKeySound<K>(cfg: Config<K>, s: State<K>, k: K)
    requires Valid(cfg, s) && cfg.keying.Keyed?
    ensures FindByKey(cfg, s, k).Some? ==>
      FindByKey(cfg, s, k).value in s.elems && s.elems[FindByKey(cfg, s, k).value].key == Some(k)
  {
  }

  /** After pushing with key `k`, find_by_key(k) answers the new id when the
      key was not indexed; a key already indexed keeps its first mapping
      (emplace never overwrites). */
  lemma FindAfterPush<K>(cfg: Config<K>, s: State<K>, e1: real, e2: int, k: K)
    requires Valid(cfg, s) && cfg.keying.Keyed?
    ensures var p := Push(cfg, s, e1, e2, Some(k));
      FindByKey(cfg, p.state, k) == (if k in s.keyIdx then FindByKey(cfg, s, k) else Some(p.id))
  {
  }

  /** Erasing an element drops the key index's entry for its key, even when
      that entry names another live element with the same key: that element
      stays in the collection but find_by_key no longer reaches it. */
  lemma EraseDuplicateHidesFirst<K>(cfg: Config<K>, s: State<K>, a: nat, b: nat, k: K)
    requires Valid(cfg, s) && cfg.keying.Keyed?
    requires k in s.keyIdx && s.keyIdx[k] == a
    requires b in s.elems && b != a && s.elems[b].key == Some(k)
    ensures var r := Erase(cfg, s, b).state;
      && a in r.elems && r.elems[a].key == Some(k)
      && FindByKey(cfg, r, k) == None
  {
  }

  /** erase_by_key removes exactly the element the key index names, and
      afterwards the key is no longer found. */
  lemma EraseByKeyRemovesFound<K>(cfg: Config<K>, s: State<K>, k: K)
    requires Valid(cfg, s) && cfg.keying.Keyed?
    ensures var r := EraseByKey(cfg, s, k).state;
      && FindByKey(cfg, r, k) == None
      && (k in s.keyIdx ==> r.elems == s.elems - {s.keyIdx[k]})
      && (k !in s.keyIdx ==> r == s)
  {
  }

  // ---------------------------------------------------------------- summing totals

  /** Both totals are additive with the shipped delta and apply: total 1
      sums field 2 and total 2 sums field1 * field2. */
  predicate Summing<K>(cfg: Config<K>) {
    && cfg.mode1 == Add && cfg.delta1.DefaultDelta? && cfg.apply1.DefaultApplyAdd?
    && cfg.mode2 == Add && cfg.delta2.DefaultDelta? && cfg.apply2.DefaultApplyAdd?
  }

  /** push adds the new element's contribution to both summing totals. */
  lemma PushAdds<K>(cfg: Config<K>, s: State<K>, e1: real, e2: int, key: Option<K>)
    requires Summing(cfg)
    ensures Push(cfg, s, e1, e2, key).state.total1 == s.total1 + e2
    ensures Push(cfg, s, e1, e2, key).state.total2 == s.total2 + (e2 as real) * e1
  {
    var pre := Admit(cfg, s, e1, e2, key);
    var d1 := Delta1(cfg.delta1, e1, e2, 0.0, 0);
    var d2 := Delta2(cfg.delta2, e1, e2, 0.0, 0);
    assert d2 == (e2 as real) * e1 - (0 as real) * 0.0;
    ApplyPairAdditive(cfg, pre, d1, d2, None, Ext1(cfg, e1, e2), None, Ext2(cfg, e1, e2));
  }

  /** A change notification moves both summing totals by the difference
      between the new values' contribution and the snapshot's. */
  lemma UpdateShifts<K>(cfg: Config<K>, s: State<K>, id: nat, new1: real, new2: int)
    requires Summing(cfg) && id in s.elems
    ensures var r := Update(cfg, s, id, new1, new2).state;
      && r.total1 == s.total1 + new2 - s.elems[id].last2
      && r.total2 == s.total2 + (new2 as real) * new1 - (s.elems[id].last2 as real) * s.elems[id].last1
  {
    var rec := s.elems[id];
    var d1 := Delta1(cfg.delta1, new1, new2, rec.last1, rec.last2);
    var d2 := Delta2(cfg.delta2, new1, new2, rec.last1, rec.last2);
    var pre := s.(elems := s.elems[id := rec.(last1 := new1, last2 := new2)]);
    ApplyPairAdditive(cfg, pre, d1, d2, Ext1(cfg, rec.last1, rec.last2), Ext1(cfg, new1, new2),
                      Ext2(cfg, rec.last1, rec.last2), Ext2(cfg, new1, new2));
  }

  /** erase subtracts the element's contribution from both summing totals. */
  lemma EraseSubtracts<K>(cfg: Config<K>, s: State<K>, id: nat)
    requires Summing(cfg) && id in s.elems
    ensures var r := Erase(cfg, s, id).state;
      && r.total1 == s.total1 - s.elems[id].last2
      && r.total2 == s.total2 - (s.elems[id].last2 as real) * s.elems[id].last1
  {
    var rec := s.elems[id];
    var d1 := Delta1(cfg.delta1, 0.0, 0, rec.last1, rec.last2);
    var d2 := Delta2(cfg.delta2, 0.0, 0, rec.last1, rec.last2);
    assert d2 == (0 as real) * 0.0 - (rec.last2 as real) * rec.last1;
    ApplyPairAdditive(cfg, s, d1, d2, Ext1(cfg, rec.last1, rec.last2), None,
                      Ext2(cfg, rec.last1, rec.last2), None);
  }

  /** The summed field 2 of vals[i..]. */
  function BatchWeight1(vals: seq<(real, int)>, i: nat): int
    decreases |vals| - i
  {
    if i >= |vals| then 0 else vals[i].1 + BatchWeight1(vals, i + 1)
  }

  /** The summed field1 * field2 of vals[i..]. */
  function BatchWeight2(vals: seq<(real, int)>, i: nat): real
    decreases |vals| - i
  {
    if i >= |vals| then 0.0 else (vals[i].1 as real) * vals[i].0 + BatchWeight2(vals, i + 1)
  }

  /** Pushing vals[i..] adds their summed contributions to both summing totals. */
  lemma {:induction false} PushFromAdds<K>(cfg: Config<K>, s: State<K>, vals: seq<(real, int)>,
                                           keys: Option<seq<K>>, i: nat)
    requires Summing(cfg) && i <= |vals|
    ensures var b := PushFrom(cfg, s, vals, keys, i);
      && b.state.total1 == s.total1 + BatchWeight1(vals, i)
      && b.state.total2 == s.total2 + BatchWeight2(vals, i)
    decreases |vals| - i
  {
    if i < |vals| {
      var p := Push(cfg, s, vals[i].0, vals[i].1, BatchKey(keys, i));
      PushAdds(cfg, s, vals[i].0, vals[i].1, BatchKey(keys, i));
      PushFromAdds(cfg, p.state, vals, keys, i + 1);
    }
  }

  /** Batch push_back adds the pairs' summed contributions to both summing totals. */
  lemma PushBatchAdds<K>(cfg: Config<K>, s: State<K>, vals: seq<(real, int)>, keys: Option<seq<K>>)
    requires Summing(cfg)
    ensures var b := PushBatch(cfg, s, vals, keys);
      && b.state.total1 == s.total1 + BatchWeight1(vals, 0)
      && b.state.total2 == s.total2 + BatchWeight2(vals, 0)
  {
    if |vals| > 0 {
      PushFromAdds(cfg, s, vals, keys, 0);
    }
  }
}
