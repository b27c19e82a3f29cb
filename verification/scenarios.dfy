/** Concrete runs: the demo program's totals, the size bookkeeping of the
    tests, a Min-mode collection with a duplicated extreme, and the stale
    Min total that clear() as written leaves behind.

    Each lemma takes the intermediate results of its run as parameters,
    pinned by `requires x == F(...)` and given in call order. This form
    lets the verifier unfold one call at a time, from facts proved about
    the previous state, instead of evaluating the whole chain of literal
    calls in one proof obligation. Any caller can meet these requires by
    passing the calls' own results. */
module Scenarios {
  import opened Base
  import opened Functors
  import opened Collection
  import opened Invariants
  import opened Properties
  import opened Folds
  import opened CountMap
  import opened Aggregates

  /** The shipped configuration: additive totals with the shipped functors,
      non-combined publication, no key type. */
  function Shipped(): (cfg: Config<int>)
    ensures Summing(cfg) && Tracked(cfg) && cfg.keying.Unkeyed?
  {
    Config(Add, Add, DefaultDelta, DefaultApplyAdd, DefaultDelta, DefaultApplyAdd,
           DefaultExtract, DefaultExtract, false, Unkeyed)
  }

  /** Total 1 is the minimum of field 2; total 2 sums field1 * field2. */
  function MinOfField2(): (cfg: Config<int>)
    ensures Tracked(cfg) && cfg.mode1 == Min && cfg.keying.Unkeyed?
  {
    Config(Min, Add, DefaultDelta, DefaultApplyAdd, DefaultDelta, DefaultApplyAdd,
           DefaultExtract, DefaultExtract, false, Unkeyed)
  }

  /** The demo's first two pushes: ids 1 and 2, totals 13 and 19.5. */
  lemma DemoPushes(cfg: Config<int>, p1: Pushed<int>, p2: Pushed<int>)
    requires cfg == Shipped()
    requires p1 == Push(cfg, Init(), 1.2, 10, None)
    requires p2 == Push(cfg, p1.state, 2.5, 3, None)
    ensures Valid(cfg, p2.state) && p1.id == 1 && p2.id == 2
    ensures p2.state.elems == map[1 := Rec(1.2, 10, None), 2 := Rec(2.5, 3, None)]
    ensures p2.state.total1 == 13 && p2.state.total2 == 19.5
  {
    var s0 := Init<int>();
    InitValid(cfg);
    PushAdds(cfg, s0, 1.2, 10, None);
    PushValid(cfg, s0, 1.2, 10, None);
    PushAdds(cfg, p1.state, 2.5, 3, None);
    PushValid(cfg, p1.state, 2.5, 3, None);
  }

  /** The demo's two field writes: field 1 of id 1 becomes 1.5, field 2 of
      id 2 becomes 5; totals 15 and 27.5. */
  lemma DemoUpdates(cfg: Config<int>, s: State<int>, u1: Step<int>, u2: Step<int>)
    requires cfg == Shipped() && Valid(cfg, s)
    requires s.elems == map[1 := Rec(1.2, 10, None), 2 := Rec(2.5, 3, None)]
    requires s.total1 == 13 && s.total2 == 19.5
    requires u1 == Update(cfg, s, 1, 1.5, 10)
    requires u2 == Update(cfg, u1.state, 2, 2.5, 5)
    ensures Valid(cfg, u2.state)
    ensures u2.state.elems == map[1 := Rec(1.5, 10, None), 2 := Rec(2.5, 5, None)]
    ensures u2.state.total1 == 15 && u2.state.total2 == 27.5
  {
    UpdateShifts(cfg, s, 1, 1.5, 10);
    UpdateValid(cfg, s, 1, 1.5, 10);
    UpdateShifts(cfg, u1.state, 2, 2.5, 5);
    UpdateValid(cfg, u1.state, 2, 2.5, 5);
  }

  /** The demo's batch push of (3.0, 2) and (4.0, 1): ids 3 and 4, totals
      18 and 37.5, the first element untouched. */
  lemma DemoBatch(cfg: Config<int>, s: State<int>, b: Batch<int>)
    requires cfg == Shipped() && Valid(cfg, s) && s.nextId == 3
    requires s.elems == map[1 := Rec(1.5, 10, None), 2 := Rec(2.5, 5, None)]
    requires s.total1 == 15 && s.total2 == 27.5
    requires b == PushBatch(cfg, s, [(3.0, 2), (4.0, 1)], None)
    ensures Valid(cfg, b.state) && b.ids == [3, 4] && Size(b.state) == 4
    ensures 1 in b.state.elems && b.state.elems[1] == Rec(1.5, 10, None)
    ensures b.state.total1 == 18 && b.state.total2 == 37.5
  {
    var vals := [(3.0, 2), (4.0, 1)];
    PushBatchAdds(cfg, s, vals, None);
    PushBatchValid(cfg, s, vals, None);
    assert BatchWeight1(vals, 0) == 3;
    assert BatchWeight2(vals, 0) == 10.0;
  }

  /** The demo program: push (1.2, 10) and (2.5, 3); field 1 of the first
      becomes 1.5; field 2 of the second becomes 5; batch-push (3.0, 2) and
      (4.0, 1); erase the first. The totals go 13 / 19.5, then 15 / 27.5
      after the updates, 18 / 37.5 after the batch and 8 / 22.5 after the
      erase (exact arithmetic). */
  lemma DemoTotals(cfg: Config<int>, p1: Pushed<int>, p2: Pushed<int>, u1: Step<int>, u2: Step<int>,
                   b: Batch<int>, e: Step<int>)
    requires cfg == Shipped()
    requires p1 == Push(cfg, Init(), 1.2, 10, None)
    requires p2 == Push(cfg, p1.state, 2.5, 3, None)
    requires u1 == Update(cfg, p2.state, p1.id, 1.5, 10)
    requires u2 == Update(cfg, u1.state, p2.id, 2.5, 5)
    requires b == PushBatch(cfg, u2.state, [(3.0, 2), (4.0, 1)], None)
    requires e == Erase(cfg, b.state, p1.id)
    ensures p1.id == 1 && p2.id == 2 && b.ids == [3, 4]
    ensures p2.state.total1 == 13 && p2.state.total2 == 19.5
    ensures u2.state.total1 == 15 && u2.state.total2 == 27.5
    ensures b.state.total1 == 18 && b.state.total2 == 37.5
    ensures e.state.total1 == 8 && e.state.total2 == 22.5
    ensures Size(e.state) == 3
  {
    DemoPushes(cfg, p1, p2);
    DemoUpdates(cfg, p2.state, u1, u2);
    DemoBatch(cfg, u2.state, b);
    EraseSubtracts(cfg, b.state, 1);
  }

  /** The size bookkeeping the tests check: empty at first, one and two
      after two pushes, one after erasing the first, empty after erasing
      the second, whatever the configuration and values. */
  lemma SizeLifecycle<K>(cfg: Config<K>, a1: real, a2: int, b1: real, b2: int,
                         p1: Pushed<K>, p2: Pushed<K>, e1: Step<K>, e2: Step<K>)
    requires p1 == Push(cfg, Init(), a1, a2, None)
    requires p2 == Push(cfg, p1.state, b1, b2, None)
    requires e1 == Erase(cfg, p2.state, p1.id)
    requires e2 == Erase(cfg, e1.state, p2.id)
    ensures IsEmpty(Init<K>()) && Size(Init<K>()) == 0
    ensures !IsEmpty(p1.state) && Size(p1.state) == 1
    ensures Size(p2.state) == 2
    ensures Size(e1.state) == 1
    ensures IsEmpty(e2.state) && Size(e2.state) == 0
  {
    assert p1.state.elems.Keys == {1};
    assert p2.state.elems.Keys == {1, 2};
    assert e1.state.elems.Keys == {p2.id};
  }

  /** Three pushes onto a Min-of-field-2 collection with field-2 values
      5, 3, 3: the minimum is 3. */
  lemma MinPushes(cfg: Config<int>, p1: Pushed<int>, p2: Pushed<int>, p3: Pushed<int>)
    requires cfg == MinOfField2()
    requires p1 == Push(cfg, Init(), 1.0, 5, None)
    requires p2 == Push(cfg, p1.state, 2.0, 3, None)
    requires p3 == Push(cfg, p2.state, 3.0, 3, None)
    ensures Valid(cfg, p3.state) && p2.id == 2 && p3.id == 3
    ensures p3.state.elems == map[1 := Rec(1.0, 5, None), 2 := Rec(2.0, 3, None), 3 := Rec(3.0, 3, None)]
  {
    var s0 := Init<int>();
    InitValid(cfg);
    PushValid(cfg, s0, 1.0, 5, None);
    PushValid(cfg, p1.state, 2.0, 3, None);
    PushValid(cfg, p2.state, 3.0, 3, None);
  }

  /** A Min total over records whose field-2 values are 5, 3, 3 is 3. */
  lemma MinOfFive33(cfg: Config<int>, s: State<int>)
    requires cfg == MinOfField2() && Valid(cfg, s)
    requires s.elems == map[1 := Rec(1.0, 5, None), 2 := Rec(2.0, 3, None), 3 := Rec(3.0, 3, None)]
    ensures s.total1 == 3
  {
    ExtremeOfLive1(cfg, s);
    assert Extracted1(cfg)(s.elems[1]) == 5;
    assert Extracted1(cfg)(s.elems[2]) == 3;
    assert Extracted1(cfg)(s.elems[3]) == 3;
    var c :| c in s.elems && Extracted1(cfg)(s.elems[c]) == s.total1;
    assert c == 1 || c == 2 || c == 3;
  }

  /** Erasing one of two elements holding the minimum 3 keeps it at 3. */
  lemma MinEraseShared(cfg: Config<int>, s: State<int>, e2: Step<int>)
    requires cfg == MinOfField2() && Valid(cfg, s) && s.total1 == 3
    requires 2 in s.elems && 3 in s.elems && s.elems[3].last2 == 3
    requires e2 == Erase(cfg, s, 2)
    ensures Valid(cfg, e2.state) && e2.state.total1 == 3
    ensures e2.state.elems == s.elems - {2}
  {
    assert Extracted1(cfg)(s.elems[3]) == s.total1;
    EraseExtreme1(cfg, s, 2);
    EraseValid(cfg, s, 2);
  }

  /** The records left after erasing id 2 of the three. */
  lemma DropSecond(m: map<nat, Rec<int>>, m': map<nat, Rec<int>>)
    requires m == map[1 := Rec(1.0, 5, None), 2 := Rec(2.0, 3, None), 3 := Rec(3.0, 3, None)]
    requires m' == m - {2}
    ensures m' == map[1 := Rec(1.0, 5, None), 3 := Rec(3.0, 3, None)]
  {
  }

  /** Erasing the last 3 raises the minimum to 5. */
  lemma MinEraseLast(cfg: Config<int>, s: State<int>, e3: Step<int>)
    requires cfg == MinOfField2() && Valid(cfg, s)
    requires s.elems == map[1 := Rec(1.0, 5, None), 3 := Rec(3.0, 3, None)]
    requires e3 == Erase(cfg, s, 3)
    ensures e3.state.total1 == 5
  {
    EraseValid(cfg, s, 3);
    assert e3.state.elems == map[1 := Rec(1.0, 5, None)];
    ExtremeOfLive1(cfg, e3.state);
    assert Extracted1(cfg)(e3.state.elems[1]) == 5;
  }

  /** Min mode keeps duplicates: with field-2 values 5, 3, 3 the minimum
      is 3; erasing one of the 3s keeps it; erasing the other raises it to 5. */
  lemma MinWithDuplicates(cfg: Config<int>, p1: Pushed<int>, p2: Pushed<int>, p3: Pushed<int>,
                          e2: Step<int>, e3: Step<int>)
    requires cfg == MinOfField2()
    requires p1 == Push(cfg, Init(), 1.0, 5, None)
    requires p2 == Push(cfg, p1.state, 2.0, 3, None)
    requires p3 == Push(cfg, p2.state, 3.0, 3, None)
    requires e2 == Erase(cfg, p3.state, p2.id)
    requires e3 == Erase(cfg, e2.state, p3.id)
    ensures p3.state.total1 == 3 && e2.state.total1 == 3 && e3.state.total1 == 5
  {
    MinPushes(cfg, p1, p2, p3);
    MinOfFive33(cfg, p3.state);
    MinEraseShared(cfg, p3.state, e2);
    DropSecond(p3.state.elems, e2.state.elems);
    MinEraseLast(cfg, e2.state, e3);
  }

  // ---------------------------------------------------------------- clear() finding

  /** One push of field-2 value 7 onto a Min collection: the count-map
      holds exactly the value 7. */
  lemma StalePush(cfg: Config<int>, p1: Pushed<int>)
    requires cfg == MinOfField2()
    requires p1 == Push(cfg, Init(), 1.0, 7, None)
    ensures Valid(cfg, p1.state) && p1.state.elems == map[1 := Rec(1.0, 7, None)]
    ensures p1.state.idx1.Keys == {7}
  {
    InitValid(cfg);
    PushValid(cfg, Init(), 1.0, 7, None);
    var s := p1.state;
    LiveIndexed1(cfg, s, 1);
    forall v | v in s.idx1 ensures v == 7 {
      assert Count(s.idx1, v) > 0;
      OccWitness(s.elems, s.nextId, Extracted1(cfg), v);
    }
  }

  /** clear() as written on that collection: no element is left, yet the
      count-map still holds 7 and the Min total still reads 7. */
  lemma StaleClear(cfg: Config<int>, s: State<int>, c: Step<int>)
    requires cfg == MinOfField2()
    requires s.elems == map[1 := Rec(1.0, 7, None)] && s.idx1.Keys == {7}
    requires c == Clear(cfg, s)
    ensures c.state.elems == map[] && c.state.idx1.Keys == {7} && c.state.total1 == 7
  {
    var d1 := SumInt(s.elems, s.nextId, Removal1(cfg));
    var d2 := SumReal(s.elems, s.nextId, Removal2(cfg));
    ApplyPairIndexed(cfg, s, d1, d2, None, None, None, None);
    assert 1 in s.elems;
    var r := ApplyPair(cfg, s, d1, d2, None, None, None, None).state;
    assert c.state.total1 == r.total1;
    assert r.idx1 == s.idx1 by {
      CountExt(r.idx1, s.idx1);
    }
    assert r.total1 in r.idx1.Keys;
  }

  /** A push of field-2 value 9 onto that cleared collection: its only
      element has 9, yet the Min total reads 7. */
  lemma StaleAfterPush(cfg: Config<int>, s: State<int>, p2: Pushed<int>)
    requires cfg == MinOfField2()
    requires s.elems == map[] && s.idx1.Keys == {7} && s.nextId == 2
    requires p2 == Push(cfg, s, 1.0, 9, None)
    ensures p2.state.elems == map[2 := Rec(1.0, 9, None)] && p2.state.total1 == 7
  {
    var pre := Admit(cfg, s, 1.0, 9, None);
    var d1 := Delta1(cfg.delta1, 1.0, 9, 0.0, 0);
    var d2 := Delta2(cfg.delta2, 1.0, 9, 0.0, 0);
    ApplyPairIndexed(cfg, pre, d1, d2, None, Ext1(cfg, 1.0, 9), None, Ext2(cfg, 1.0, 9));
    var idx := p2.state.idx1;
    assert Count(idx, 7) > 0 && Count(idx, 9) > 0;
    forall v | v in idx ensures v == 7 || v == 9 {
      assert Count(idx, v) > 0;
    }
    assert idx.Keys == {7, 9};
  }

  /** Finding, as written: Min of field 2; push 7; clear(); push 9. The
      cleared collection is empty but reports 7, and after pushing 9 its
      minimum still reads 7 although its only element has 9. */
  lemma ClearStaleMinimum(cfg: Config<int>, p1: Pushed<int>, c: Step<int>, p2: Pushed<int>)
    requires cfg == MinOfField2()
    requires p1 == Push(cfg, Init(), 1.0, 7, None)
    requires c == Clear(cfg, p1.state)
    requires p2 == Push(cfg, c.state, 1.0, 9, None)
    ensures c.state.elems == map[] && c.state.total1 == 7
    ensures p2.state.elems == map[2 := Rec(1.0, 9, None)] && p2.state.total1 == 7
  {
    StalePush(cfg, p1);
    StaleClear(cfg, p1.state, c);
    StaleAfterPush(cfg, c.state, p2);
  }

  /** The same calls with the corrected clear(): the cleared collection
      reports the default value 0 and, after pushing 9, the minimum is 9. */
  lemma ClearCorrectedFreshMinimum(cfg: Config<int>, p1: Pushed<int>, c: Step<int>, p2: Pushed<int>)
    requires cfg == MinOfField2()
    requires p1 == Push(cfg, Init(), 1.0, 7, None)
    requires c == ClearCorrected(cfg, p1.state)
    requires p2 == Push(cfg, c.state, 1.0, 9, None)
    ensures c.state.elems == map[] && c.state.total1 == 0
    ensures p2.state.elems == map[2 := Rec(1.0, 9, None)] && p2.state.total1 == 9
  {
    StalePush(cfg, p1);
    ClearCorrectedValid(cfg, p1.state);
    PushValid(cfg, c.state, 1.0, 9, None);
    ExtremeOfLive1(cfg, p2.state);
    assert Extracted1(cfg)(p2.state.elems[2]) == 9;
  }
}
