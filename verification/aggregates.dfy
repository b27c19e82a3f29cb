/** What apply_pair promises: how each total and count-map moves, and
    which writes to the total cells observers get to see. */
module Aggregates {
  import opened Base
  import opened CountMap
  import opened Functors
  import opened Collection

  /** Some notice writes total 1. */
  predicate Written1(ns: seq<Notice>) {
    exists i | 0 <= i < |ns| :: ns[i].total1.Some?
  }

  /** Some notice writes total 2. */
  predicate Written2(ns: seq<Notice>) {
    exists i | 0 <= i < |ns| :: ns[i].total2.Some?
  }

  /** Add mode: DefaultApplyAdd adds the delta and always writes the total;
      any other apply functor that reports a change leaves the total at the
      functor's result, and one (NoopApply included) that reports no change
      leaves the total alone and unwritten; the count-map is untouched. */
  lemma ApplyPairAdditive<K>(cfg: Config<K>, s: State<K>, d1: int, d2: real,
                                 old1: Option<int>, new1: Option<int>,
                                 old2: Option<real>, new2: Option<real>)
    ensures var r := ApplyPair(cfg, s, d1, d2, old1, new1, old2, new2);
      && (cfg.mode1 == Add ==> r.state.idx1 == s.idx1)
      && (cfg.mode1 == Add && cfg.apply1.DefaultApplyAdd? ==> r.state.total1 == s.total1 + d1 && Written1(r.notices))
      && (cfg.mode1 == Add && Apply1(cfg.apply1, s.total1, d1).1 ==> r.state.total1 == Apply1(cfg.apply1, s.total1, d1).0)
      && (cfg.mode1 == Add && !Apply1(cfg.apply1, s.total1, d1).1 ==> r.state.total1 == s.total1 && !Written1(r.notices))
      && (cfg.mode2 == Add ==> r.state.idx2 == s.idx2)
      && (cfg.mode2 == Add && cfg.apply2.DefaultApplyAdd? ==> r.state.total2 == s.total2 + d2 && Written2(r.notices))
      && (cfg.mode2 == Add && Apply2(cfg.apply2, s.total2, d2).1 ==> r.state.total2 == Apply2(cfg.apply2, s.total2, d2).0)
      && (cfg.mode2 == Add && !Apply2(cfg.apply2, s.total2, d2).1 ==> r.state.total2 == s.total2 && !Written2(r.notices))
  {
    var r := ApplyPair(cfg, s, d1, d2, old1, new1, old2, new2);
    if cfg.mode1 == Add && cfg.apply1.DefaultApplyAdd? {
      assert r.notices[0].total1.Some?;
    }
    if cfg.mode2 == Add && cfg.apply2.DefaultApplyAdd? {
      assert r.notices[|r.notices| - 1].total2.Some?;
    }
  }

  /** Min/Max mode: the count-map loses one occurrence of the old extracted
      value (if present) and then gains one of the new, and the total ends
      as the count-map's extreme, or the default value when it is empty. */
  lemma ApplyPairIndexed<K>(cfg: Config<K>, s: State<K>, d1: int, d2: real,
                                old1: Option<int>, new1: Option<int>,
                                old2: Option<real>, new2: Option<real>)
    ensures var r := ApplyPair(cfg, s, d1, d2, old1, new1, old2, new2);
      && (cfg.mode1 != Add ==>
          && (forall v :: Count(r.state.idx1, v)
                          == Count(s.idx1, v) - (if old1 == Some(v) && v in s.idx1 then 1 else 0)
                                              + (if new1 == Some(v) then 1 else 0))
          && IsTop(Order1(cfg.mode1), r.state.idx1, r.state.total1, 0))
      && (cfg.mode2 != Add ==>
          && (forall v :: Count(r.state.idx2, v)
                          == Count(s.idx2, v) - (if old2 == Some(v) && v in s.idx2 then 1 else 0)
                                              + (if new2 == Some(v) then 1 else 0))
          && IsTop(Order2(cfg.mode2), r.state.idx2, r.state.total2, 0.0))
  {
  }

  /** Publication. Every notice carries the totals' final values. The
      non-combined path writes each total as its own event, and a Min/Max
      total is rewritten even when its value did not change. The combined
      path raises at most one event; a Min/Max total is in it exactly when
      its value changed, an additive total exactly when its apply functor
      reported a change, and no event is raised when neither is in it. */
  lemma ApplyPairPublication<K>(cfg: Config<K>, s: State<K>, d1: int, d2: real,
                                    old1: Option<int>, new1: Option<int>,
                                    old2: Option<real>, new2: Option<real>)
    ensures var r := ApplyPair(cfg, s, d1, d2, old1, new1, old2, new2);
      && (forall i | 0 <= i < |r.notices| ::
            && (r.notices[i].total1.Some? ==> r.notices[i].total1.value == r.state.total1)
            && (r.notices[i].total2.Some? ==> r.notices[i].total2.value == r.state.total2))
      && (!cfg.combined ==> forall i | 0 <= i < |r.notices| :: r.notices[i].total1.Some? != r.notices[i].total2.Some?)
      && (!cfg.combined && cfg.mode1 != Add ==> Written1(r.notices))
      && (!cfg.combined && cfg.mode2 != Add ==> Written2(r.notices))
      && (cfg.combined ==> |r.notices| <= 1)
      && (cfg.combined ==> (r.notices == [] <==> !Written1(r.notices) && !Written2(r.notices)))
      && (cfg.combined && cfg.mode1 != Add ==> (Written1(r.notices) <==> r.state.total1 != s.total1))
      && (cfg.combined && cfg.mode2 != Add ==> (Written2(r.notices) <==> r.state.total2 != s.total2))
      && (cfg.mode1 == Add ==> (Written1(r.notices) <==> Apply1(cfg.apply1, s.total1, d1).1))
      && (cfg.mode2 == Add ==> (Written2(r.notices) <==> Apply2(cfg.apply2, s.total2, d2).1))
  {
    var side1 := Side1(cfg, s, d1, old1, new1);
    var side2 := Side2(cfg, s, d2, old2, new2);
    var r := ApplyPair(cfg, s, d1, d2, old1, new1, old2, new2);
    assert r.notices == Publish(cfg.combined, side1, side2);
    assert r.state.total1 == side1.total && r.state.total2 == side2.total;
    PublishWrites(cfg.combined, side1, side2);
  }

  /** The notices of one apply_pair, given both halves: each carries the
      values the halves computed, a total is written exactly when its half
      asks for it, non-combined notices write one total each, and the
      combined path raises at most one. */
  lemma PublishWrites(combined: bool, side1: Side<int>, side2: Side<real>)
    ensures var ns := Publish(combined, side1, side2);
      && (forall i | 0 <= i < |ns| ::
            && (ns[i].total1.Some? ==> ns[i].total1.value == side1.total)
            && (ns[i].total2.Some? ==> ns[i].total2.value == side2.total))
      && (!combined ==> forall i | 0 <= i < |ns| :: ns[i].total1.Some? != ns[i].total2.Some?)
      && (combined ==> |ns| <= 1)
      && (combined ==> (ns == [] <==> !side1.publish && !side2.publish))
      && (Written1(ns) <==> side1.publish)
      && (Written2(ns) <==> side2.publish)
  {
    var ns := Publish(combined, side1, side2);
    if side1.publish {
      assert ns[0].total1.Some?;
    }
    if side2.publish {
      assert ns[|ns| - 1].total2.Some?;
    }
  }
}
