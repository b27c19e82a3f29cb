/** Folds over the element map, taken over ids below a bound (every live
    id is below the next id to be issued). They are the independent
    reference definitions the maintained totals and count-maps are checked
    against. */
module Folds {

  /** Sum of `f` over the entries of `m` whose id is below `n`. */
  function SumInt<V>(m: map<nat, V>, n: nat, f: V -> int): int
    decreases n
  {
    if n == 0 then 0 else SumInt(m, n - 1, f) + (if n - 1 in m then f(m[n - 1]) else 0)
  }

  /** The same sum for real-valued `f`. */
  function SumReal<V>(m: map<nat, V>, n: nat, f: V -> real): real
    decreases n
  {
    if n == 0 then 0.0 else SumReal(m, n - 1, f) + (if n - 1 in m then f(m[n - 1]) else 0.0)
  }

  /** How many entries of `m` with id below `n` have `f`-value `x`: the
      multiplicity of `x` in the multiset of `f` over those entries. */
  function Occ<V, T(==)>(m: map<nat, V>, n: nat, f: V -> T, x: T): nat
    decreases n
  {
    if n == 0 then 0 else Occ(m, n - 1, f, x) + (if n - 1 in m && f(m[n - 1]) == x then 1 else 0)
  }

  // ---- SumInt ----

  lemma {:induction false} SumIntFrame<V>(m: map<nat, V>, m': map<nat, V>, n: nat, f: V -> int)
    requires forall i | i < n :: (i in m <==> i in m')
    requires forall i | i < n && i in m && i in m' :: f(m[i]) == f(m'[i])
    ensures SumInt(m, n, f) == SumInt(m', n, f)
  {
    if n > 0 {
      SumIntFrame(m, m', n - 1, f);
    }
  }

  lemma {:induction false} SumIntPut<V>(m: map<nat, V>, n: nat, id: nat, v: V, f: V -> int)
    requires id < n
    ensures SumInt(m[id := v], n, f) == SumInt(m, n, f) - (if id in m then f(m[id]) else 0) + f(v)
  {
    if n - 1 == id {
      SumIntFrame(m[id := v], m, id, f);
    } else {
      SumIntPut(m, n - 1, id, v, f);
    }
  }

  lemma {:induction false} SumIntRemove<V>(m: map<nat, V>, n: nat, id: nat, f: V -> int)
    ensures SumInt(m - {id}, n, f) == SumInt(m, n, f) - (if id in m && id < n then f(m[id]) else 0)
  {
    if n > 0 {
      SumIntRemove(m, n - 1, id, f);
    }
  }

  lemma SumIntPush<V>(m: map<nat, V>, n: nat, v: V, f: V -> int)
    requires forall i | i in m :: i < n
    ensures SumInt(m[n := v], n + 1, f) == SumInt(m, n, f) + f(v)
  {
    SumIntFrame(m[n := v], m, n, f);
  }

  lemma {:induction false} SumIntEmpty<V>(n: nat, f: V -> int)
    ensures SumInt(map[], n, f) == 0
  {
    if n > 0 {
      SumIntEmpty(n - 1, f);
    }
  }

  lemma {:induction false} SumIntNegate<V>(m: map<nat, V>, n: nat, f: V -> int, g: V -> int)
    requires forall i | i in m :: f(m[i]) == -g(m[i])
    ensures SumInt(m, n, f) == -SumInt(m, n, g)
  {
    if n > 0 {
      SumIntNegate(m, n - 1, f, g);
    }
  }

  lemma {:induction false} SumIntZero<V>(m: map<nat, V>, n: nat, f: V -> int)
    requires forall i | i in m :: f(m[i]) == 0
    ensures SumInt(m, n, f) == 0
  {
    if n > 0 {
      SumIntZero(m, n - 1, f);
    }
  }

  // ---- SumReal ----

  lemma {:induction false} SumRealFrame<V>(m: map<nat, V>, m': map<nat, V>, n: nat, f: V -> real)
    requires forall i | i < n :: (i in m <==> i in m')
    requires forall i | i < n && i in m && i in m' :: f(m[i]) == f(m'[i])
    ensures SumReal(m, n, f) == SumReal(m', n, f)
  {
    if n > 0 {
      SumRealFrame(m, m', n - 1, f);
    }
  }

  lemma {:induction false} SumRealPut<V>(m: map<nat, V>, n: nat, id: nat, v: V, f: V -> real)
    requires id < n
    ensures SumReal(m[id := v], n, f) == SumReal(m, n, f) - (if id in m then f(m[id]) else 0.0) + f(v)
  {
    if n - 1 == id {
      SumRealFrame(m[id := v], m, id, f);
    } else {
      SumRealPut(m, n - 1, id, v, f);
    }
  }

  lemma {:induction false} SumRealRemove<V>(m: map<nat, V>, n: nat, id: nat, f: V -> real)
    ensures SumReal(m - {id}, n, f) == SumReal(m, n, f) - (if id in m && id < n then f(m[id]) else 0.0)
  {
    if n > 0 {
      SumRealRemove(m, n - 1, id, f);
    }
  }

  lemma SumRealPush<V>(m: map<nat, V>, n: nat, v: V, f: V -> real)
    requires forall i | i in m :: i < n
    ensures SumReal(m[n := v], n + 1, f) == SumReal(m, n, f) + f(v)
  {
    SumRealFrame(m[n := v], m, n, f);
  }

  lemma {:induction false} SumRealEmpty<V>(n: nat, f: V -> real)
    ensures SumReal(map[], n, f) == 0.0
  {
    if n > 0 {
      SumRealEmpty(n - 1, f);
    }
  }

  lemma {:induction false} SumRealNegate<V>(m: map<nat, V>, n: nat, f: V -> real, g: V -> real)
    requires forall i | i in m :: f(m[i]) == -g(m[i])
    ensures SumReal(m, n, f) == -SumReal(m, n, g)
  {
    if n > 0 {
      SumRealNegate(m, n - 1, f, g);
    }
  }

  lemma {:induction false} SumRealZero<V>(m: map<nat, V>, n: nat, f: V -> real)
    requires forall i | i in m :: f(m[i]) == 0.0
    ensures SumReal(m, n, f) == 0.0
  {
    if n > 0 {
      SumRealZero(m, n - 1, f);
    }
  }

  // ---- Occ ----

  lemma {:induction false} OccFrame<V, T>(m: map<nat, V>, m': map<nat, V>, n: nat, f: V -> T, x: T)
    requires forall i | i < n :: (i in m <==> i in m')
    requires forall i | i < n && i in m && i in m' :: f(m[i]) == f(m'[i])
    ensures Occ(m, n, f, x) == Occ(m', n, f, x)
  {
    if n > 0 {
      OccFrame(m, m', n - 1, f, x);
    }
  }

  lemma {:induction false} OccPut<V, T>(m: map<nat, V>, n: nat, id: nat, v: V, f: V -> T, x: T)
    requires id < n
    ensures Occ(m[id := v], n, f, x)
         == Occ(m, n, f, x) - (if id in m && f(m[id]) == x then 1 else 0) + (if f(v) == x then 1 else 0)
  {
    if n - 1 == id {
      OccFrame(m[id := v], m, id, f, x);
    } else {
      OccPut(m, n - 1, id, v, f, x);
    }
  }

  lemma {:induction false} OccRemove<V, T>(m: map<nat, V>, n: nat, id: nat, f: V -> T, x: T)
    ensures Occ(m - {id}, n, f, x) == Occ(m, n, f, x) - (if id in m && id < n && f(m[id]) == x then 1 else 0)
  {
    if n > 0 {
      OccRemove(m, n - 1, id, f, x);
    }
  }

  lemma OccPush<V, T>(m: map<nat, V>, n: nat, v: V, f: V -> T, x: T)
    requires forall i | i in m :: i < n
    ensures Occ(m[n := v], n + 1, f, x) == Occ(m, n, f, x) + (if f(v) == x then 1 else 0)
  {
    OccFrame(m[n := v], m, n, f, x);
  }

  lemma {:induction false} OccEmpty<V, T>(n: nat, f: V -> T, x: T)
    ensures Occ(map[], n, f, x) == 0
  {
    if n > 0 {
      OccEmpty(n - 1, f, x);
    }
  }

  /** A live entry is counted for its own value. */
  lemma {:induction false} OccPositive<V, T>(m: map<nat, V>, n: nat, id: nat, f: V -> T)
    requires id in m && id < n
    ensures Occ(m, n, f, f(m[id])) > 0
  {
    if n - 1 != id {
      OccPositive(m, n - 1, id, f);
    }
  }

  /** A value counted at least once is the value of some entry below `n`. */
  lemma {:induction false} OccWitness<V, T>(m: map<nat, V>, n: nat, f: V -> T, x: T)
    requires Occ(m, n, f, x) > 0
    ensures exists id :: id in m && id < n && f(m[id]) == x
  {
    if !(n - 1 in m && f(m[n - 1]) == x) {
      OccWitness(m, n - 1, f, x);
    }
  }
}
