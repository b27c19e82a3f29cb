/** The order-statistic structure of Min/Max mode: an ordered map from an
    extracted value to the number of live elements that produce it. */
module CountMap {
  import opened Base

  /** An occurrence count; an entry whose count would reach zero is removed. */
  type Pos = n: nat | 0 < n witness 1

  /** `lt` is a strict total order: irreflexive, transitive and connected. */
  ghost predicate StrictTotal<T(!new)>(lt: (T, T) -> bool) {
    && (forall a :: !lt(a, a))
    && (forall a, b, c :: lt(a, b) && lt(b, c) ==> lt(a, c))
    && (forall a, b :: a != b ==> lt(a, b) || lt(b, a))
  }

  /** `x` is the member of `s` that comes first under `lt`. */
  predicate Leads<T(==)>(lt: (T, T) -> bool, x: T, s: set<T>) {
    x in s && forall y | y in s && y != x :: lt(x, y)
  }

  /** `t` is what the count-map reports as its extreme: the leading key, or
      `zero` (the total type's default value) when the map is empty. */
  ghost predicate IsTop<T>(lt: (T, T) -> bool, m: map<T, Pos>, t: T, zero: T) {
    && (m.Keys == {} ==> t == zero)
    && (m.Keys != {} ==> Leads(lt, t, m.Keys))
  }

  /** How many live elements currently produce `v`. */
  function Count<T(==)>(m: map<T, Pos>, v: T): nat {
    if v in m then m[v] else 0
  }

  /** One more occurrence of `v`, creating its entry if needed. */
  function Insert<T(==,!new)>(m: map<T, Pos>, v: T): (r: map<T, Pos>)
    ensures Count(r, v) == Count(m, v) + 1
    ensures forall u | u != v :: Count(r, u) == Count(m, u)
    ensures r.Keys == m.Keys + {v}
  {
    m[v := Count(m, v) + 1]
  }

  /** One occurrence of `v` fewer; the entry goes when its count reaches
      zero, and a value that is not present changes nothing. */
  function EraseOne<T(==,!new)>(m: map<T, Pos>, v: T): (r: map<T, Pos>)
    ensures v !in m ==> r == m
    ensures Count(r, v) == if v in m then Count(m, v) - 1 else 0
    ensures forall u | u != v :: Count(r, u) == Count(m, u)
    ensures r.Keys == if Count(m, v) == 1 then m.Keys - {v} else m.Keys
  {
    if v !in m then m
    else if m[v] == 1 then m - {v}
    else m[v := m[v] - 1]
  }

  /** Every finite non-empty set has a leading element under a strict total order. */
  lemma {:induction false} LeaderExists<T(!new)>(lt: (T, T) -> bool, s: set<T>)
    requires s != {}
    requires StrictTotal(lt)
    ensures exists x :: Leads(lt, x, s)
    decreases s
  {
    var a :| a in s;
    if s == {a} {
      assert Leads(lt, a, s);
    } else {
      LeaderExists(lt, s - {a});
      var b :| Leads(lt, b, s - {a});
      if lt(a, b) {
        forall y | y in s && y != a ensures lt(a, y) {
          if y != b {
            assert lt(b, y);
          }
        }
        assert Leads(lt, a, s);
      } else {
        assert Leads(lt, b, s);
      }
    }
  }

  /** The leading element is unique. */
  lemma LeaderUnique<T(!new)>(lt: (T, T) -> bool, s: set<T>, x: T, y: T)
    requires StrictTotal(lt)
    requires Leads(lt, x, s) && Leads(lt, y, s)
    ensures x == y
  {
  }

  /** The extreme key of the count-map (begin() under `lt`), or nothing when it is empty. */
  function Top<T(==,!new)>(m: map<T, Pos>, lt: (T, T) -> bool): (r: Option<T>)
    requires StrictTotal(lt)
    ensures r.None? <==> m.Keys == {}
    ensures r.Some? ==> Leads(lt, r.value, m.Keys)
  {
    if m.Keys == {} then None
    else
      LeaderExists(lt, m.Keys);
      var x :| x in m.Keys && Leads(lt, x, m.Keys);
      Some(x)
  }

  /** The value a total takes from its count-map: the extreme, or `zero` when empty. */
  lemma TopIsTop<T(!new)>(m: map<T, Pos>, lt: (T, T) -> bool, zero: T)
    requires StrictTotal(lt)
    ensures IsTop(lt, m, Top(m, lt).GetOr(zero), zero)
  {
  }

  /** Two count-maps that agree on every count are the same map. */
  lemma CountExt<T>(a: map<T, Pos>, b: map<T, Pos>)
    requires forall v :: Count(a, v) == Count(b, v)
    ensures a == b
  {
    forall v | v in a ensures v in b && a[v] == b[v] {
      assert Count(a, v) == Count(b, v);
    }
    forall v | v in b ensures v in a {
      assert Count(a, v) == Count(b, v);
    }
  }

  /** A count-map has only one extreme. */
  lemma TopUnique<T(!new)>(lt: (T, T) -> bool, m: map<T, Pos>, t: T, t': T, zero: T)
    requires StrictTotal(lt)
    requires IsTop(lt, m, t, zero) && IsTop(lt, m, t', zero)
    ensures t == t'
  {
    if m.Keys != {} {
      LeaderUnique(lt, m.Keys, t, t');
    }
  }
}
