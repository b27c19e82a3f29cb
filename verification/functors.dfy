/** The pluggable policies of the collection: how a field transition turns
    into a delta, how a delta is folded into a total, and which scalar an
    element contributes to a Min/Max total. Elem1 is a real (double in the
    default instantiation), Elem2 an int (long); Total1 is an int and
    Total2 a real, as in the default template arguments. */
module Functors {

  /** Aggregate mode of one total. */
  datatype AggMode = Add | Min | Max

  /** A delta functor: the contribution of (last1, last2) -> (new1, new2). */
  datatype Delta<T> =
    | DefaultDelta
    | NoopDelta
    | CustomDelta(f: (real, int, real, int) -> T)

  /** An apply functor: folds a delta into a total and reports whether the total changed. */
  datatype Apply<!T> =
    | DefaultApplyAdd
    | NoopApply
    | CustomApply(f: (T, T) -> (T, bool))

  /** An extractor: the scalar an element contributes to a Min/Max total. */
  datatype Extract<T> =
    | DefaultExtract
    | CustomExtract(f: (real, int) -> T)

  /** Delta for total 1; the default is the change in field 2. */
  function Delta1(d: Delta<int>, new1: real, new2: int, last1: real, last2: int): (r: int)
    ensures d.DefaultDelta? ==> r == Extract1(DefaultExtract, new1, new2) - Extract1(DefaultExtract, last1, last2)
    ensures d.DefaultDelta? && new2 == last2 ==> r == 0
    ensures d.NoopDelta? ==> r == 0
  {
    match d
    case DefaultDelta => new2 - last2
    case NoopDelta => 0
    case CustomDelta(f) => f(new1, new2, last1, last2)
  }

  /** Delta for total 2; the default is the change in field1 * field2. */
  function Delta2(d: Delta<real>, new1: real, new2: int, last1: real, last2: int): (r: real)
    ensures d.DefaultDelta? ==> r == Extract2(DefaultExtract, new1, new2) - Extract2(DefaultExtract, last1, last2)
    ensures d.DefaultDelta? && new1 == last1 && new2 == last2 ==> r == 0.0
    ensures d.NoopDelta? ==> r == 0.0
  {
    match d
    case DefaultDelta => (new2 as real) * new1 - (last2 as real) * last1
    case NoopDelta => 0.0
    case CustomDelta(f) => f(new1, new2, last1, last2)
  }

  /** Apply for total 1: the new total and whether the functor reported a change. */
  function Apply1(a: Apply<int>, total: int, d: int): (r: (int, bool))
    ensures a.DefaultApplyAdd? ==> r.1 && r.0 - total == d
    ensures a.NoopApply? ==> r.0 == total && !r.1
  {
    match a
    case DefaultApplyAdd => (total + d, true)
    case NoopApply => (total, false)
    case CustomApply(f) => f(total, d)
  }

  /** Apply for total 2: the new total and whether the functor reported a change. */
  function Apply2(a: Apply<real>, total: real, d: real): (r: (real, bool))
    ensures a.DefaultApplyAdd? ==> r.1 && r.0 - total == d
    ensures a.NoopApply? ==> r.0 == total && !r.1
  {
    match a
    case DefaultApplyAdd => (total + d, true)
    case NoopApply => (total, false)
    case CustomApply(f) => f(total, d)
  }

  /** Extracted value for total 1; the default is field 2. */
  function Extract1(x: Extract<int>, e1: real, e2: int): (r: int)
    ensures x.DefaultExtract? ==> r == e2
  {
    match x
    case DefaultExtract => e2
    case CustomExtract(f) => f(e1, e2)
  }

  /** Extracted value for total 2; the default is field1 * field2. */
  function Extract2(x: Extract<real>, e1: real, e2: int): (r: real)
    ensures x.DefaultExtract? && (e1 == 0.0 || e2 == 0) ==> r == 0.0
    ensures x.DefaultExtract? && e1 == 1.0 ==> r == e2 as real
  {
    match x
    case DefaultExtract => (e2 as real) * e1
    case CustomExtract(f) => f(e1, e2)
  }

  /** The shipped delta functors are path-independent: the delta of a
      transition a -> c equals the delta of a -> b plus that of b -> c,
      and the transition from a state to itself contributes nothing. */
  lemma ShippedDelta1Telescopes(d: Delta<int>, a1: real, a2: int, b1: real, b2: int, c1: real, c2: int)
    requires !d.CustomDelta?
    ensures Delta1(d, c1, c2, a1, a2) == Delta1(d, b1, b2, a1, a2) + Delta1(d, c1, c2, b1, b2)
    ensures Delta1(d, a1, a2, a1, a2) == 0
  {
  }

  lemma ShippedDelta2Telescopes(d: Delta<real>, a1: real, a2: int, b1: real, b2: int, c1: real, c2: int)
    requires !d.CustomDelta?
    ensures Delta2(d, c1, c2, a1, a2) == Delta2(d, b1, b2, a1, a2) + Delta2(d, c1, c2, b1, b2)
    ensures Delta2(d, a1, a2, a1, a2) == 0.0
  {
  }
}
