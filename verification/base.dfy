/** Shared vocabulary: an optional value and the keep-existing map insertion
    that the collection uses for both its element map and its key index. */
module Base {

  /** An optional value; the model's stand-in for std::optional. */
  datatype Option<+T> = None | Some(value: T) {

    /** The wrapped value, or `default` when there is none. */
    function GetOr(default: T): T {
      match this
      case Some(v) => v
      case None => default
    }
  }

  /** Inserts `k |-> v` only when `k` is not mapped yet; an existing entry is
      never overwritten (emplace on an associative container). */
  function Emplace<A(==), B>(m: map<A, B>, k: A, v: B): (r: map<A, B>)
    ensures k in m ==> r == m
    ensures k !in m ==> k in r && r[k] == v
    ensures r.Keys == m.Keys + {k}
    ensures forall j | j in m :: j in r && r[j] == m[j]
  {
    if k in m then m else m[k := v]
  }
}
