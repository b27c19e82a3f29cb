/** Sequences of public operations on one collection, with `clear` as the
    header writes it (Collection.Clear). Because that clear keeps stale
    Min/Max count-maps, the invariants are promised only for runs whose
    clears happen on a collection with two additive totals. */
module Traces {
  import opened Base
  import opened Functors
  import opened Collection
  import opened Invariants

  /** One public call: push_back (single or batch), erase, erase_by_key,
      clear, or an element's change notification. */
  datatype Op<K> =
    | PushOp(e1: real, e2: int, key: Option<K>)
    | BatchOp(vals: seq<(real, int)>, keys: Option<seq<K>>)
    | EraseOp(id: nat)
    | EraseByKeyOp(k: K)
    | UpdateOp(id: nat, new1: real, new2: int)
    | ClearOp

  /** erase_by_key exists only on a collection with a key type. */
  predicate Allowed<K>(cfg: Config<K>, op: Op<K>) {
    op.EraseByKeyOp? ==> cfg.keying.Keyed?
  }

  /** One call: the state after it, the ids it issued, and the notices. */
  function Exec<K(==)>(cfg: Config<K>, s: State<K>, op: Op<K>): (r: Batch<K>)
    requires Allowed(cfg, op)
    ensures r.state.nextId == s.nextId + |r.ids|
    ensures forall j | 0 <= j < |r.ids| :: r.ids[j] == s.nextId + j
    ensures !op.PushOp? && !op.BatchOp? ==> r.ids == []
  {
    match op
    case PushOp(e1, e2, key) =>
      var p := Push(cfg, s, e1, e2, key);
      Batch(p.state, [p.id], p.notices)
    case BatchOp(vals, keys) => PushBatch(cfg, s, vals, keys)
    case EraseOp(id) =>
      var st := Erase(cfg, s, id);
      Batch(st.state, [], st.notices)
    case EraseByKeyOp(k) =>
      var st := EraseByKey(cfg, s, k);
      Batch(st.state, [], st.notices)
    case UpdateOp(id, new1, new2) =>
      var st := Update(cfg, s, id, new1, new2);
      Batch(st.state, [], st.notices)
    case ClearOp =>
      var st := Clear(cfg, s);
      Batch(st.state, [], st.notices)
  }

  /** The calls in order: the final state, every id issued (in issue
      order) and every notice. Ids are consecutive from the first state's
      next id, so no id is ever issued twice. */
  function Run<K(==)>(cfg: Config<K>, s: State<K>, ops: seq<Op<K>>): (r: Batch<K>)
    requires forall i | 0 <= i < |ops| :: Allowed(cfg, ops[i])
    ensures r.state.nextId == s.nextId + |r.ids|
    ensures forall j | 0 <= j < |r.ids| :: r.ids[j] == s.nextId + j
    decreases |ops|
  {
    if ops == [] then Batch(s, [], [])
    else
      var a := Exec(cfg, s, ops[0]);
      var b := Run(cfg, a.state, ops[1..]);
      Batch(b.state, a.ids + b.ids, a.notices + b.notices)
  }

  /** A call after which the invariants are known to hold: anything but
      a clear on a collection with a Min or Max total. */
  predicate KeepsInvariants<K>(cfg: Config<K>, op: Op<K>) {
    op.ClearOp? ==> cfg.mode1 == Add && cfg.mode2 == Add
  }

  /** Every call keeps the invariants, a clear only when both totals are additive. */
  lemma ExecValid<K>(cfg: Config<K>, s: State<K>, op: Op<K>)
    requires Valid(cfg, s) && Allowed(cfg, op) && KeepsInvariants(cfg, op)
    ensures Valid(cfg, Exec(cfg, s, op).state)
  {
    match op
    case PushOp(e1, e2, key) => PushValid(cfg, s, e1, e2, key);
    case BatchOp(vals, keys) => PushBatchValid(cfg, s, vals, keys);
    case EraseOp(id) => EraseValid(cfg, s, id);
    case EraseByKeyOp(k) => EraseByKeyValid(cfg, s, k);
    case UpdateOp(id, new1, new2) => UpdateValid(cfg, s, id, new1, new2);
    case ClearOp => ClearValid(cfg, s);
  }

  /** Any sequence of calls keeps the invariants when none of them is a
      clear on a collection with a Min or Max total. */
  lemma {:induction false} RunValid<K>(cfg: Config<K>, s: State<K>, ops: seq<Op<K>>)
    requires Valid(cfg, s)
    requires forall i | 0 <= i < |ops| :: Allowed(cfg, ops[i]) && KeepsInvariants(cfg, ops[i])
    ensures Valid(cfg, Run(cfg, s, ops).state)
    decreases |ops|
  {
    if ops != [] {
      var a := Exec(cfg, s, ops[0]);
      ExecValid(cfg, s, ops[0]);
      RunValid(cfg, a.state, ops[1..]);
    }
  }

  /** From a valid state, every id a sequence of calls issues is new:
      strictly increasing, at least 1, and distinct from every id live
      at the start. */
  lemma RunIssuesFreshIds<K>(cfg: Config<K>, s: State<K>, ops: seq<Op<K>>)
    requires Valid(cfg, s)
    requires forall i | 0 <= i < |ops| :: Allowed(cfg, ops[i])
    ensures var ids := Run(cfg, s, ops).ids;
      && (forall i, j | 0 <= i < j < |ids| :: ids[i] < ids[j])
      && (forall i | 0 <= i < |ids| :: 1 <= ids[i] && ids[i] !in s.elems)
  {
  }

  /** The exception is real: a clear on a non-empty valid collection
      with a Min or Max total leaves a state that no longer satisfies the
      invariants, because that total's count-map survives. */
  lemma ExecClearBreaksExtreme<K>(cfg: Config<K>, s: State<K>)
    requires Valid(cfg, s) && (cfg.mode1 != Add || cfg.mode2 != Add) && s.elems != map[]
    ensures !Valid(cfg, Exec(cfg, s, ClearOp).state)
  {
    if cfg.mode1 != Add {
      ClearLeavesStaleIndex(cfg, s);
    } else {
      ClearLeavesStaleIndex2(cfg, s);
    }
  }
}
