/** Failure-aware results and the std::map operations the component carrier manager relies on. */
module Outcomes {

  /** A value that may be absent (an iterator equal to `end ()`, a dropped packet). */
  datatype Option<+T> = None | Some(value: T)

  /** The result of an operation that either completes or aborts the simulation
      (`NS_ASSERT_MSG` / `NS_FATAL_ERROR`, or an uncaught `std::out_of_range`). */
  datatype Result<+T> = Ok(value: T) | Fatal(reason: string)
}

/** The two std::map operations whose semantics matter here. */
module StdMap {

  /** `m.insert (std::pair (k, v))`: adds `k` only when it is absent, so an
      existing entry is never overwritten. */
  function Insert<K, V>(m: map<K, V>, k: K, v: V): (r: map<K, V>)
    ensures r.Keys == m.Keys + {k}
    ensures k in m ==> r == m
    ensures k !in m ==> r[k] == v
    ensures forall j :: j in m ==> r[j] == m[j]
  {
    if k in m then m else m[k := v]
  }

  /** `m.erase (k)`: removes `k` if present; erasing an absent key changes nothing. */
  function Erase<K, V>(m: map<K, V>, k: K): (r: map<K, V>)
    ensures r.Keys == m.Keys - {k}
    ensures k !in m ==> r == m
    ensures forall j :: j in m && j != k ==> r[j] == m[j]
  {
    m - {k}
  }

  /** Erasing a key that was just inserted into a map without it gives the map back. */
  lemma EraseUndoesInsert<K, V>(m: map<K, V>, k: K, v: V)
    requires k !in m
    ensures Erase(Insert(m, k, v), k) == m
  {
    var r := Erase(Insert(m, k, v), k);
    assert r.Keys == m.Keys;
    assert forall j :: j in r ==> r[j] == m[j];
  }

  /** The same, one level down in a map of maps. */
  lemma EraseUndoesInsertAt<K, K2, V>(m: map<K, map<K2, V>>, k: K, k2: K2, v: V)
    requires k in m && k2 !in m[k]
    ensures m[k := Erase(Insert(m[k], k2, v), k2)] == m
  {
    EraseUndoesInsert(m[k], k2, v);
  }
}
