/** The optional values and set maxima that the other modules share. */
module Wrappers {

  datatype Option<+T> = None | Some(value: T) {
    function GetOr(default: T): T {
      match this
      case Some(v) => v
      case None => default
    }
  }

  function Max(a: nat, b: nat): nat {
    if a < b then b else a
  }

  /** SQL's `coalesce(max(column), 0)` over a set of column values. */
  ghost function MaxOf(values: set<nat>): (m: nat)
    ensures forall v :: v in values ==> v <= m
    ensures m == 0 || m in values
  {
    if values == {} then 0
    else
      var v :| v in values;
      assert values == (values - {v}) + {v};
      Max(v, MaxOf(values - {v}))
  }

  lemma UpdateTwice<K, V>(m: map<K, V>, k: K, a: V, b: V)
    ensures m[k := a][k := b] == m[k := b]
  {
  }
}
