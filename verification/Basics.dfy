/** Small definitions shared by the modules. */
module Basics {
  datatype Option<T> = None | Some(value: T)

  /** A counter kept in a map, zero when absent. */
  function Get<K>(m: map<K, nat>, k: K): nat
  {
    if k in m then m[k] else 0
  }

  function Pow2(n: nat): nat
  {
    if n == 0 then 1 else 2 * Pow2(n - 1)
  }

  /** Subtraction that stops at zero. */
  function SatSub(x: nat, y: nat): nat
  {
    if y <= x then x - y else 0
  }

  /** There is always a number not used yet. */
  lemma {:induction false} Unused(ids: set<nat>) returns (n: nat)
    ensures forall x | x in ids :: x < n
    ensures n !in ids
  {
    if ids == {} {
      n := 0;
    } else {
      var x :| x in ids;
      var y := Unused(ids - {x});
      n := if x < y then y else x + 1;
      assert ids == (ids - {x}) + {x};
    }
  }
}
