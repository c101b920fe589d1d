/** The compile-time boolean combinators MultTrait uses. */
module Mpl {

  /** The variadic compile-time Or<C1, ..., Cn>: true as soon as one condition is. */
  function Or(conds: seq<bool>): bool {
    if conds == [] then false else conds[0] || Or(conds[1..])
  }

  lemma {:induction false} OrIsSomeTrue(conds: seq<bool>)
    ensures Or(conds) <==> exists i :: 0 <= i < |conds| && conds[i]
  {
    if conds != [] {
      OrIsSomeTrue(conds[1..]);
      if Or(conds[1..]) {
        var i :| 0 <= i < |conds[1..]| && conds[1..][i];
        assert conds[i + 1];
      }
      if exists i :: 0 <= i < |conds| && conds[i] {
        var i :| 0 <= i < |conds| && conds[i];
        if i > 0 {
          assert conds[1..][i - 1];
        }
      }
    }
  }
}
