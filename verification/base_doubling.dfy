/** Buffer sizes that double from a start. */
module Doubling {

  function Doubled(start: nat, k: nat): nat
    decreases k
  {
    if k == 0 then start else 2 * Doubled(start, k - 1)
  }

  lemma {:induction false} DoubledGrows(start: nat, a: nat, b: nat)
    requires start > 0 && a <= b
    ensures start <= Doubled(start, a) <= Doubled(start, b) && (a < b ==> Doubled(start, a) < Doubled(start, b))
    decreases b
  {
    if a < b {
      DoubledGrows(start, a, b - 1);
    } else if b > 0 {
      DoubledGrows(start, a - 1, b - 1);
    }
  }

  lemma {:induction false} DoubledEights(start: nat, k: nat)
    requires start % 8 == 0
    ensures Doubled(start, k) % 8 == 0
    decreases k
  {
    if k > 0 {
      DoubledEights(start, k - 1);
    }
  }
}
