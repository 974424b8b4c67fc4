/** Induction over positions, apart from what holds at them. */
module Induction {
  lemma {:induction false} Carried(holds: nat -> bool, i: nat, k: nat)
    requires i <= k && holds(i) && forall j: nat :: i <= j < k && holds(j) ==> holds(j + 1)
    ensures holds(k)
  {
    if i < k { Carried(holds, i, k - 1); }
  }
}
