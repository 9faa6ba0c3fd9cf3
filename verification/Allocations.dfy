/** Allocations are numbered in the order they are made; ownership arguments count each once. */
module Allocations {

  /** Every number below n, once. */
  function All(n: nat): multiset<nat> { if n == 0 then multiset{} else All(n - 1) + multiset{n - 1} }

  lemma {:induction false} AllOnce(n: nat, i: nat)
    ensures All(n)[i] == if i < n then 1 else 0
  {
    if n > 0 {
      AllOnce(n - 1, i);
    }
  }
}
