/** Finite sums and the two facts about them the money proofs need. */
module Sums {

  function Sum(term: nat -> int, n: nat): int {
    if n == 0 then 0 else Sum(term, n - 1) + term(n - 1)
  }

  lemma {:induction false} SumSame(f: nat -> int, g: nat -> int, n: nat)
    requires forall i: nat | i < n :: f(i) == g(i)
    ensures Sum(f, n) == Sum(g, n)
  {
    if n > 0 {
      SumSame(f, g, n - 1);
    }
  }

  /** Raising one term raises the sum by as much. */
  lemma {:induction false} SumRaised(f: nat -> int, g: nat -> int, n: nat, k: nat)
    requires k < n
    requires forall i: nat | i < n && i != k :: f(i) == g(i)
    ensures Sum(g, n) == Sum(f, n) + g(k) - f(k)
  {
    if k == n - 1 {
      SumSame(f, g, k);
    } else {
      SumRaised(f, g, n - 1, k);
    }
  }
}
