/** Sums over an initial segment of the naturals. */
module Sums {

  function Sum(f: nat -> int, n: nat): int {
    if n == 0 then 0 else Sum(f, n - 1) + f(n - 1)
  }

  lemma {:induction false} SameSum(f: nat -> int, g: nat -> int, n: nat)
    requires forall i: nat | i < n :: f(i) == g(i)
    ensures Sum(f, n) == Sum(g, n)
  {
    if n > 0 { SameSum(f, g, n - 1); }
  }

  lemma {:induction false} SplitSum(f: nat -> int, g: nat -> int, h: nat -> int, n: nat)
    requires forall i: nat | i < n :: h(i) == f(i) + g(i)
    ensures Sum(h, n) == Sum(f, n) + Sum(g, n)
  {
    if n > 0 { SplitSum(f, g, h, n - 1); }
  }

  lemma {:induction false} ZeroSum(f: nat -> int, n: nat)
    requires forall i: nat | i < n :: f(i) == 0
    ensures Sum(f, n) == 0
  {
    if n > 0 { ZeroSum(f, n - 1); }
  }
}
