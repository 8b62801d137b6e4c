/** Finite sums over an index range, and the few laws every balance rests on. */
module Sums {

  function SumTo(n: nat, f: nat -> int): int {
    if n == 0 then 0 else SumTo(n - 1, f) + f(n - 1)
  }

  lemma SumStep(n: nat, f: nat -> int)
    requires n > 0
    ensures SumTo(n, f) == SumTo(n - 1, f) + f(n - 1)
  {
  }

  lemma {:induction false} SumCongruent(n: nat, f: nat -> int, g: nat -> int)
    requires forall i: nat :: i < n ==> f(i) == g(i)
    ensures SumTo(n, f) == SumTo(n, g)
  {
    if n != 0 {
      SumCongruent(n - 1, f, g);
    }
  }

  lemma {:induction false} SumZero(n: nat, f: nat -> int)
    requires forall i: nat :: i < n ==> f(i) == 0
    ensures SumTo(n, f) == 0
  {
    if n != 0 {
      SumZero(n - 1, f);
    }
  }

  lemma {:induction false} SumNonNegative(n: nat, f: nat -> int)
    requires forall i: nat :: i < n ==> f(i) >= 0
    ensures SumTo(n, f) >= 0
  {
    if n != 0 {
      SumNonNegative(n - 1, f);
    }
  }

  lemma {:induction false} SumMonotone(n: nat, f: nat -> int, g: nat -> int)
    requires forall i: nat :: i < n ==> f(i) <= g(i)
    ensures SumTo(n, f) <= SumTo(n, g)
  {
    if n != 0 {
      SumMonotone(n - 1, f, g);
    }
  }

  lemma {:induction false} SumPlus(n: nat, f: nat -> int, g: nat -> int, h: nat -> int)
    requires forall i: nat :: i < n ==> h(i) == f(i) + g(i)
    ensures SumTo(n, h) == SumTo(n, f) + SumTo(n, g)
  {
    if n != 0 {
      SumPlus(n - 1, f, g, h);
    }
  }

  /** Two summands that differ at one index have sums that differ by that index alone. */
  lemma {:induction false} SumChange(n: nat, f: nat -> int, g: nat -> int, k: nat)
    requires k < n
    requires forall i: nat :: i < n && i != k ==> f(i) == g(i)
    ensures SumTo(n, g) == SumTo(n, f) - f(k) + g(k)
  {
    if k == n - 1 {
      SumCongruent(n - 1, f, g);
    } else {
      SumChange(n - 1, f, g, k);
    }
  }

  lemma {:induction false} SumOnly(n: nat, f: nat -> int, k: nat)
    requires k < n
    requires forall i: nat :: i < n && i != k ==> f(i) == 0
    ensures SumTo(n, f) == f(k)
  {
    if k == n - 1 {
      SumZero(n - 1, f);
    } else {
      SumOnly(n - 1, f, k);
    }
  }
}
