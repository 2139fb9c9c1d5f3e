/** Multiplication step by step, for budgets that are spent one unit at a time. */
module Counting {
  function Times(n: nat, k: nat): nat { if n == 0 then 0 else k + Times(n - 1, k) }

  lemma {:induction false} TimesIsProduct(n: nat, k: nat)
    ensures Times(n, k) == n * k
  {
    if n > 0 {
      TimesIsProduct(n - 1, k);
      assert n * k == (n - 1) * k + k;
    }
  }

  lemma {:induction false} TimesGrows(m: nat, n: nat, k: nat)
    requires m <= n
    ensures Times(m, k) <= Times(n, k)
  {
    if m < n {
      TimesGrows(m, n - 1, k);
    }
  }
}
