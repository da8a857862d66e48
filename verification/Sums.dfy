/**
 Finite sums over a prefix of the naturals, and the greedy "pour" that three loops of the
 repository share: allocating an order line over stocks, releasing a line's allocations, and
 drawing an order's total from gift cards.
 */
module Sums {

  function Min(a: int, b: int): int { if a < b then a else b }

  function Max(a: int, b: int): int { if a < b then b else a }

  /** f(0) + ... + f(n - 1) */
  function Sum(n: nat, f: nat -> int): int
    decreases n, f
  {
    if n == 0 then 0 else Sum(n - 1, f) + f(n - 1)
  }

  lemma {:induction false} SumEq(n: nat, f: nat -> int, g: nat -> int)
    requires forall i: nat | i < n :: f(i) == g(i)
    ensures Sum(n, f) == Sum(n, g)
  {
    if n > 0 { SumEq(n - 1, f, g); }
  }

  lemma {:induction false} SumLe(n: nat, f: nat -> int, g: nat -> int)
    requires forall i: nat | i < n :: f(i) <= g(i)
    ensures Sum(n, f) <= Sum(n, g)
  {
    if n > 0 { SumLe(n - 1, f, g); }
  }

  /** Termwise comparison is strict as soon as one term is. */
  lemma {:induction false} SumLt(n: nat, f: nat -> int, g: nat -> int, k: nat)
    requires k < n && f(k) < g(k)
    requires forall i: nat | i < n :: f(i) <= g(i)
    ensures Sum(n, f) < Sum(n, g)
  {
    if k == n - 1 { SumLe(n - 1, f, g); } else { SumLt(n - 1, f, g, k); }
  }

  lemma {:induction false} SumPlus(n: nat, f: nat -> int, g: nat -> int, h: nat -> int)
    requires forall i: nat | i < n :: h(i) == f(i) + g(i)
    ensures Sum(n, h) == Sum(n, f) + Sum(n, g)
  {
    if n > 0 { SumPlus(n - 1, f, g, h); }
  }

  lemma {:induction false} SumNonNegative(n: nat, f: nat -> int)
    requires forall i: nat | i < n :: f(i) >= 0
    ensures Sum(n, f) >= 0
  {
    if n > 0 { SumNonNegative(n - 1, f); }
  }

  /** Changing one term changes the sum by as much. */
  lemma {:induction false} SumPoint(n: nat, f: nat -> int, g: nat -> int, k: nat)
    requires k < n
    requires forall i: nat | i < n && i != k :: f(i) == g(i)
    ensures Sum(n, g) - Sum(n, f) == g(k) - f(k)
  {
    if k == n - 1 { SumEq(n - 1, f, g); } else { SumPoint(n - 1, f, g, k); }
  }

  /** Terms that vanish from m on add nothing. */
  lemma {:induction false} SumTail(m: nat, n: nat, f: nat -> int)
    requires m <= n
    requires forall i: nat | m <= i < n :: f(i) == 0
    ensures Sum(n, f) == Sum(m, f)
  {
    if m < n { SumTail(m, n - 1, f); }
  }

  lemma {:induction false} SumPrefix(m: nat, n: nat, f: nat -> int)
    requires m <= n
    requires forall i: nat | i < n :: f(i) >= 0
    ensures Sum(m, f) <= Sum(n, f)
  {
    if m < n { SumPrefix(m, n - 1, f); }
  }

  /** What source i contributes when q units are taken from sources in index order, each giving
      all it has before the next is touched. */
  function Pour(f: nat -> int, q: int, i: nat): (r: int)
    ensures f(i) >= 0 ==> 0 <= r <= f(i)
  {
    Min(f(i), Max(q - Sum(i, f), 0))
  }

  function Poured(f: nat -> int, q: int): nat -> int {
    (i: nat) => Pour(f, q, i)
  }

  /** What the first n sources give together: the whole request, or all they have. */
  function Gathered(n: nat, f: nat -> int, q: int): int {
    Max(Min(q, Sum(n, f)), 0)
  }

  lemma {:induction false} PourTotal(n: nat, f: nat -> int, q: int)
    requires forall i: nat | i < n :: f(i) >= 0
    ensures Sum(n, Poured(f, q)) == Gathered(n, f, q)
  {
    if n > 0 {
      PourTotal(n - 1, f, q);
      SumNonNegative(n - 1, f);
    }
  }

  /** Taking one source at a time: source i gives what is still wanted, if it has that much. */
  lemma {:induction false} PourStep(i: nat, f: nat -> int, q: int, has: int)
    requires Sum(i, f) >= 0 && f(i) == Max(has, 0)
    ensures Pour(f, q, i) == Max(Min(q - Gathered(i, f, q), has), 0)
    ensures Gathered(i + 1, f, q) == Gathered(i, f, q) + Pour(f, q, i)
  {
  }

  /** Once the first m sources have given the whole request, the rest give nothing. */
  lemma {:induction false} RequestMet(n: nat, f: nat -> int, q: int, m: nat)
    requires m <= n && Gathered(m, f, q) == q
    requires forall i: nat | i < n :: f(i) >= 0
    ensures 0 <= q <= Sum(n, f)
    ensures forall s: nat | m <= s < n :: Pour(f, q, s) == 0
  {
    SumNonNegative(m, f);
    SumPrefix(m, n, f);
    forall s: nat | m <= s < n ensures Pour(f, q, s) == 0 { SumPrefix(m, s, f); }
  }

  /** Greedy order: once a source keeps something back, no later source is touched. */
  lemma {:induction false} PourGreedy(n: nat, f: nat -> int, q: int, i: nat, j: nat)
    requires i < j < n
    requires forall k: nat | k < n :: f(k) >= 0
    requires Pour(f, q, i) < f(i)
    ensures Pour(f, q, j) == 0
  {
    SumPrefix(i + 1, j, f);
  }

  /** g takes at most what f offers, and touches a source only when the earlier ones are empty. */
  ghost predicate Greedy(n: nat, f: nat -> int, g: nat -> int) {
    && (forall i: nat | i < n :: 0 <= g(i) <= f(i))
    && (forall i: nat, j: nat | i < j < n && g(i) < f(i) :: g(j) == 0)
  }

  /** The pour is the only way to take min(q, all) from the sources in greedy order. */
  lemma {:induction false} PourUnique(n: nat, f: nat -> int, q: int, g: nat -> int, i: nat)
    requires i < n && q >= 0
    requires Greedy(n, f, g) && Sum(n, g) == Min(q, Sum(n, f))
    ensures g(i) == Pour(f, q, i)
  {
    var m := n - 1;
    assert Sum(m, g) == Min(q, Sum(m, f)) && g(m) == Pour(f, q, m) by {
      SumLe(m, g, f);
      if k: nat :| k < m && g(k) < f(k) {
        SumLt(m, g, f, k);
        assert g(m) == 0;
      } else {
        SumEq(m, f, g);
      }
    }
    if i < m { PourUnique(m, f, q, g, i); }
  }
}
