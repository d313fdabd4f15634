/**
 * The factorial that `factorial.c` (with GMP's `mpz_t`) and `factorial.py`
 * (with Python's `int`) both compute. Both number types are arbitrary
 * precision, so they are Dafny's `int` here.
 */
module FactorialMath {

  /** n!, with the empty product 1 for every n <= 0. It is at least 1, and at least n. */
  function Fact(n: int): (f: int)
    ensures f >= 1
    ensures f >= n
    decreases if n < 0 then 0 else n
  {
    if n <= 0 then 1 else n * Fact(n - 1)
  }

  /** The product lo * (lo + 1) * ... * hi, and 1 when the range is empty. */
  function Product(lo: int, hi: int): int
    decreases hi - lo
  {
    if lo > hi then 1 else lo * Product(lo + 1, hi)
  }

  /** The empty product: n! is 1 for every n <= 0. */
  lemma FactOfNonPositive(n: int)
    requires n <= 0
    ensures Fact(n) == 1
  {
  }

  /** The recurrence both programs' loops unroll: n! = n * (n - 1)! for n >= 1. */
  lemma FactStep(n: int)
    requires n >= 1
    ensures Fact(n) == n * Fact(n - 1)
  {
  }

  /** Splitting off the last factor of a nonempty range. */
  lemma {:induction false} ProductLast(lo: int, hi: int)
    requires lo <= hi
    ensures Product(lo, hi) == Product(lo, hi - 1) * hi
    decreases hi - lo
  {
    if lo < hi {
      ProductLast(lo + 1, hi);
    }
  }

  /** n! is the product 1 * 2 * ... * n for every n (the empty product for n <= 0). */
  lemma {:induction false} FactIsProduct(n: int)
    ensures Fact(n) == Product(1, n)
    decreases if n < 0 then 0 else n
  {
    if n >= 1 {
      FactIsProduct(n - 1);
      ProductLast(1, n);
    }
  }

  /** How both programs end: a usage message with status 1, or the line `factorial(n) = result` with status 0. */
  datatype Outcome = Usage | Printed(n: int, result: int)

  /** The process exit status of an outcome. */
  function Status(outcome: Outcome): int
  {
    if outcome.Usage? then 1 else 0
  }
}
