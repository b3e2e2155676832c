/** Integer arithmetic facts the solver does not find by itself. */
module Arith {

  /** One more `m` in the product adds one more `n`, on either side. */
  lemma MulSucc(n: int, m: int)
    ensures n * (m + 1) == n * m + n
    ensures (m + 1) * n == m * n + n
  {
  }
}
