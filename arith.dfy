/** Integer facts about Euclidean division that the solver does not find by itself. */
module Arith {

  lemma MulNonNeg(a: int, b: int)
    requires a >= 0 && b >= 0
    ensures a * b >= 0
  {
  }

  /** Quotient and remainder are the only pair with x == q * c + r and 0 <= r < c. */
  lemma DivModUnique(x: int, c: int, q: int, r: int)
    requires c > 0 && x == q * c + r && 0 <= r < c
    ensures x / c == q && x % c == r
  {
    var q', r' := x / c, x % c;
    assert x == q' * c + r' && 0 <= r' < c;
    assert (q - q') * c == r' - r;
    if q > q' {
      MulNonNeg(q - q' - 1, c);
    } else if q < q' {
      MulNonNeg(q' - q - 1, c);
    }
  }
}
