/** Facts about Dafny's division that the index lemmas of the model rest on. */
module Arithmetic {

  lemma MulNonneg(x: int, y: int)
    requires x >= 0 && y >= 0
    ensures x * y >= 0
  {
  }

  /** Division and remainder are determined by any decomposition `a == q * m + r` with `0 <= r < m`. */
  lemma DivModUnique(a: int, m: int, q: int, r: int)
    requires m > 0 && 0 <= r < m && a == q * m + r
    ensures a / m == q && a % m == r
  {
    var d := a / m - q;
    if d >= 1 {
      MulNonneg(m, d - 1);
      assert false;
    } else if d <= -1 {
      MulNonneg(m, -d - 1);
      assert false;
    }
  }
}
