/** Small facts about integer division and multiplication used by the index arithmetic. */
module Arith {

  /** Euclidean division is determined by any quotient/remainder pair with 0 <= r < m. */
  lemma DivModUnique(j: int, m: int, q: int, r: int)
    requires m > 0 && 0 <= r < m && j == q * m + r
    ensures j / m == q && j % m == r
  {
    var q0, r0 := j / m, j % m;
    assert j == q0 * m + r0;
    assert (q - q0) * m == r0 - r;
    if q > q0 {
      MulAtLeast(q - q0, m);
      assert false;
    } else if q < q0 {
      MulAtLeast(q0 - q, m);
      assert false;
    }
  }

  /** The Euclidean quotient of a non-negative number brackets it between two multiples. */
  lemma DivBrackets(n: int, m: int)
    requires n >= 0 && m > 0
    ensures n / m >= 0
    ensures (n / m) * m <= n < (n / m + 1) * m
  {
    assert n == (n / m) * m + n % m;
    assert (n / m + 1) * m == (n / m) * m + m;
  }

  lemma MulAtLeast(a: int, m: int)
    requires a >= 1 && m >= 0
    ensures a * m >= m
  {
    assert a * m - m == (a - 1) * m;
  }

  lemma MulMonotone(a: int, b: int, m: int)
    requires a <= b && m >= 0
    ensures a * m <= b * m
  {
    assert b * m - a * m == (b - a) * m;
  }

  /** Cancelling a positive factor from a non-strict inequality. */
  lemma MulCancel(a: int, b: int, m: int)
    requires m > 0 && a * m <= b * m
    ensures a <= b
  {
    if a > b {
      MulAtLeast(a - b, m);
      assert false;
    }
  }

  /** The row of an element inside a table of `rows` rows of `m` columns. */
  lemma DivBelow(j: int, rows: int, m: int)
    requires m > 0 && 0 <= j < rows * m
    ensures 0 <= j / m < rows
  {
    assert j == (j / m) * m + j % m;
    if j / m >= rows {
      MulMonotone(rows, j / m, m);
      assert false;
    }
  }

  /** Element `r*m + c` of an `rows` by `m` table is row `r`, column `c`, inside the table. */
  lemma RowMajor(rows: nat, m: nat, r: nat, c: nat)
    requires r < rows && c < m
    ensures 0 <= r * m + c < rows * m
    ensures (r * m + c) / m == r && (r * m + c) % m == c
  {
    DivModUnique(r * m + c, m, r, c);
    MulMonotone(r + 1, rows, m);
  }
}
