/** Facts about Euclidean division and multiplication on `int` that the
    index arithmetic of the planner and of the array layouts relies on.
    For the non-negative operands used throughout, Dafny's `/` and `%`
    agree with Python's `//` and `%`. */
module Arith {

  lemma MulAtLeast(m: int, d: int)
    requires m >= 1 && d >= 1
    ensures m * d >= m
  {
    if d > 1 {
      MulAtLeast(m, d - 1);
      assert m * d == m * (d - 1) + m;
    }
  }

  /** Multiplication by a non-negative factor is monotone. */
  lemma MulMono(a: int, b: int, m: int)
    requires a <= b && m >= 0
    ensures a * m <= b * m
  {
    if a < b && m >= 1 {
      MulAtLeast(m, b - a);
      assert b * m - a * m == m * (b - a);
    }
  }

  /** If n == q * m + r with 0 <= r < m, then q and r are n / m and n % m. */
  lemma DivModUnique(n: int, m: int, q: int, r: int)
    requires m >= 1 && 0 <= r < m && n == q * m + r
    ensures n / m == q && n % m == r
  {
    var d := q - n / m;
    assert n == m * (n / m) + n % m;
    assert m * d == n % m - r;
    if d > 0 {
      MulAtLeast(m, d);
    } else if d < 0 {
      MulAtLeast(m, -d);
    }
  }

  /** Adding the divisor once advances the quotient by one and keeps the remainder. */
  lemma ModStep(n: int, m: int)
    requires m >= 1
    ensures (n + m) % m == n % m && (n + m) / m == n / m + 1
  {
    assert n == (n / m) * m + n % m;
    DivModUnique(n + m, m, n / m + 1, n % m);
  }

  /** Row-major indices: n * i + j with 0 <= j < n recovers i and j. */
  lemma RowMajor(n: int, i: int, j: int)
    requires n >= 1 && 0 <= j < n
    ensures (n * i + j) / n == i && (n * i + j) % n == j
  {
    DivModUnique(n * i + j, n, i, j);
  }

  /** A row-major index stays inside an n-by-rows block. */
  lemma RowMajorBound(n: int, rows: int, i: int, j: int)
    requires n >= 1 && 0 <= i < rows && 0 <= j < n
    ensures 0 <= n * i + j < n * rows
  {
    MulMono(i + 1, rows, n);
    MulMono(0, i, n);
  }

  /** The three C-order coordinates of j = (k n + a) n + b in a rows x n x n
      array are recovered by division and remainder. */
  lemma Index3Parts(n: int, rows: int, k: int, a: int, b: int, j: int)
    requires n >= 1 && 0 <= k < rows && 0 <= a < n && 0 <= b < n
    requires j == (k * n + a) * n + b
    ensures 0 <= j < rows * n * n
    ensures j / n == k * n + a && j % n == b
    ensures j / n / n == k && j / n % n == a
  {
    var i := k * n + a;
    assert i == n * k + a;
    RowMajor(n, k, a);
    RowMajorBound(n, rows, k, a);
    var w := rows * n;
    assert j == n * i + b;
    RowMajor(n, i, b);
    RowMajorBound(n, w, i, b);
    assert n * w == rows * n * n;
  }

  /** x is the q-th multiple of n exactly when n divides x with quotient q. */
  lemma MultipleIff(x: int, n: int, q: int)
    requires n >= 1
    ensures x == q * n <==> x % n == 0 && x / n == q
  {
    if x == q * n {
      DivModUnique(x, n, q, 0);
    }
  }

  /** r is the m-th entry of row q of width n exactly when r // n == q and r % n == m. */
  lemma RowEntryIff(r: int, n: int, q: int, m: int)
    requires n >= 1 && 0 <= m < n
    ensures r == q * n + m <==> r / n == q && r % n == m
  {
    if r == q * n + m {
      DivModUnique(r, n, q, m);
    }
  }

  /** Entry j of row i of width n lies inside a block of rows rows. */
  lemma RowEntryBound(n: int, rows: int, i: int, j: int)
    requires n >= 1 && 0 <= i < rows && 0 <= j < n
    ensures 0 <= i * n + j < rows * n
  {
    RowMajorBound(n, rows, i, j);
    assert i * n == n * i && rows * n == n * rows;
  }

  /** Consecutive multiples of n lie n apart. */
  lemma NextMultiple(n: int, q: int)
    ensures q * n + n == (q + 1) * n
  {
  }

  /** Dividing by a divisor no larger than the dividend gives at least one. */
  lemma DivAtLeastOne(n: int, m: int)
    requires m >= 1 && n >= m
    ensures n / m >= 1
  {
    assert n == m * (n / m) + n % m;
  }

  /** An exact quotient: n = q * m when m divides n. */
  lemma ExactQuotient(n: int, m: int)
    requires m >= 1 && n % m == 0
    ensures n == (n / m) * m
  {
    assert n == m * (n / m) + n % m;
  }

  /** An index below rows * n lies in one of the first rows rows of width n. */
  lemma QuotientBound(k: int, rows: int, n: int)
    requires n >= 1 && 0 <= k < rows * n
    ensures 0 <= k / n < rows
  {
    assert k == (k / n) * n + k % n;
    if k / n >= rows {
      MulMono(rows, k / n, n);
    }
  }
}
