/**
 * The machine integers of the source (i16 samples, i32 counters and tag
 * fields) and the facts about Euclidean remainder that the cursor and
 * timing proofs use.
 */
module Numeric {

  /** A signed 16-bit sample. */
  type I16 = x: int | -0x8000 <= x < 0x8000

  /** The range of a signed 32-bit integer. */
  predicate InI32(x: int) {
    -0x8000_0000 <= x < 0x8000_0000
  }

  type I32 = x: int | InI32(x)

  lemma MulAtLeast(n: int, k: int)
    requires n > 0 && k >= 1
    ensures n * k >= n
  {}

  /** Euclidean division has one remainder. */
  lemma ModUnique(x: int, n: int, q: int, m: int)
    requires n > 0 && x == n * q + m && 0 <= m < n
    ensures x % n == m
  {
    var q', m' := x / n, x % n;
    assert n * (q - q') == m' - m;
    if q - q' >= 1 {
      MulAtLeast(n, q - q');
    } else if q' - q >= 1 {
      MulAtLeast(n, q' - q);
    }
  }

  lemma ModShift(x: int, q: int, n: int)
    requires n > 0
    ensures (x + n * q) % n == x % n
  {
    ModUnique(x + n * q, n, x / n + q, x % n);
  }

  /** Reducing a cursor before advancing it changes nothing. */
  lemma ModAddLeft(a: int, b: int, n: int)
    requires n > 0
    ensures ((a % n) + b) % n == (a + b) % n
  {
    ModShift(a % n + b, a / n, n);
  }

  /** Two cursors fewer than n slots apart are different slots. */
  lemma ModDistinct(a: int, i: int, j: int, n: int)
    requires n > 0 && 0 <= i < j < i + n
    ensures (a + i) % n != (a + j) % n
  {
    var x := (a + i) % n;
    ModAddLeft(a + i, j - i, n);
    assert a + i + (j - i) == a + j;
    var y := x + (j - i);
    if y < n {
      ModUnique(y, n, 0, y);
    } else {
      ModUnique(y, n, 1, y - n);
    }
  }

  /** Euclidean division of a non-negative dividend, with the product kept as one term. */
  lemma DivBounds(x: int, b: int)
    requires x >= 0 && b > 0
    ensures 0 <= b * (x / b) <= x < b * (x / b) + b
    ensures b * -(x / b) == -(b * (x / b))
  {
    var q := x / b;
    assert x == b * q + x % b;
    if q < 0 {
      MulAtLeast(b, -q);
    } else if q > 0 {
      MulAtLeast(b, q);
    }
  }
}
