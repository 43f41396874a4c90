/**
 Facts about Euclidean remainders that the circular structures rely on.
 */
module Modular {

  lemma Multiple(k: int, m: nat)
    ensures k >= 1 ==> k * m >= m
    ensures k <= -1 ==> k * m <= 0 - m
  {
    if k >= 1 {
      assert (k - 1) * m >= 0;
    } else if k <= -1 {
      assert (-1 - k) * m >= 0;
    }
  }

  lemma UniqueRemainder(x: int, m: nat, q: int, r: int)
    requires m > 0 && x == q * m + r && 0 <= r < m
    ensures x % m == r && x / m == q
  {
    var k := q - x / m;
    assert x == (x / m) * m + x % m;
    assert k * m == q * m - (x / m) * m;
    Multiple(k, m);
  }

  lemma WordDifference(a: int, b: int, m: nat)
    requires m > 0
    ensures (a % m - b % m) % m == (a - b) % m
  {
    var x := a % m - b % m;
    assert a == (a / m) * m + a % m && b == (b / m) * m + b % m;
    assert x == (x / m) * m + x % m;
    assert a - b == (a / m - b / m + x / m) * m + x % m;
    UniqueRemainder(a - b, m, a / m - b / m + x / m, x % m);
  }

  // A remainder may be taken before or after a shift.
  lemma ShiftRemainder(a: int, d: int, m: nat)
    requires m > 0
    ensures (a % m + d) % m == (a + d) % m
  {
    var x := a % m + d;
    assert a == (a / m) * m + a % m;
    assert x == (x / m) * m + x % m;
    assert a + d == (a / m + x / m) * m + x % m;
    UniqueRemainder(a + d, m, a / m + x / m, x % m);
  }

  // Two numbers less than m apart have the same remainder only when they are equal.
  lemma DistinctRemainders(a: int, b: int, m: nat)
    requires m > 0 && 0 - m < a - b < m && a % m == b % m
    ensures a == b
  {
    assert a == (a / m) * m + a % m && b == (b / m) * m + b % m;
    assert (a / m - b / m) * m == a - b;
    Multiple(a / m - b / m, m);
  }
}
