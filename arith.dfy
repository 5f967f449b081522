/**
 * Facts about multiplication, division and remainder on natural numbers,
 * shared by the selector's wrap-around proofs and the ADC drivers'
 * averaging and scaling proofs.
 */
module Arith {

  /** Multiplication by a natural number is monotone. */
  lemma MulMonotone(a: nat, b: nat, n: nat)
    ensures a <= b ==> a * n <= b * n
  {
    if a <= b {
      var d := b - a;
      assert b * n == a * n + d * n;
    }
  }

  /** lo * n <= x gives lo <= x / n. */
  lemma DivLower(x: nat, n: nat, lo: nat)
    requires 0 < n && lo * n <= x
    ensures lo <= x / n
  {
    var q := x / n;
    assert q * n + x % n == x;
    MulMonotone(q + 1, lo, n);
    assert (q + 1) * n == q * n + n;
  }

  /** x <= hi * n gives x / n <= hi. */
  lemma DivUpper(x: nat, n: nat, hi: nat)
    requires 0 < n && x <= hi * n
    ensures x / n <= hi
  {
    var q := x / n;
    assert q * n + x % n == x;
    MulMonotone(hi + 1, q, n);
    assert (hi + 1) * n == hi * n + n;
  }

  lemma DivBounds(x: nat, n: nat, lo: nat, hi: nat)
    requires 0 < n && lo * n <= x <= hi * n
    ensures lo <= x / n <= hi
  {
    DivLower(x, n, lo);
    DivUpper(x, n, hi);
  }

  /** Division by a positive number is monotone. */
  lemma DivMonotone(x: nat, y: nat, n: nat)
    requires x <= y && 0 < n
    ensures x / n <= y / n
  {
    var q := x / n;
    assert q * n + x % n == x;
    DivLower(y, n, q);
  }

  /** Quotient and remainder are unique: x == q * n + r with r < n fixes both. */
  lemma DivModUnique(x: nat, n: nat, q: nat, r: nat)
    requires r < n && x == q * n + r
    ensures x / n == q && x % n == r
  {
    DivLower(x, n, q);
    var q' := x / n;
    assert q' * n + x % n == x;
    MulMonotone(q + 1, q', n);
    assert (q + 1) * n == q * n + n;
  }

  /** Reducing a value below the modulus leaves it unchanged: a cast that does not truncate. */
  lemma ModSmall(x: nat, m: nat)
    requires x < m
    ensures x % m == x
  {
  }
}
