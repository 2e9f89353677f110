/** Integer arithmetic shared by the dashboards. */
module Numbers {

  function Min(a: int, b: int): (m: int)
    ensures m <= a && m <= b && (m == a || m == b)
  {
    if a <= b then a else b
  }

  /** `Math.round(a / b)` for integers, with `b > 0`: the integer nearest to
      a / b, halves rounded up (towards positive infinity, as JavaScript does). */
  function RoundedQuotient(a: int, b: int): (r: int)
    requires b > 0
    ensures 2 * b * r - b <= 2 * a < 2 * b * r + b
  {
    var q := (2 * a + b) / (2 * b);
    DivBounds(2 * a + b, 2 * b);
    q
  }

  lemma DivBounds(n: int, d: int)
    requires d > 0
    ensures d * (n / d) <= n < d * (n / d) + d
  {
  }

  /** For a non-negative sum of three scores, Math.round(s / 3) is (s + 1) / 3. */
  lemma RoundThirds(s: int)
    requires s >= 0
    ensures RoundedQuotient(s, 3) == (s + 1) / 3
  {
    DivBounds(s + 1, 3);
  }

  lemma ScaledBelow(n: int, x: int)
    requires n > 0 && n * x < n
    ensures x <= 0
  {
  }

  /** A quotient of a total lying between n*lo and n*hi rounds to a value
      between lo and hi. */
  lemma RoundedWithin(s: int, n: int, lo: int, hi: int)
    requires n > 0 && n * lo <= s <= n * hi
    ensures lo <= RoundedQuotient(s, n) <= hi
  {
    var r := RoundedQuotient(s, n);
    // 2*n*r - n <= 2*s <= 2*n*hi
    assert n * (2 * (r - hi)) < n by {
      assert n * (2 * (r - hi)) == 2 * n * r - 2 * (n * hi);
    }
    ScaledBelow(n, 2 * (r - hi));
    // 2*n*lo <= 2*s < 2*n*r + n
    assert n * (2 * (lo - r)) < n by {
      assert n * (2 * (lo - r)) == 2 * (n * lo) - 2 * n * r;
    }
    ScaledBelow(n, 2 * (lo - r));
  }
}
