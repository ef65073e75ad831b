/** Quotients by a positive, variable divisor. */
module Division {
  lemma Scale(m: int, x: int, y: int)
    requires m > 0 && x <= y
    ensures m * x <= m * y
  {
  }

  lemma QuotientBounds(d: int, m: int)
    requires m > 0
    ensures m * (d / m) <= d < m * (d / m) + m
  {
    assert d == m * (d / m) + d % m;
  }

  /** Whole multiples compare as their factors do. */
  lemma CompareFactors(m: int, x: int, y: int, d: int)
    requires m > 0 && m * x <= d < m * y + m
    ensures x <= y
  {
    assert m * (y + 1) == m * y + m;
    if y + 1 <= x {
      Scale(m, y + 1, x);
    }
  }

  lemma SameQuotient(d: int, m: int, q: int, r: int)
    requires m > 0 && m * q <= d < m * q + m && m * r <= d < m * r + m
    ensures q == r
  {
    CompareFactors(m, q, r, d);
    CompareFactors(m, r, q, d);
  }

  lemma QuotientIs(d: int, m: int, q: int)
    requires m > 0 && m * q <= d < m * q + m
    ensures d / m == q
  {
    QuotientBounds(d, m);
    SameQuotient(d, m, q, d / m);
  }

  lemma QuotientGrows(c: int, d: int, m: int)
    requires m > 0 && c <= d
    ensures c / m <= d / m
  {
    QuotientBounds(c, m);
    QuotientBounds(d, m);
    CompareFactors(m, c / m, d / m, d);
  }

  lemma NestedDivision(d: int, a: int, b: int)
    requires a > 0 && b > 0
    ensures a * b > 0 && d / a / b == d / (a * b)
  {
    var q := d / a / b;
    QuotientBounds(d, a);
    QuotientBounds(d / a, b);
    Scale(a, b * q, d / a);
    Scale(a, d / a + 1, b * q + b);
    assert a * (b * q) == a * b * q && a * (b * q + b) == a * b * q + a * b && a * (d / a + 1) == a * (d / a) + a;
    QuotientIs(d, a * b, q);
  }
}
