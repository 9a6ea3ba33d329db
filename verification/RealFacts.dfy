/** Order facts about products and quotients of reals, one at a time. */
module RealFacts {

  lemma MulPositive(x: real, y: real)
    requires x > 0.0 && y > 0.0
    ensures x * y > 0.0
  {
  }

  lemma MulMonotone(x: real, y: real, factor: real)
    requires x <= y && factor >= 0.0
    ensures x * factor <= y * factor
  {
    assert (y - x) * factor >= 0.0;
  }

  lemma MulMonotone3(x: real, x': real, y: real, y': real, z: real)
    requires 0.0 <= x <= x' && 0.0 <= y <= y' && z >= 0.0
    ensures x * y * z <= x' * y' * z
  {
    MulMonotone(x, x', y);
    MulMonotone(y, y', x');
    MulMonotone(x * y, x' * y', z);
  }

  lemma QuotientIs(x: real, divisor: real, q: real)
    requires divisor != 0.0 && q * divisor == x
    ensures x / divisor == q
  {
  }

  lemma QuotientSign(x: real, divisor: real)
    requires divisor > 0.0
    ensures x / divisor > 0.0 <==> x > 0.0
    ensures x / divisor == 0.0 <==> x == 0.0
  {
    var q := x / divisor;
    assert q * divisor == x;
    if q > 0.0 { MulPositive(q, divisor); }
    if q < 0.0 { MulPositive(-q, divisor); }
  }

  lemma QuotientMonotone(x: real, y: real, divisor: real)
    requires x <= y && divisor > 0.0
    ensures x / divisor <= y / divisor
  {
    QuotientSign(y - x, divisor);
    assert (y - x) / divisor == y / divisor - x / divisor;
  }

  lemma QuotientBounds(x: real, divisor: real, q: real)
    requires divisor > 0.0
    ensures q * divisor <= x ==> q <= x / divisor
    ensures x <= q * divisor ==> x / divisor <= q
  {
    QuotientIs(q * divisor, divisor, q);
    if q * divisor <= x { QuotientMonotone(q * divisor, x, divisor); }
    if x <= q * divisor { QuotientMonotone(x, q * divisor, divisor); }
  }

  lemma QuotientAtLeastOne(x: real, y: real)
    requires 0.0 < y <= x
    ensures x / y >= 1.0
  {
    QuotientIs(y, y, 1.0);
    QuotientMonotone(y, x, y);
  }

  lemma QuotientBelowOne(x: real, y: real)
    requires 0.0 < x < y
    ensures 0.0 < x / y < 1.0
  {
    QuotientSign(x, y);
    QuotientSign(y - x, y);
    assert (1.0 - x / y) * y == y - x;
    QuotientIs(y - x, y, 1.0 - x / y);
  }

  /** Comparing two fractions is comparing the cross products. */
  lemma FractionsCompare(x: real, a: real, y: real, b: real)
    requires a > 0.0 && b > 0.0
    ensures x / a - y / b > 0.0 <==> x * b - y * a > 0.0
    ensures x / a - y / b == 0.0 <==> x * b - y * a == 0.0
  {
    var u, v := x / a, y / b;
    assert u * a == x && v * b == y;
    MulPositive(a, b);
    QuotientSign(x * b - y * a, a * b);
    assert (u - v) * (a * b) == x * b - y * a;
    assert (x * b - y * a) / (a * b) == u - v;
  }
}
