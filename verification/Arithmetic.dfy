// Facts about products and quotients, stated once so that the solver never has to search for them.
module Arithmetic {
  lemma ProductOrder(a: int, b: int, c: int)
    requires a <= b && 0 <= c
    ensures a * c <= b * c
  {
  }

  lemma SquareIsMonotone(a: int, b: int)
    requires 0 <= a <= b
    ensures a * a <= b * b
  {
    ProductOrder(a, b, a);
    ProductOrder(a, b, b);
  }

  lemma Distribute(k: int, n: int)
    ensures k * (n + 1) == k * n + k
    ensures (n + 1) * k == n * k + k
  {
  }

  lemma FloorBelow(a: int, d: int)
    requires 0 <= a && 0 < d
    ensures 0 <= a / d
    ensures (a / d) * d <= a < (a / d) * d + d
  {
  }

  lemma QuotientAndRest(a: int, d: int)
    requires 0 < d
    ensures a % d == a - (a / d) * d
  {
  }

  lemma QuotientIs(t: int, d: int, k: int)
    requires 0 <= t && 0 < d
    requires k * d <= t < (k + 1) * d
    ensures t / d == k
  {
    FloorBelow(t, d);
    var q := t / d;
    Distribute(d, q);
    if q < k {
      ProductOrder(q + 1, k, d);
    } else if k < q {
      ProductOrder(k + 1, q, d);
    }
  }

  lemma QuotientBetween(t: int, d: int, low: int, high: int)
    requires 0 < d && 0 <= low && low * d <= t <= high * d
    ensures low <= t / d <= high
  {
    ProductOrder(0, low, d);
    FloorBelow(t, d);
    var q := t / d;
    Distribute(d, q);
    if q < low {
      ProductOrder(q + 1, low, d);
    } else if high < q {
      ProductOrder(high + 1, q, d);
      Distribute(d, high);
    }
  }

  lemma QuotientOrder(a: int, b: int, d: int)
    requires 0 <= a <= b && 0 < d
    ensures 0 <= a / d <= b / d
  {
    FloorBelow(a, d);
    FloorBelow(b, d);
    Distribute(d, b / d);
    if b / d < a / d {
      ProductOrder(b / d + 1, a / d, d);
    }
  }
}
