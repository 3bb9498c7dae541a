/** The few facts about integer division the allocator's bounds rest on. */
module Arithmetic {

  lemma Distribute(d: int, a: int, b: int)
    ensures d * (a - b) == d * a - d * b
    ensures d * (a + b) == d * a + d * b
  {
  }

  lemma ProductOfNaturals(a: int, b: int)
    requires a >= 0 && b >= 0
    ensures a * b >= 0
  {
  }

  lemma ProductOrder(d: int, a: int, b: int)
    requires d >= 0 && a <= b
    ensures d * a <= d * b
  {
    ProductOfNaturals(d, b - a);
    Distribute(d, b, a);
  }

  /** Quotient and remainder are the only pair that fits. */
  lemma QuotientUnique(n: int, d: int, q: int, r: int)
    requires d > 0 && n == d * q + r && 0 <= r < d
    ensures n / d == q && n % d == r
  {
    var q', r' := n / d, n % d;
    assert n == d * q' + r';
    if q < q' {
      ProductOrder(d, q + 1, q');
      Distribute(d, q, 1);
      assert false;
    } else if q' < q {
      ProductOrder(d, q' + 1, q);
      Distribute(d, q', 1);
      assert false;
    }
  }

  lemma DivStep(n: int, d: int)
    requires 0 < d <= n
    ensures n / d == (n - d) / d + 1
    ensures n % d == (n - d) % d
  {
    var q, r := (n - d) / d, (n - d) % d;
    assert n - d == d * q + r;
    Distribute(d, q, 1);
    QuotientUnique(n, d, q + 1, r);
  }

  lemma SmallDivMod(i: int, d: int)
    requires 0 <= i < d
    ensures i / d == 0 && i % d == i
  {
    QuotientUnique(i, d, 0, i);
  }

  lemma DivMonotone(a: int, b: int, d: int)
    requires d > 0 && a <= b
    ensures a / d <= b / d
  {
    var qa, qb := a / d, b / d;
    assert a == d * qa + a % d && b == d * qb + b % d;
    if qb < qa {
      ProductOrder(d, qb + 1, qa);
      Distribute(d, qb, 1);
      assert false;
    }
  }

  /** The largest q with d*q <= n. */
  lemma DivIsGreatest(n: int, d: int, q: int)
    requires d > 0 && d * q <= n
    ensures q <= n / d
  {
    var q' := n / d;
    assert n == d * q' + n % d;
    if q' < q {
      ProductOrder(d, q' + 1, q);
      Distribute(d, q', 1);
      assert false;
    }
  }

  lemma DivLower(n: int, d: int)
    requires d > 0
    ensures d * (n / d) <= n < d * (n / d) + d
  {
    assert n == d * (n / d) + n % d;
  }

  /** n and r agree modulo d. */
  lemma SameResidue(n: int, r: int, d: int)
    requires 0 <= r < d && r <= n
    ensures (n - r) % d == 0 <==> n % d == r
  {
    var q, m := n / d, n % d;
    assert n == d * q + m;
    if m == r {
      QuotientUnique(n - r, d, q, 0);
    }
    if (n - r) % d == 0 {
      var t := (n - r) / d;
      assert n - r == d * t;
      QuotientUnique(n, d, t, r);
    }
  }
}
