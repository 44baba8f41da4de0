/** Facts about multiplication and integer division that several models use. */
module Arithmetic {
  lemma MulMono(a: nat, x: nat, y: nat)
    requires x <= y
    ensures a * x <= a * y
  {
  }

  lemma MulCancel(d: nat, x: nat, y: nat)
    requires d * x < d * y
    ensures x < y
  {
    if y <= x {
      MulMono(d, y, x);
    }
  }

  lemma QuotientUnique(x: nat, d: nat, q: nat, r: nat)
    requires d > 0 && x == q * d + r && r < d
    ensures x / d == q
  {
    var q' := x / d;
    assert d * q' <= x < d * q' + d;
    assert d * (q' + 1) == d * q' + d && d * (q + 1) == q * d + d;
    MulCancel(d, q', q + 1);
    MulCancel(d, q, q' + 1);
  }

  lemma DivCancel(a: nat, b: nat)
    requires b > 0
    ensures a * b / b == a
  {
    QuotientUnique(a * b, b, a, 0);
  }

  lemma DivMono(x: nat, y: nat, d: nat)
    requires x <= y && d > 0
    ensures x / d <= y / d
  {
    var qx, qy := x / d, y / d;
    assert d * qx <= x;
    assert y < d * qy + d == d * (qy + 1);
    MulCancel(d, qx, qy + 1);
  }

  lemma DivPlus(a: nat, k: nat, d: nat)
    requires d > 0
    ensures (a + k * d) / d == a / d + k
  {
    var q, r := a / d, a % d;
    assert a + k * d == (q + k) * d + r;
    QuotientUnique(a + k * d, d, q + k, r);
  }

  lemma RemainderUnique(x: nat, d: nat, q: nat, r: nat)
    requires d > 0 && x == q * d + r && r < d
    ensures x % d == r
  {
    QuotientUnique(x, d, q, r);
    assert x == d * (x / d) + x % d;
    assert q * d == d * q;
  }

  lemma SmallRemainder(x: nat, d: nat)
    requires x < d
    ensures x % d == x
  {
    RemainderUnique(x, d, 0, x);
  }

  /** Numbers less than a divisor apart that leave one remainder are equal. */
  lemma SameRemainder(x: nat, y: nat, d: nat)
    requires d > 0 && x <= y < x + d && x % d == y % d
    ensures x == y
  {
    DivMono(x, y, d);
    var k := y / d - x / d;
    assert d * (y / d) - d * (x / d) == d * k;
    MulCancel(d, k, 1);
  }
}
