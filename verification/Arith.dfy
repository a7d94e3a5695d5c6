// Facts about multiplication and division that the solver needs one at a time.
module Arith {
  lemma MulAtLeast(d: nat, k: int)
    requires d > 0 && k >= 1
    ensures d * k >= d
  {
  }

  lemma MulMinus(d: int, a: int, b: int)
    ensures d * (a - b) == d * a - d * b
  {
  }

  lemma MulPlus(d: int, a: int, b: int)
    ensures d * (a + b) == d * a + d * b
  {
  }

  lemma MulAssoc(a: int, b: int, c: int)
    ensures a * b * c == a * (b * c)
  {
  }

  lemma MulLess(a: int, b: int, e: nat)
    requires a < b && e > 0
    ensures a * e + e <= b * e
  {
    MulAtLeast(e, b - a);
    MulMinus(e, b, a);
  }

  lemma DivModUnique(n: int, d: nat, q: int, r: nat)
    requires d > 0 && r < d && n == d * q + r
    ensures n / d == q && n % d == r
  {
    var q' := n / d;
    if q' < q {
      MulAtLeast(d, q - q');
      MulMinus(d, q, q');
      assert false;
    } else if q < q' {
      MulAtLeast(d, q' - q);
      MulMinus(d, q', q);
      assert false;
    }
  }

  lemma ModPlus(x: int, d: nat, v: nat)
    requires d > 0 && x % d + v < d
    ensures (x + v) % d == x % d + v
  {
    DivModUnique(x + v, d, x / d, x % d + v);
  }

  lemma ModMinusMultiple(x: int, d: nat, t: int)
    requires d > 0
    ensures (x - d * t) % d == x % d
  {
    MulMinus(d, x / d, t);
    DivModUnique(x - d * t, d, x / d - t, x % d);
  }

  lemma ModScale(x: int, m: nat, e: nat)
    requires m > 0 && e > 0
    ensures m * e > 0 && x * e % (m * e) == x % m * e
  {
    var q, r := x / m, x % m;
    MulAtLeast(m, e);
    MulLess(r, m, e);
    assert x * e == m * e * q + r * e by {
      assert x == m * q + r;
      MulPlus(e, m * q, r);
      MulAssoc(e, m, q);
      assert e * m == m * e && e * x == x * e && e * r == r * e;
    }
    DivModUnique(x * e, m * e, q, r * e);
  }

  /** Dividing out the low part of a remainder. */
  lemma ModSplit(x: int, m: nat, e: nat, a: nat, b: nat)
    requires a < e && b < m && m * e > 0
    requires x % (m * e) == m * a + b
    ensures x / m % e == a && x % m == b
  {
    var q := x / (m * e);
    assert x == m * (e * q + a) + b by {
      MulAssoc(m, e, q);
      MulPlus(m, e * q, a);
    }
    DivModUnique(x, m, e * q + a, b);
    DivModUnique(e * q + a, e, q, a);
  }
}
