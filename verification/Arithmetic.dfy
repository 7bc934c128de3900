/** Facts about products, quotients and absolute values of integers. */
module Arithmetic {

  function Abs(n: int): nat {
    if n < 0 then -n else n
  }

  lemma {:induction false} ScaledOrder(m: nat, n: nat, factor: nat)
    requires m <= n
    ensures 0 <= m * factor <= n * factor
    ensures 0 <= factor * m <= factor * n
  {
  }

  lemma {:induction false} SameFactor(a: int, b: int, factor: nat)
    requires a <= b
    ensures a * factor <= b * factor
  {
    assert b * factor == a * factor + (b - a) * factor;
    ScaledOrder(0, b - a, factor);
  }

  lemma {:induction false} ProductMonotone(factor: nat, a: int, b: int)
    requires a <= b
    ensures factor * a <= factor * b
    ensures a >= 0 ==> factor * a >= 0
  {
    assert factor * a == a * factor && factor * b == b * factor;
    SameFactor(a, b, factor);
    if a >= 0 {
      SameFactor(0, a, factor);
    }
  }

  lemma {:induction false} OneMore(k: int, m: nat)
    ensures (k + 1) * m == k * m + m
  {
  }

  lemma {:induction false} FloorBelow(n: nat, d: nat)
    requires d >= 1
    ensures (n / d + 1) * d > n
  {
    assert n == n / d * d + n % d;
    assert (n / d + 1) * d == n / d * d + d;
  }

  lemma {:induction false} TooFewCalls(n: nat, m: nat, b: nat)
    requires n < m
    ensures (n - m + 1) * b <= 0
  {
    ScaledOrder(0, m - n - 1, b);
    assert (n - m + 1) * b == -((m - n - 1) * b);
  }

  lemma {:induction false} AbsKeepsOrder(a: int, b: int)
    requires 0 <= a <= b
    ensures Abs(a) <= Abs(b)
  {
  }

  lemma {:induction false} MultiplesApart(lo: int, hi: int, d: nat)
    requires d > 0 && lo < hi
    ensures lo * d + d <= hi * d
    ensures lo + 1 == hi ==> lo * d + d == hi * d
    ensures lo + 1 < hi ==> lo * d + 2 * d <= hi * d
  {
    var gap := hi - lo;
    assert hi * d == lo * d + gap * d;
    assert gap * d >= d by {
      assert gap * d == d + (gap - 1) * d;
    }
    if gap > 1 {
      assert gap * d == 2 * d + (gap - 2) * d;
    }
  }

  lemma {:induction false} FactorCancels(x: nat, y: nat, factor: nat)
    requires factor > 0
    ensures x * factor <= y * factor <==> x <= y
    ensures x * factor == y * factor <==> x == y
  {
    if x < y {
      MultiplesApart(x, y, factor);
    } else if y < x {
      MultiplesApart(y, x, factor);
    }
  }

  lemma {:induction false} AbsScaled(x: int, factor: nat)
    ensures Abs(x * factor) == Abs(x) * factor
  {
    assert -x * factor == -(x * factor);
    ScaledOrder(0, Abs(x), factor);
  }

  lemma {:induction false} ScaledBetween(m: int, low: nat, high: nat, factor: nat)
    requires low <= Abs(m) <= high
    ensures low * factor <= Abs(m * factor) <= high * factor
    ensures m >= 0 ==> m * factor >= 0
    ensures -m * factor == -(m * factor)
  {
    AbsScaled(m, factor);
    SameFactor(low, Abs(m), factor);
    SameFactor(Abs(m), high, factor);
    SameFactor(0, Abs(m), factor);
  }

  lemma {:induction false} QuotientIs(n: int, d: nat, q: int, r: nat)
    requires d > 0 && r < d && n == q * d + r
    ensures n / d == q && n % d == r
  {
    var a, b := n / d, n % d;
    assert n == a * d + b;
    if a < q {
      MultiplesApart(a, q, d);
    } else if q < a {
      MultiplesApart(q, a, d);
    }
  }

  lemma {:induction false} ScaledDivision(m: int, d: nat, factor: nat)
    requires d > 0 && factor > 0
    ensures d * factor > 0 && m * factor / (d * factor) == m / d && m * factor % (d * factor) == m % d * factor
    ensures 2 * (m % d * factor) == d * factor <==> 2 * (m % d) == d
  {
    var q, r := m / d, m % d;
    assert m * factor == q * (d * factor) + r * factor by {
      assert m == q * d + r;
      assert q * d * factor == q * (d * factor);
    }
    FactorCancels(r + 1, d, factor);
    assert (r + 1) * factor == r * factor + factor;
    QuotientIs(m * factor, d * factor, q, r * factor);
    FactorCancels(2 * r, d, factor);
    assert 2 * r * factor == 2 * (r * factor);
  }

  lemma {:induction false} WholeSteps(n: int, d: nat, p: nat)
    requires d * p > 0 && n % (d * p) == 0
    ensures n / (d * p) * d * p == n
  {
    var q := n / (d * p);
    assert n == q * (d * p);
    assert q * (d * p) == q * d * p;
  }

  lemma {:induction false} StepsAdd(a: int, d: nat, p: nat, m: int, n: int, h: nat)
    requires d == 2 * h
    ensures a * (d * p) - n == (a * d - m) * p + (m * p - n)
    ensures d * p == 2 * (h * p)
  {
    assert a * (d * p) == a * d * p;
    assert (a * d - m) * p == a * d * p - m * p;
    assert d * p == 2 * h * p;
  }

  /** Whole steps of p: at the half way h, or at least one step short of it. */
  lemma {:induction false} OffBySteps(off: int, h: nat, p: nat)
    requires p > 0 && Abs(off) <= h
    ensures off == h ==> off * p == h * p
    ensures -off == h ==> off * p == -(h * p)
    ensures Abs(off) < h ==> p - h * p <= off * p <= h * p - p
    ensures h > 0 ==> p <= h * p
  {
    if h > 0 {
      ScaledOrder(1, h, p);
    }
    if Abs(off) < h {
      SameFactor(off, h - 1, p);
      SameFactor(1 - h, off, p);
      assert (h - 1) * p == h * p - p;
      assert (1 - h) * p == p - h * p;
    } else if -off == h {
      assert off * p == -(-off * p);
    }
  }

  /** A distance z made of whole steps y and a rest x of at most half a step. */
  lemma {:induction false} NearestBySteps(z: int, y: int, x: int, half: nat, p: nat, off: int, h: nat)
    requires z == y + x && 2 * Abs(x) <= p && p > 0 && Abs(off) <= h && (h > 0 ==> p <= half)
    requires off == h ==> y == half
    requires -off == h ==> -y == half
    requires Abs(off) < h ==> p - half <= y <= half - p
    requires h > 0
    ensures Abs(off) < h ==> Abs(z) < half
    ensures off == h ==> (Abs(z) <= half <==> x <= 0) && (Abs(z) == half <==> x == 0)
    ensures -off == h ==> (Abs(z) <= half <==> x >= 0) && (Abs(z) == half <==> x == 0)
  {
  }
}
