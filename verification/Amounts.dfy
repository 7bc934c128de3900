/**
 The payment amount: price times quantity, quantized to cents, and written to the request with two
 decimals. Decimals are a coefficient and a power of ten, without signed zero, infinities and NaN,
 under the default context of 28 significant digits, ties to even.
 */
module Amounts {
  import opened Arithmetic
  import opened Wrappers
  import Text

  /** The smallest coefficient that does not fit 28 digits. */
  const LIMIT: nat := 10000000000000000000000000000

  datatype Decimal = Decimal(coefficient: int, exponent: int)

  function Pow10(n: nat): (p: nat)
    ensures p > 0
  {
    if n == 0 then 1 else 10 * Pow10(n - 1)
  }

  function HalfEvenNat(n: nat, d: nat): nat
    requires d > 0
  {
    var q, r := n / d, n % d;
    if 2 * r > d || (2 * r == d && q % 2 == 1) then q + 1 else q
  }

  /** Division by d, rounded to the nearest integer with ties to even. */
  function HalfEven(n: int, d: nat): int
    requires d > 0
  {
    if n < 0 then -(HalfEvenNat(-n, d) as int) else HalfEvenNat(n, d)
  }

  function ExcessDigits(n: nat): nat {
    if n < LIMIT then 0 else 1 + ExcessDigits(n / 10)
  }

  /** Multiplication rounds a product of more than 28 digits. */
  function Multiply(price: Decimal, quantity: int): Decimal {
    var product := price.coefficient * quantity;
    var excess := ExcessDigits(Abs(product));
    Decimal(HalfEven(product, Pow10(excess)), price.exponent + excess)
  }

  /** One cent in units of 10^exponent is CentDenominator / CentNumerator of them. */
  function CentNumerator(exponent: int): (c: nat)
    ensures c > 0
  {
    if exponent >= -2 then Pow10(exponent + 2) else 1
  }

  function CentDenominator(exponent: int): (c: nat)
    ensures c > 0
  {
    if exponent >= -2 then 1 else Pow10(-2 - exponent)
  }

  lemma {:induction false} Pow10Adds(m: nat, n: nat)
    ensures Pow10(m + n) == Pow10(m) * Pow10(n)
    decreases n
  {
    if n > 0 {
      Pow10Adds(m, n - 1);
      assert Pow10(m + n) == 10 * Pow10(m + n - 1);
    }
  }

  /** A unit of 10^exponent is numerator / denominator cents: a hundred times 10^exponent of them. */
  lemma {:induction false} CentsPerUnit(exponent: int)
    ensures exponent >= 0 ==>
      CentNumerator(exponent) == 100 * Pow10(exponent) && CentDenominator(exponent) == 1
    ensures exponent < 0 ==>
      CentNumerator(exponent) * Pow10(-exponent) == 100 * CentDenominator(exponent)
  {
    if exponent >= -2 {
      assert Pow10(2) == 100 && Pow10(1) == 10;
      Pow10Adds(exponent + 2, if exponent < 0 then -exponent else 0);
      if exponent >= 0 {
        Pow10Adds(exponent, 2);
      }
    } else {
      Pow10Adds(2, -2 - exponent);
      assert Pow10(2) == 100;
    }
  }

  /** Cents after `quantize`, or None where it raises InvalidOperation. */
  function Quantize(x: Decimal): Option<int> {
    var cents := HalfEven(x.coefficient * CentNumerator(x.exponent), CentDenominator(x.exponent));
    if Abs(cents) < LIMIT then Some(cents) else None
  }

  function Amount(price: Decimal, quantity: int): Option<int> {
    Quantize(Multiply(price, quantity))
  }

  predicate Nearest(a: int, n: int, d: nat) {
    && 2 * Abs(a * d - n) <= d
    && (2 * Abs(a * d - n) == d ==> a % 2 == 0)
  }

  lemma {:induction false} NearestOrdered(lo: int, hi: int, n: int, d: nat)
    requires d > 0 && lo < hi
    requires Nearest(lo, n, d)
    ensures !Nearest(hi, n, d)
  {
    MultiplesApart(lo, hi, d);
  }

  lemma {:induction false} NearestUnique(a: int, b: int, n: int, d: nat)
    requires d > 0 && Nearest(a, n, d) && Nearest(b, n, d)
    ensures a == b
  {
    if a < b {
      NearestOrdered(a, b, n, d);
    } else if b < a {
      NearestOrdered(b, a, n, d);
    }
  }

  lemma {:induction false} HalfEvenNatIsNearest(n: nat, d: nat)
    requires d > 0
    ensures Nearest(HalfEvenNat(n, d), n, d)
  {
    var q, r := n / d, n % d;
    assert n == q * d + r;
    assert (q + 1) * d == q * d + d;
  }

  lemma {:induction false} HalfEvenIsNearest(n: int, d: nat)
    requires d > 0
    ensures Nearest(HalfEven(n, d), n, d)
  {
    hide HalfEvenNat;
    HalfEvenNatIsNearest(Abs(n), d);
    if n < 0 {
      var h := HalfEvenNat(-n, d);
      assert -h * d == -(h * d);
    }
  }

  /** Rounding is characterised without naming how it is computed. */
  lemma {:induction false} HalfEvenCharacterised(a: int, n: int, d: nat)
    requires d > 0
    ensures a == HalfEven(n, d) <==> Nearest(a, n, d)
  {
    HalfEvenIsNearest(n, d);
    if Nearest(a, n, d) {
      NearestUnique(a, HalfEven(n, d), n, d);
    }
  }

  lemma {:induction false} HalfEvenMonotone(m: int, n: int, d: nat)
    requires d > 0 && m <= n
    ensures HalfEven(m, d) <= HalfEven(n, d)
  {
    HalfEvenIsNearest(m, d);
    HalfEvenIsNearest(n, d);
    var a, b := HalfEven(m, d), HalfEven(n, d);
    if b < a {
      MultiplesApart(b, a, d);
    }
  }

  lemma {:induction false} NearestScales(a: int, n: int, d: nat, factor: nat)
    requires d > 0 && factor > 0 && Nearest(a, n, d)
    ensures d * factor > 0 && Nearest(a, n * factor, d * factor)
  {
    ScaledOrder(1, d, factor);
    var off := a * d - n;
    assert off * factor == a * d * factor - n * factor;
    assert a * d * factor == a * (d * factor);
    AbsScaled(off, factor);
    assert 2 * Abs(off) * factor == 2 * (Abs(off) * factor);
    FactorCancels(2 * Abs(off), d, factor);
  }

  lemma {:induction false} HalfEvenScales(n: int, d: nat, factor: nat)
    requires d > 0 && factor > 0
    ensures d * factor > 0 && HalfEven(n * factor, d * factor) == HalfEven(n, d)
  {
    hide HalfEven, Nearest;
    HalfEvenIsNearest(n, d);
    NearestScales(HalfEven(n, d), n, d, factor);
    HalfEvenCharacterised(HalfEven(n, d), n * factor, d * factor);
  }

  lemma {:induction false} HalfEvenWhole(a: int, d: nat)
    requires d > 0
    ensures HalfEven(a * d, d) == a
  {
    HalfEvenCharacterised(a, a * d, d);
  }

  /** Rounding keeps bounds that are whole. */
  lemma {:induction false} HalfEvenBounded(n: int, d: nat, bound: nat)
    requires d > 0
    ensures Abs(n) >= bound * d ==> Abs(HalfEven(n, d)) >= bound
    ensures Abs(n) <= bound * d ==> Abs(HalfEven(n, d)) <= bound
  {
    HalfEvenWhole(bound, d);
    HalfEvenWhole(0, d);
    HalfEvenMonotone(0, Abs(n), d);
    if Abs(n) >= bound * d {
      HalfEvenMonotone(bound * d, Abs(n), d);
    }
    if Abs(n) <= bound * d {
      HalfEvenMonotone(Abs(n), bound * d, d);
    }
  }

  // ---------------------------------------------------------------- rounding to 28 digits

  /** A product that is n units, as the multiplication rounds it, in the same units. */
  function RoundedProduct(n: int): int {
    var p := Pow10(ExcessDigits(Abs(n)));
    HalfEven(n, p) * p
  }

  lemma {:induction false} Pow10Grows(m: nat, n: nat)
    requires m < n
    ensures 10 * Pow10(m) <= Pow10(n)
  {
    Pow10Adds(m + 1, n - m - 1);
    ScaledOrder(1, Pow10(n - m - 1), Pow10(m + 1));
  }

  /** A number with k excess digits lies between 10^27 and 10^28 times 10^k. */
  lemma {:induction false} ExcessBounds(n: nat)
    ensures n < LIMIT * Pow10(ExcessDigits(n))
    ensures ExcessDigits(n) > 0 ==> n >= LIMIT / 10 * Pow10(ExcessDigits(n))
  {
    if n >= LIMIT {
      ExcessBounds(n / 10);
      var p := Pow10(ExcessDigits(n / 10));
      assert Pow10(ExcessDigits(n)) == 10 * p;
      if ExcessDigits(n / 10) == 0 {
        assert p == 1;
      }
    }
  }

  lemma {:induction false} ExcessMonotone(m: nat, n: nat)
    requires m <= n
    ensures ExcessDigits(m) <= ExcessDigits(n)
  {
    if m >= LIMIT {
      ExcessMonotone(m / 10, n / 10);
    }
  }

  lemma {:induction false} HalfEvenOdd(n: int, d: nat)
    requires d > 0
    ensures HalfEven(-n, d) == -HalfEven(n, d)
    ensures n >= 0 ==> HalfEven(n, d) >= 0
  {
    HalfEvenWhole(0, d);
  }

  /** The rounded product has the sign of the product, and 28 digits in front of its excess ones. */
  lemma {:induction false} RoundedProductBounds(n: int)
    ensures var p := Pow10(ExcessDigits(Abs(n)));
      && Abs(RoundedProduct(n)) <= LIMIT * p
      && (ExcessDigits(Abs(n)) > 0 ==> Abs(RoundedProduct(n)) >= LIMIT / 10 * p)
      && (ExcessDigits(Abs(n)) == 0 ==> RoundedProduct(n) == n)
    ensures n >= 0 ==> RoundedProduct(n) >= 0
    ensures RoundedProduct(-n) == -RoundedProduct(n)
  {
    var k := ExcessDigits(Abs(n));
    var p := Pow10(k);
    var m := HalfEven(n, p);
    assert k == 0 ==> p == 1;
    hide HalfEven, Pow10, ExcessDigits;
    ExcessBounds(Abs(n));
    HalfEvenOdd(n, p);
    HalfEvenBounded(n, p, LIMIT);
    HalfEvenBounded(n, p, if k > 0 then LIMIT / 10 else 0);
    ScaledBetween(m, if k > 0 then LIMIT / 10 else 0, LIMIT, p);
    if k == 0 {
      HalfEvenWhole(n, 1);
    }
  }

  lemma {:induction false} RoundedNatMonotone(m: nat, n: nat)
    requires m <= n
    ensures RoundedProduct(m) <= RoundedProduct(n)
  {
    var i, j := ExcessDigits(m), ExcessDigits(n);
    ExcessMonotone(m, n);
    if i == j {
      HalfEvenMonotone(m, n, Pow10(i));
      HalfEvenBounded(m, Pow10(i), 0);
      HalfEvenBounded(n, Pow10(i), 0);
      SameFactor(HalfEven(m, Pow10(i)), HalfEven(n, Pow10(i)), Pow10(i));
    } else {
      hide RoundedProduct, Pow10;
      RoundedProductBounds(m);
      RoundedProductBounds(n);
      Pow10Grows(i, j);
    }
  }

  lemma {:induction false} RoundedProductMonotone(m: int, n: int)
    requires m <= n
    ensures RoundedProduct(m) <= RoundedProduct(n)
  {
    hide RoundedProduct;
    RoundedProductBounds(m);
    RoundedProductBounds(n);
    if 0 <= m {
      RoundedNatMonotone(m, n);
    } else if n <= 0 {
      RoundedNatMonotone(-n, -m);
      RoundedProductBounds(-n);
      RoundedProductBounds(-m);
    } else {
      RoundedProductBounds(-m);
    }
  }

  lemma {:induction false} CentUnits(exponent: int, k: nat)
    ensures var e := exponent + k;
      CentNumerator(e) * CentDenominator(exponent) == Pow10(k) * CentNumerator(exponent) * CentDenominator(e)
  {
    var e := exponent + k;
    if exponent >= -2 {
      Pow10Adds(k, exponent + 2);
    } else if e < -2 {
      Pow10Adds(k, -2 - e);
    } else {
      Pow10Adds(e + 2, -2 - exponent);
    }
  }

  lemma {:induction false} CentsInUnits(m: int, exponent: int, k: nat)
    ensures HalfEven(m * CentNumerator(exponent + k), CentDenominator(exponent + k))
         == HalfEven(m * Pow10(k) * CentNumerator(exponent), CentDenominator(exponent))
  {
    var a, b := CentNumerator(exponent + k), CentDenominator(exponent + k);
    var num, den, p := CentNumerator(exponent), CentDenominator(exponent), Pow10(k);
    CentUnits(exponent, k);
    hide HalfEven, Pow10, CentNumerator, CentDenominator;
    HalfEvenScales(m * a, b, den);
    HalfEvenScales(m * p * num, den, b);
    assert m * a * den == m * (a * den);
    assert m * p * num * b == m * (p * num * b) by {
      assert m * p * num == m * (p * num);
      assert m * (p * num) * b == m * (p * num * b);
    }
  }

  /** The amount is the product rounded twice: to 28 digits, and then to cents. */
  lemma {:induction false} AmountRoundsTwice(price: Decimal, quantity: int)
    ensures
      var product := RoundedProduct(price.coefficient * quantity);
      var cents := HalfEven(product * CentNumerator(price.exponent), CentDenominator(price.exponent));
      Amount(price, quantity) == if Abs(cents) < LIMIT then Some(cents) else None
  {
    hide HalfEven, Pow10, ExcessDigits, CentNumerator, CentDenominator;
    var k := ExcessDigits(Abs(price.coefficient * quantity));
    CentsInUnits(HalfEven(price.coefficient * quantity, Pow10(k)), price.exponent, k);
  }

  // ---------------------------------------------------------------- what is charged

  /** The two rounding steps pull apart: the first one puts the product on half a cent, off its side. */
  predicate TieMoved(n: int, exponent: int) {
    var product, d := RoundedProduct(n), CentDenominator(exponent);
    var m := product * CentNumerator(exponent);
    && 2 * (m % d) == d
    && if m / d % 2 == 0 then product < n else n < product
  }

  /** A tie between two whole numbers goes to the even one. */
  lemma {:induction false} TieSide(m: int, d: nat, a: int)
    requires d > 0 && d % 2 == 0 && Nearest(a, m, d)
    ensures 2 * (m % d) == d <==> 2 * Abs(a * d - m) == d
    ensures 2 * (m % d) == d ==> (m / d % 2 == 0 <==> 2 * (m - a * d) == d)
  {
    var q, r := m / d, m % d;
    assert m == q * d + r;
    assert (q + 1) * d == q * d + d;
    if a < q {
      MultiplesApart(a, q, d);
    } else if a > q + 1 {
      MultiplesApart(q + 1, a, d);
    }
  }

  /** Rounding to units of p and then of p * d is rounding once, unless the first step ends in a tie. */
  lemma {:induction false} NearestTwice(n: int, p: nat, m: int, d: nat, a: int)
    requires p > 0 && d > 0 && d % 2 == 0
    requires Nearest(m, n, p) && Nearest(a, m, d)
    ensures var tie := 2 * (m % d) == d;
      Nearest(a, n, d * p) <==> !(tie && if m / d % 2 == 0 then m * p < n else n < m * p)
  {
    var h, off, x := d / 2, a * d - m, m * p - n;
    TieSide(m, d, a);
    OffBySteps(off, h, p);
    StepsAdd(a, d, p, m, n, h);
    NearestBySteps(a * (d * p) - n, off * p, x, h * p, p, off, h);
  }

  lemma {:induction false} Pow10Even(k: nat)
    requires k > 0
    ensures Pow10(k) % 2 == 0
  {
    assert Pow10(k) == 2 * (5 * Pow10(k - 1));
  }

  lemma {:induction false} BoundInCents(exponent: int, k: nat)
    requires k > 0 && exponent + k > -2
    ensures LIMIT * CentDenominator(exponent) <= LIMIT / 10 * Pow10(k) * CentNumerator(exponent)
  {
    if exponent >= -2 {
      Pow10Grows(0, k);
      ScaledOrder(1, CentNumerator(exponent), LIMIT / 10 * Pow10(k));
    } else {
      Pow10Grows(-2 - exponent, k);
    }
  }

  lemma {:induction false} LargeProduct(n: int, bound: nat, factor: nat)
    requires Abs(n) >= bound
    ensures Abs(n * factor) >= bound * factor
  {
    assert Abs(n * factor) == Abs(n) * factor;
    ScaledOrder(bound, Abs(n), factor);
  }

  /** With d and c the units of a cent: more digits than fit are too many before and after the first rounding. */
  lemma {:induction false} TooLarge(n: int, exponent: int)
    requires ExcessDigits(Abs(n)) > 0 && exponent + ExcessDigits(Abs(n)) > -2
    ensures var num, den := CentNumerator(exponent), CentDenominator(exponent);
      && Abs(HalfEven(RoundedProduct(n) * num, den)) >= LIMIT
      && Abs(HalfEven(n * num, den)) >= LIMIT
  {
    var k := ExcessDigits(Abs(n));
    var num, den := CentNumerator(exponent), CentDenominator(exponent);
    hide HalfEven, RoundedProduct, Pow10, ExcessDigits, CentNumerator, CentDenominator;
    RoundedProductBounds(n);
    ExcessBounds(Abs(n));
    var bound := LIMIT / 10 * Pow10(k);
    BoundInCents(exponent, k);
    LargeProduct(n, bound, num);
    LargeProduct(RoundedProduct(n), bound, num);
    HalfEvenBounded(n * num, den, LIMIT);
    HalfEvenBounded(RoundedProduct(n) * num, den, LIMIT);
  }

  lemma {:induction false} SmallProduct(n: int, exponent: int)
    requires exponent + ExcessDigits(Abs(n)) < -2
    ensures var den := CentDenominator(exponent);
      Abs(HalfEven(n, den)) < LIMIT && Abs(HalfEven(RoundedProduct(n), den)) < LIMIT
  {
    var k, den := ExcessDigits(Abs(n)), CentDenominator(exponent);
    Pow10Grows(k, -2 - exponent);
    hide Pow10, HalfEven, ExcessDigits, RoundedProduct;
    RoundedProductBounds(n);
    ExcessBounds(Abs(n));
    HalfEvenBounded(n, den, LIMIT / 10);
    HalfEvenBounded(RoundedProduct(n), den, LIMIT / 10);
  }

  /** Below 10^27 cents the two rounding steps meet the tie analysis, and nothing overflows. */
  lemma {:induction false} BelowOneCent(n: int, exponent: int, cents: int)
    requires ExcessDigits(Abs(n)) > 0 && exponent + ExcessDigits(Abs(n)) < -2
    requires cents == HalfEven(RoundedProduct(n), CentDenominator(exponent))
    ensures Abs(cents) < LIMIT && Abs(HalfEven(n, CentDenominator(exponent))) < LIMIT
    ensures Nearest(cents, n, CentDenominator(exponent)) <==> !TieMoved(n, exponent)
  {
    var k := ExcessDigits(Abs(n));
    var p, d, den := Pow10(k), Pow10(-2 - exponent - k), CentDenominator(exponent);
    var m := HalfEven(n, p);
    Pow10Even(-2 - exponent - k);
    Pow10Adds(-2 - exponent - k, k);
    assert den == d * p;
    hide Pow10, HalfEven, ExcessDigits, Nearest, CentDenominator;
    SmallProduct(n, exponent);
    HalfEvenCharacterised(m, n, p);
    HalfEvenScales(m, d, p);
    HalfEvenCharacterised(cents, m, d);
    NearestTwice(n, p, m, d, cents);
    ScaledDivision(m, d, p);
    assert m * p * CentNumerator(exponent) == m * p;
  }

  /** Either the product keeps all its digits, or it is rounded to whole cents, which is the only rounding then. */
  lemma {:induction false} RoundsOnce(n: int, exponent: int)
    requires ExcessDigits(Abs(n)) == 0 || exponent + ExcessDigits(Abs(n)) == -2
    ensures var num, den := CentNumerator(exponent), CentDenominator(exponent);
      HalfEven(RoundedProduct(n) * num, den) == HalfEven(n * num, den)
    ensures !TieMoved(n, exponent)
  {
    var k := ExcessDigits(Abs(n));
    RoundedProductBounds(n);
    if k > 0 {
      var p := Pow10(k);
      var m := HalfEven(n, p);
      assert CentNumerator(exponent) == 1 && CentDenominator(exponent) == p by {
        assert exponent >= -2 ==> k == 0;
      }
      HalfEvenWhole(m, p);
      assert m * p == m * p + 0;
      QuotientIs(m * p, p, m, 0);
    }
  }

  lemma {:induction false} WholeCentsKept(n: int, exponent: int)
    requires exponent + ExcessDigits(Abs(n)) < -2
    requires n % CentDenominator(exponent) == 0
    ensures !TieMoved(n, exponent)
  {
    var k := ExcessDigits(Abs(n));
    var p, d, den := Pow10(k), Pow10(-2 - exponent - k), CentDenominator(exponent);
    Pow10Adds(-2 - exponent - k, k);
    assert den == d * p;
    hide Pow10, HalfEven, ExcessDigits, CentDenominator;
    WholeSteps(n, d, p);
    HalfEvenWhole(n / (d * p) * d, p);
    assert RoundedProduct(n) == n;
  }

  /** Rounding a product to 28 digits and then to cents, against rounding it to cents. */
  lemma {:induction false} RoundingsCompared(n: int, exponent: int)
    ensures
      var num, den := CentNumerator(exponent), CentDenominator(exponent);
      var charged, exact := HalfEven(RoundedProduct(n) * num, den), HalfEven(n * num, den);
      && (Abs(charged) >= LIMIT <==> Abs(exact) >= LIMIT)
      && (Abs(charged) < LIMIT ==> (charged == exact <==> !TieMoved(n, exponent)))
      && (Abs(n) < LIMIT || n * num % den == 0 ==> charged == exact || Abs(charged) >= LIMIT)
  {
    var k := ExcessDigits(Abs(n));
    hide HalfEven, RoundedProduct, TieMoved, Pow10, Nearest;
    if k == 0 || exponent + k == -2 {
      RoundsOnce(n, exponent);
    } else if exponent + k > -2 {
      TooLarge(n, exponent);
    } else {
      assert CentNumerator(exponent) == 1;
      var charged := HalfEven(RoundedProduct(n), CentDenominator(exponent));
      BelowOneCent(n, exponent, charged);
      HalfEvenCharacterised(charged, n, CentDenominator(exponent));
      if n % CentDenominator(exponent) == 0 {
        WholeCentsKept(n, exponent);
      }
    }
  }

  /**
   What is charged, for every price and quantity. The call raises exactly when the nearest whole number
   of cents has more than 28 digits. Otherwise the charge is nearest to price * quantity, even on a
   tie, exactly unless rounding the product to 28 digits moves it onto half a cent and the tie then goes
   to the other side. That never happens for a product of 28 digits or one of whole cents.
   */
  lemma {:induction false} AmountNearest(price: Decimal, quantity: int, cents: int)
    ensures
      var product := price.coefficient * quantity;
      var n, d := product * CentNumerator(price.exponent), CentDenominator(price.exponent);
      && (Nearest(cents, n, d) ==> (Amount(price, quantity) == None <==> Abs(cents) >= LIMIT))
      && (Amount(price, quantity) == Some(cents) ==> (Nearest(cents, n, d) <==> !TieMoved(product, price.exponent)))
      && (Abs(product) < LIMIT || n % d == 0 ==>
            (Amount(price, quantity) == Some(cents) <==> Nearest(cents, n, d) && Abs(cents) < LIMIT))
  {
    hide *;
    var product := price.coefficient * quantity;
    AmountRoundsTwice(price, quantity);
    RoundingsCompared(product, price.exponent);
    HalfEvenCharacterised(cents, product * CentNumerator(price.exponent), CentDenominator(price.exponent));
  }

  lemma {:induction false} TwoStepsMonotone(m: int, n: int, exponent: int)
    requires m <= n
    ensures var num, den := CentNumerator(exponent), CentDenominator(exponent);
      && HalfEven(RoundedProduct(m) * num, den) <= HalfEven(RoundedProduct(n) * num, den)
      && (m >= 0 ==> HalfEven(RoundedProduct(m) * num, den) >= 0)
  {
    hide HalfEven, RoundedProduct;
    var num, den := CentNumerator(exponent), CentDenominator(exponent);
    RoundedProductMonotone(m, n);
    SameFactor(RoundedProduct(m), RoundedProduct(n), num);
    HalfEvenMonotone(RoundedProduct(m) * num, RoundedProduct(n) * num, den);
    if m >= 0 {
      RoundedProductBounds(m);
      SameFactor(0, RoundedProduct(m), num);
      HalfEvenOdd(RoundedProduct(m) * num, den);
    }
  }

  /** For a non-negative price a larger quantity never costs less, and no smaller one that is not negative raises. */
  lemma {:induction false} AmountMonotone(price: Decimal, q1: int, q2: int)
    requires price.coefficient >= 0 && q1 <= q2
    ensures Amount(price, q1).Some? && Amount(price, q2).Some? ==>
      Amount(price, q1).value <= Amount(price, q2).value
    ensures 0 <= q1 && Amount(price, q2).Some? ==> Amount(price, q1).Some?
  {
    hide *;
    AmountRoundsTwice(price, q1);
    AmountRoundsTwice(price, q2);
    ProductMonotone(price.coefficient, q1, q2);
    TwoStepsMonotone(price.coefficient * q1, price.coefficient * q2, price.exponent);
    if 0 <= q1 && Amount(price, q2).Some? {
      var num, den := CentNumerator(price.exponent), CentDenominator(price.exponent);
      AbsKeepsOrder(
        HalfEven(RoundedProduct(price.coefficient * q1) * num, den),
        HalfEven(RoundedProduct(price.coefficient * q2) * num, den));
    }
  }

  lemma {:induction false} DropOneDigit()
    ensures ExcessDigits(25000000000000000000000000001) == 1
    ensures Pow10(1) == 10
    ensures HalfEvenNat(25000000000000000000000000001, 10) == 2500000000000000000000000000
  {
  }

  lemma {:induction false} Pow10Of27()
    ensures Pow10(27) == 1000000000000000000000000000
    ensures Pow10(28) == LIMIT
  {
    assert Pow10(9) == 1000000000 by {
      assert Pow10(3) == 1000;
      Pow10Adds(3, 3);
      Pow10Adds(6, 3);
    }
    Pow10Adds(9, 9);
    Pow10Adds(18, 9);
  }

  /**
   Beyond the precision the claim fails: the product is rounded twice. A price of
   2.5 cents and 10^-28 of a cent is charged 2 cents, although 3 cents are nearer.
   */
  lemma {:induction false} BeyondPrecisionRoundsTwice()
    ensures
      var price := Decimal(25000000000000000000000000001, -30);
      && Amount(price, 1) == Some(2)
      && !Nearest(2, price.coefficient, CentDenominator(price.exponent))
  {
    var price := Decimal(25000000000000000000000000001, -30);
    DropOneDigit();
    Pow10Of27();
    assert Multiply(price, 1) == Decimal(2500000000000000000000000000, -29);
    var d := CentDenominator(-29);
    assert d == Pow10(27);
    assert HalfEvenNat(2500000000000000000000000000, d) == 2;
  }

  function MagnitudeText(m: nat): string {
    Text.NatText(m / 100) + "." + [Text.Digit(m % 100 / 10), Text.Digit(m % 10)]
  }

  /** What `f"{amount:.2f}"` writes for a number of cents. */
  function AmountText(cents: int): string {
    if cents < 0 then "-" + MagnitudeText(-cents) else MagnitudeText(cents)
  }

  function ReadMagnitude(text: string): nat {
    var k := |text|;
    if k < 3 then 0 else Text.ReadNat(text[..k - 3] + text[k - 2..])
  }

  /** The number of cents a two-decimal text denotes: its digits without the point. */
  function ReadAmount(text: string): int {
    if text != "" && text[0] == '-' then -(ReadMagnitude(text[1..]) as int) else ReadMagnitude(text)
  }

  lemma {:induction false} DigitReadsBack(n: nat)
    requires n < 10
    ensures Text.DigitValue(Text.Digit(n)) == n
  {
  }

  lemma {:induction false} MagnitudeSplits(whole: string, tens: char, ones: char)
    ensures var text := whole + "." + [tens, ones];
      && |text| == |whole| + 3
      && text[..|text| - 3] == whole
      && text[|text| - 3] == '.' && text[|text| - 2..] == [tens, ones]
  {
  }

  lemma {:induction false} CentsSplit(m: nat)
    ensures m == 100 * (m / 100) + 10 * (m % 100 / 10) + m % 10
  {
    assert m % 100 % 10 == m % 10;
  }

  lemma {:induction false} MagnitudeReadsBack(m: nat)
    ensures ReadMagnitude(MagnitudeText(m)) == m
    ensures |MagnitudeText(m)| >= 4
    ensures MagnitudeText(m)[0] != '-' && MagnitudeText(m)[|MagnitudeText(m)| - 3] == '.'
  {
    var whole, tens, ones := m / 100, m % 100 / 10, m % 10;
    CentsSplit(m);
    MagnitudeSplits(Text.NatText(whole), Text.Digit(tens), Text.Digit(ones));
    Text.ReadNatText(whole);
    DigitReadsBack(tens);
    DigitReadsBack(ones);
    Text.TwoMoreDigits(Text.NatText(whole), Text.Digit(tens), Text.Digit(ones));
    hide Text.NatText, Text.ReadNat, Text.Digit, Text.DigitValue;
    assert MagnitudeText(m)[0] == Text.NatText(whole)[0];
  }

  /** The text of the request reads back to the amount that was computed. */
  lemma {:induction false} AmountTextReadsBack(cents: int)
    ensures ReadAmount(AmountText(cents)) == cents
    ensures |AmountText(cents)| >= 4 && AmountText(cents)[|AmountText(cents)| - 3] == '.'
  {
    MagnitudeReadsBack(Abs(cents));
    if cents < 0 {
      assert AmountText(cents)[1..] == MagnitudeText(-cents);
    }
  }
}
