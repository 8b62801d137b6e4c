/** Decimal arithmetic at 28 significant digits, as the billing code uses it (apps/billing/money.py). */
module Decimals {

  /** Ten to the 28: a coefficient stays below it. */
  const LIMIT: nat := 10_000_000_000_000_000_000_000_000_000
  const CENT_EXPONENT: int := -2

  /** A decimal number: coefficient times ten to the exponent. */
  datatype Decimal = Decimal(coefficient: int, exponent: int)

  function Pow10(k: nat): (p: nat)
    ensures p >= 1
    ensures k >= 1 ==> p % 2 == 0
  {
    if k == 0 then 1 else 10 * Pow10(k - 1)
  }

  function Abs(x: int): nat {
    if x < 0 then -x else x
  }

  /** The integer nearest to n / d; a half goes up. */
  function HalfUp(n: nat, d: nat): nat
    requires d > 0
  {
    (2 * n + d) / (2 * d)
  }

  /** The integer nearest to n / d; a half goes to the even neighbour. */
  function HalfEven(n: nat, d: nat): nat
    requires d > 0
  {
    var q, r := n / d, n % d;
    if 2 * r < d || (2 * r == d && q % 2 == 0) then q else q + 1
  }

  /** The same away from zero for a negative number: only the magnitude is rounded. */
  function SignedHalfUp(n: int, d: nat): int
    requires d > 0
  {
    var q: int := HalfUp(Abs(n), d);
    if n < 0 then -q else q
  }

  /** How many zeros bring n / d up to the full number of digits. */
  function ShiftUp(n: nat, d: nat, top: nat): (k: nat)
    requires 0 < n && 0 < d && n < top * d
    ensures n * Pow10(k) < top * d <= 10 * (n * Pow10(k))
    decreases top * d - n
  {
    if 10 * n >= top * d then 0
    else
      var k := ShiftUp(10 * n, d, top);
      ShiftOneMore(n, k);
      k + 1
  }

  lemma ShiftOneMore(n: nat, k: nat)
    ensures 10 * n * Pow10(k) == n * Pow10(k + 1)
  {
  }

  /** How many digits n / d has too many. */
  function ShiftDown(n: nat, d: nat, top: nat): (k: nat)
    requires 0 < d && 10 <= top
    ensures n < top * (d * Pow10(k))
    decreases n - d
  {
    if n < top * d then 0
    else
      MulMonotone(10, top, d);
      var k := ShiftDown(n, 10 * d, top);
      ShiftOneMore(d, k);
      k + 1
  }

  lemma QuotientAtLeast(n: nat, d: nat, q: int)
    requires 0 < d && n >= q * d
    ensures n / d >= q
  {
    var low, r := n / d, n % d;
    assert n == low * d + r;
    assert low < q ==> (low + 1) * d <= q * d;
  }

  /** n / d times ten to the exponent, correctly rounded to the full precision. */
  function Rounded(n: nat, d: nat, exponent: int): Decimal
    requires 0 < d
  {
    if n == 0 then Decimal(0, exponent)
    else if n < LIMIT * d then
      var k := ShiftUp(n, d, LIMIT);
      Decimal(HalfEven(n * Pow10(k), d), exponent - k)
    else
      var k := ShiftDown(n, d, LIMIT);
      Decimal(HalfEven(n, d * Pow10(k)), exponent + k)
  }

  function Signed(negative: bool, x: Decimal): Decimal {
    if negative then Decimal(-x.coefficient, x.exponent) else x
  }

  /** The product: exact while it has no more digits than the precision. */
  function Times(a: Decimal, b: Decimal): Decimal {
    var product := a.coefficient * b.coefficient;
    if Abs(product) < LIMIT then Decimal(product, a.exponent + b.exponent)
    else Signed(product < 0, Rounded(Abs(product), 1, a.exponent + b.exponent))
  }

  /** The quotient, rounded to the precision half to even. */
  function Over(a: Decimal, b: Decimal): Decimal
    requires b.coefficient != 0
  {
    Signed((a.coefficient < 0) != (b.coefficient < 0),
           Rounded(Abs(a.coefficient), Abs(b.coefficient), a.exponent - b.exponent))
  }

  /** The number as a whole count of ten to the exponent, a half away from zero. */
  function Quantized(x: Decimal, exponent: int): int {
    if x.exponent >= exponent then x.coefficient * Pow10(x.exponent - exponent)
    else SignedHalfUp(x.coefficient, Pow10(exponent - x.exponent))
  }

  // What the roundings mean ---------------------------------------------------------

  /** q is the half-up rounding of n / d exactly when n / d lies in [q - 1/2, q + 1/2). */
  lemma HalfUpIsNearest(n: nat, d: nat, q: nat)
    requires d > 0
    ensures HalfUp(n, d) == q <==> (2 * q - 1) * d <= 2 * n < (2 * q + 1) * d
  {
    HalfUpInRange(n, d);
    if (2 * q - 1) * d <= 2 * n < (2 * q + 1) * d {
      OneInRange(2 * n, d, q, HalfUp(n, d));
    }
  }

  lemma HalfUpInRange(n: nat, d: nat)
    requires d > 0
    ensures (2 * HalfUp(n, d) - 1) * d <= 2 * n < (2 * HalfUp(n, d) + 1) * d
  {
    var h, r := HalfUp(n, d), (2 * n + d) % (2 * d);
    assert 2 * n + d == (2 * d) * h + r;
    Spread(h, d);
  }

  lemma Spread(h: int, d: int)
    ensures (2 * h - 1) * d == (2 * d) * h - d
    ensures (2 * h + 1) * d == (2 * d) * h + d
  {
  }

  lemma OneInRange(x: int, d: nat, q: int, h: int)
    requires (2 * q - 1) * d <= x < (2 * q + 1) * d
    requires (2 * h - 1) * d <= x < (2 * h + 1) * d
    ensures q == h
  {
    if q < h {
      MulMonotone(2 * q + 1, 2 * h - 1, d);
    }
    if h < q {
      MulMonotone(2 * h + 1, 2 * q - 1, d);
    }
  }

  lemma HalfEvenIsNear(n: nat, d: nat)
    requires d > 0
    ensures 2 * n - d <= 2 * (d * HalfEven(n, d)) <= 2 * n + d
  {
    var q := n / d;
    assert n == d * q + n % d;
    assert d * (q + 1) == d * q + d;
  }

  lemma HalfEvenAtLeast(n: nat, d: nat, low: int)
    requires d > 0 && n >= low * d
    ensures HalfEven(n, d) >= low
  {
    QuotientAtLeast(n, d, low);
  }

  lemma HalfEvenBelow(n: nat, d: nat, high: nat)
    requires d > 0 && 2 * n + d < 2 * (d * high)
    ensures HalfEven(n, d) < high
  {
    HalfEvenIsNear(n, d);
    MulOrder(HalfEven(n, d), high, d);
  }

  /** q is the signed half-up rounding exactly when it is the nearest to n / d, a half going away from zero. */
  lemma SignedHalfUpIsNearest(n: int, d: nat, q: int)
    requires d > 0
    ensures SignedHalfUp(n, d) == q <==>
              if n >= 0 then (2 * q - 1) * d <= 2 * n < (2 * q + 1) * d else (2 * q - 1) * d < 2 * n <= (2 * q + 1) * d
  {
    var size := if n >= 0 then q else -q;
    var h := HalfUp(Abs(n), d);
    HalfUpInRange(Abs(n), d);
    Spread(q, d);
    Spread(size, d);
    assert (2 * d) * size == if n >= 0 then (2 * d) * q else -((2 * d) * q);
    if (2 * size - 1) * d <= 2 * Abs(n) < (2 * size + 1) * d {
      OneInRange(2 * Abs(n), d, size, h);
    }
    hide HalfUp;
  }

  /** q is the half-even rounding exactly when it is the nearest to n / d, and even if n / d lies halfway. */
  lemma HalfEvenIsNearest(n: nat, d: nat, q: nat)
    requires d > 0
    ensures HalfEven(n, d) == q <==>
              && (2 * q - 1) * d <= 2 * n <= (2 * q + 1) * d
              && (2 * n == (2 * q - 1) * d || 2 * n == (2 * q + 1) * d ==> q % 2 == 0)
  {
    HalfEvenIsEven(n, d);
    var h := HalfEven(n, d);
    hide HalfEven;
    if (2 * q - 1) * d <= 2 * n <= (2 * q + 1) * d && q != h {
      if q < h {
        OneApart(2 * n, d, q, h);
      } else {
        OneApart(2 * n, d, h, q);
      }
    }
  }

  lemma HalfEvenIsEven(n: nat, d: nat)
    requires d > 0
    ensures var q := HalfEven(n, d);
            && (2 * q - 1) * d <= 2 * n <= (2 * q + 1) * d
            && (2 * n == (2 * q - 1) * d || 2 * n == (2 * q + 1) * d ==> q % 2 == 0)
  {
    var floor, r := n / d, n % d;
    var h := HalfEven(n, d);
    assert 2 * n == (2 * d) * floor + 2 * r;
    Spread(h, d);
    assert (2 * d) * (floor + 1) == (2 * d) * floor + 2 * d;
  }

  /** Two neighbours as near to x are halfway from it, and only one of them is even. */
  lemma OneApart(x: int, d: nat, low: int, high: int)
    requires d > 0 && low < high && (2 * high - 1) * d <= x <= (2 * low + 1) * d
    ensures high == low + 1 && x == (2 * low + 1) * d == (2 * high - 1) * d
  {
    if high > low + 1 {
      MulMonotone(2 * low + 2, 2 * high - 1, d);
    }
  }

  /** Rounding first half-even at a finer scale than the divisor, then half-up, is rounding once. */
  lemma DoubleRounding(n: nat, d: nat, scale: nat)
    requires 0 < d < scale && scale % 2 == 0
    ensures HalfUp(HalfEven(n * scale, d), scale) == HalfUp(n, d)
  {
    var q := HalfUp(n, d);
    var h := scale / 2;
    var c := HalfEven(n * scale, d);
    HalfUpIsNearest(n, d, q);
    HalfLine(n, d, h, 2 * q - 1, 2 * q + 1);
    HalfEvenAtLeast(n * scale, d, (2 * q - 1) * h);
    HalfEvenBelow(n * scale, d, (2 * q + 1) * h);
    assert (2 * q - 1) * scale == 2 * ((2 * q - 1) * h);
    assert (2 * q + 1) * scale == 2 * ((2 * q + 1) * h);
    HalfUpIsNearest(c, scale, q);
  }

  lemma HalfLine(n: nat, d: nat, h: nat, low: int, high: nat)
    requires 0 < d < 2 * h && low * d <= 2 * n < high * d
    ensures n * (2 * h) >= low * h * d
    ensures 2 * (n * (2 * h)) + d < 2 * (d * (high * h))
  {
    calc {
      low * h * d;
      (low * d) * h;
    <= { MulMonotone(low * d, 2 * n, h); }
      (2 * n) * h;
    }
    calc {
      2 * (n * (2 * h)) + d;
    <
      2 * ((2 * n) * h) + 2 * h;
      2 * ((2 * n + 1) * h);
    <= { MulMonotone(2 * n + 1, high * d, h); }
      2 * ((high * d) * h);
      2 * (d * (high * h));
    }
  }

  lemma MulOrder(a: int, b: int, c: nat)
    ensures a >= b ==> c * a >= c * b
  {
  }

  lemma MulMonotone(a: int, b: int, c: nat)
    requires a <= b
    ensures a * c <= b * c
  {
  }

  /** A quotient with a numerator of 27 digits, carried at 28 and rounded half-up, is rounded once. */
  lemma QuotientThenQuantize(n: int, d: nat, exponent: int)
    requires 0 < d && 10 * Abs(n) < LIMIT
    ensures Quantized(Over(Decimal(n, exponent), Decimal(d, 0)), exponent) == SignedHalfUp(n, d)
  {
    HalfUpIsNearest(0, d, 0);
    if n != 0 {
      MagnitudeRoundedOnce(Abs(n), d);
      var k := ShiftUp(Abs(n), d, LIMIT);
      QuantizedMagnitude(n < 0, HalfEven(Abs(n) * Pow10(k), d), exponent, k);
    }
  }

  lemma QuantizedMagnitude(negative: bool, c: nat, exponent: int, k: nat)
    requires k >= 1
    ensures Quantized(Signed(negative, Decimal(c, exponent - k)), exponent) ==
            (if negative then -1 else 1) * HalfUp(c, Pow10(k))
  {
    HalfUpIsNearest(0, Pow10(k), 0);
  }

  lemma MagnitudeRoundedOnce(a: nat, d: nat)
    requires 0 < d && 0 < a && 10 * a < LIMIT
    ensures a < LIMIT * d
    ensures var k := ShiftUp(a, d, LIMIT);
            d < Pow10(k) && k >= 1 && HalfUp(HalfEven(a * Pow10(k), d), Pow10(k)) == HalfUp(a, d)
  {
    MulMonotone(1, d, LIMIT);
    var k := ShiftUp(a, d, LIMIT);
    FinerThanDivisor(a, d, Pow10(k), LIMIT);
    DoubleRounding(a, d, Pow10(k));
  }

  lemma FinerThanDivisor(n: nat, d: nat, scale: nat, top: nat)
    requires 0 < d && 10 * n < top
    requires top * d <= 10 * (n * scale)
    ensures d < scale
  {
    assert scale <= d ==> n * scale <= n * d;
    assert (10 * n + 1) * d <= top * d;
  }

  /** With a numerator of 28 digits it can round twice: the bound above is the last safe one. */
  lemma LongNumeratorRoundsTwice()
    ensures var n := LIMIT / 5 + 1;
            Quantized(Over(Decimal(n, CENT_EXPONENT), Decimal(2, 0)), CENT_EXPONENT) != SignedHalfUp(n, 2)
  {
    var n := LIMIT / 5 + 1;
    assert ShiftUp(n, 2, LIMIT) == 0;
    assert n * Pow10(0) == n;
  }
}
