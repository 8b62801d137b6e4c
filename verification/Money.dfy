/** What a billing line costs, in cents (apps/billing/money.py). */
module Money {
  import opened Decimals
  import opened Results

  const QUANTITY_EXPONENT: int := -4
  /** Columns: prices of 12 digits, quantities of 12 digits, small-integer months and days. */
  const TWELVE_DIGITS: nat := 1_000_000_000_000
  const SMALL_INTEGER: nat := 32767

  function RoundMoney(x: Decimal): int {
    Quantized(x, CENT_EXPONENT)
  }

  function Cents(c: int): Decimal {
    Decimal(c, CENT_EXPONENT)
  }

  function Whole(n: int): Decimal {
    Decimal(n, 0)
  }

  /** Months billed for the covered days of a period, to four places. */
  function ProratedQuantity(months: nat, covered: nat, period: nat): int
    requires period > 0
  {
    if covered >= period then Quantized(Whole(months), QUANTITY_EXPONENT)
    else Quantized(Over(Times(Whole(months), Whole(covered)), Whole(period)), QUANTITY_EXPONENT)
  }

  /** Quantity, in ten-thousandths, times price. */
  function LineAmount(quantity: int, price: Option<int>): int {
    if price.None? then 0 else RoundMoney(Times(Decimal(quantity, QUANTITY_EXPONENT), Cents(price.value)))
  }

  /** The fee for the covered days of a period, rounded once. */
  function ProratedAmount(price: Option<int>, months: nat, covered: nat, period: nat): int
    requires period > 0
  {
    if price.None? then 0
    else
      RoundMoney(Over(Times(Times(Cents(price.value), Whole(months)), Whole(covered)), Whole(period)))
  }

  datatype Totals = Totals(subtotal: int, vat: int, total: int)

  function Sum(amounts: seq<int>): int {
    if amounts == [] then 0 else Sum(amounts[..|amounts| - 1]) + amounts[|amounts| - 1]
  }

  /** VAT on a subtotal, at a rate in hundredths of a percent. */
  function VatOf(subtotal: int, rate: nat): int {
    RoundMoney(Over(Times(Cents(subtotal), Decimal(rate, CENT_EXPONENT)), Whole(100)))
  }

  /** Subtotal, VAT, and what they add up to. */
  function TotalsOf(amounts: seq<int>, rate: nat): Totals {
    var subtotal := Sum(amounts);
    Totals(subtotal, VatOf(subtotal, rate), subtotal + VatOf(subtotal, rate))
  }

  // Exactness -------------------------------------------------------------------------

  predicate ColumnsFit(price: int, months: nat, covered: nat) {
    Abs(price) < TWELVE_DIGITS && months <= SMALL_INTEGER && covered <= SMALL_INTEGER
  }

  lemma ProductFits(a: int, b: nat, top: nat, most: nat)
    requires Abs(a) <= top && b <= most
    ensures Abs(a * b) <= top * most
  {
    assert Abs(a * b) == Abs(a) * b;
    assert Abs(a) * b <= top * b <= top * most;
  }

  lemma ProductsFit(price: int, months: nat, covered: nat)
    requires ColumnsFit(price, months, covered)
    ensures Abs(price * months) < LIMIT && 10 * Abs(price * months * covered) < LIMIT
  {
    ProductFits(price, months, TWELVE_DIGITS, SMALL_INTEGER);
    ProductFits(price * months, covered, TWELVE_DIGITS * SMALL_INTEGER, SMALL_INTEGER);
  }

  /** Carried at 28 digits, the fee is the half-up rounding of the true fraction. */
  lemma ProrationIsExact(price: int, months: nat, covered: nat, period: nat)
    requires period > 0 && ColumnsFit(price, months, covered)
    ensures ProratedAmount(Some(price), months, covered, period) == SignedHalfUp(price * months * covered, period)
  {
    ProductsFit(price, months, covered);
    QuotientThenQuantize(price * months * covered, period, CENT_EXPONENT);
  }

  /** The printed quantity is the covered share of the months, to the nearest ten-thousandth. */
  lemma QuantityIsExact(months: nat, covered: nat, period: nat)
    requires 0 < period && covered <= period && months <= SMALL_INTEGER && covered <= SMALL_INTEGER
    ensures ProratedQuantity(months, covered, period) == HalfUp(months * covered * 10000, period)
  {
    FourZeros();
    if covered == period {
      assert months * covered * 10000 == months * 10000 * period;
      HalfUpOfWhole(months * 10000, period);
    } else {
      ProductFits(months, covered, SMALL_INTEGER, SMALL_INTEGER);
      FourPlaces(months * covered, period);
    }
  }

  lemma FourPlaces(n: nat, d: nat)
    requires 0 < d && n <= SMALL_INTEGER * SMALL_INTEGER
    ensures Quantized(Over(Whole(n), Whole(d)), QUANTITY_EXPONENT) == HalfUp(n * 10000, d)
  {
    FourZeros();
    HalfUpIsNearest(0, d, 0);
    if n != 0 {
      MulMonotone(1, d, LIMIT);
      var k := ShiftUp(n, d, LIMIT);
      RoundedOnceToFour(n, d, k);
      QuantizedMagnitude(false, HalfEven(n * Pow10(k), d), QUANTITY_EXPONENT, k - 4);
    }
  }

  lemma RoundedOnceToFour(n: nat, d: nat, k: nat)
    requires 0 < d && n <= SMALL_INTEGER * SMALL_INTEGER && LIMIT * d <= 10 * (n * Pow10(k))
    ensures k > 4 && HalfUp(HalfEven(n * Pow10(k), d), Pow10(k - 4)) == HalfUp(n * 10000, d)
  {
    FourMoreZeros(n, d, k);
    var scale := Pow10(k - 4);
    FinerThanDivisor(n * 10000, d, scale, LIMIT);
    assert n * 10000 * scale == n * Pow10(k);
    DoubleRounding(n * 10000, d, scale);
  }

  /** So short a number is shifted by more than four places. */
  lemma FourMoreZeros(n: nat, d: nat, k: nat)
    requires 0 < d && n <= SMALL_INTEGER * SMALL_INTEGER && LIMIT * d <= 10 * (n * Pow10(k))
    ensures k > 4 && Pow10(k) == 10000 * Pow10(k - 4)
    ensures 10 * (n * 10000 * Pow10(k - 4)) == 10 * (n * Pow10(k))
  {
    FourZeros();
    if k <= 4 {
      Pow10Rises(k, 4);
      MulMonotone(n, SMALL_INTEGER * SMALL_INTEGER, Pow10(k));
    } else {
      var a, b, c, e := Pow10(k - 4), Pow10(k - 3), Pow10(k - 2), Pow10(k - 1);
      assert b == 10 * a && c == 10 * b && e == 10 * c && Pow10(k) == 10 * e;
      Thousands(n, a);
    }
  }

  lemma Thousands(n: nat, a: nat)
    ensures n * 10000 * a == n * (10000 * a)
  {
  }

  lemma {:induction false} Pow10Rises(a: nat, b: nat)
    requires a <= b
    ensures Pow10(a) <= Pow10(b)
  {
    if a < b {
      Pow10Rises(a, b - 1);
    }
  }

  lemma HalfUpOfWhole(c: nat, d: nat)
    requires d > 0
    ensures HalfUp(c * d, d) == c
  {
    Spread(c, d);
    HalfUpIsNearest(c * d, d, c);
  }

  lemma SignedHalfUpOfWhole(c: int, d: nat)
    requires d > 0
    ensures SignedHalfUp(c * d, d) == c
  {
    HalfUpOfWhole(Abs(c), d);
    assert Abs(c * d) == Abs(c) * d;
  }

  /** A period covered in full costs exactly its months, whatever its length in days. */
  lemma FullCoverIsWhole(price: int, months: nat, period: nat)
    requires period > 0 && ColumnsFit(price, months, period)
    ensures ProratedAmount(Some(price), months, period, period) == price * months
  {
    ProrationIsExact(price, months, period, period);
    SignedHalfUpOfWhole(price * months, period);
  }

  // Splitting a period ------------------------------------------------------------------

  /** Rounding moves a fraction by half a unit at most. */
  lemma SignedHalfUpIsNear(n: int, d: nat)
    requires d > 0
    ensures Abs(2 * (d * SignedHalfUp(n, d) - n)) <= d
  {
    var q: int := HalfUp(Abs(n), d);
    HalfUpInRange(Abs(n), d);
    Spread(q, d);
    assert d * (-q) == -(d * q);
  }

  /** A line for some of the days of a period is at most half a cent from its exact share. */
  lemma LineWithinHalfACent(price: int, months: nat, covered: nat, period: nat)
    requires period > 0 && ColumnsFit(price, months, covered)
    ensures Abs(2 * (period * ProratedAmount(Some(price), months, covered, period) - price * months * covered)) <= period
  {
    ProrationIsExact(price, months, covered, period);
    SignedHalfUpIsNear(price * months * covered, period);
  }

  function SplitAmount(price: int, months: nat, parts: seq<nat>, period: nat): int
    requires period > 0
  {
    if parts == [] then 0
    else
      SplitAmount(price, months, parts[..|parts| - 1], period)
      + ProratedAmount(Some(price), months, parts[|parts| - 1], period)
  }

  function Days(parts: seq<nat>): nat {
    if parts == [] then 0 else Days(parts[..|parts| - 1]) + parts[|parts| - 1]
  }

  lemma {:induction false} SplitError(price: int, months: nat, parts: seq<nat>, period: nat)
    requires period > 0 && forall k :: 0 <= k < |parts| ==> ColumnsFit(price, months, parts[k])
    ensures Abs(2 * (period * SplitAmount(price, months, parts, period) - price * months * Days(parts)))
            <= |parts| * period
  {
    hide ProratedAmount;
    if parts != [] {
      var n := |parts| - 1;
      SplitError(price, months, parts[..n], period);
      LineWithinHalfACent(price, months, parts[n], period);
      OneMoreLine(period, price * months, SplitAmount(price, months, parts[..n], period), Days(parts[..n]), n,
              ProratedAmount(Some(price), months, parts[n], period), parts[n]);
    }
  }

  /** One more line adds at most half a cent to the distance. */
  lemma OneMoreLine(period: nat, fee: int, sum: int, days: nat, lines: nat, amount: int, covered: nat)
    requires Abs(2 * (period * sum - fee * days)) <= lines * period
    requires Abs(2 * (period * amount - fee * covered)) <= period
    ensures Abs(2 * (period * (sum + amount) - fee * (days + covered))) <= (lines + 1) * period
  {
    assert period * (sum + amount) == period * sum + period * amount;
    assert fee * (days + covered) == fee * days + fee * covered;
    assert (lines + 1) * period == lines * period + period;
  }

  /** Lines whose days make up the period sum to the whole fee, give or take half a cent a line. */
  lemma SplitSumsToTheFee(price: int, months: nat, parts: seq<nat>, period: nat)
    requires period > 0 && Days(parts) == period
    requires forall k :: 0 <= k < |parts| ==> ColumnsFit(price, months, parts[k])
    ensures Abs(2 * (SplitAmount(price, months, parts, period) - price * months)) <= |parts|
  {
    SplitError(price, months, parts, period);
    DivideBy(period, SplitAmount(price, months, parts, period), price * months, |parts|);
  }

  lemma DivideBy(period: nat, sum: int, fee: int, lines: nat)
    requires period > 0 && Abs(2 * (period * sum - fee * period)) <= lines * period
    ensures Abs(2 * (sum - fee)) <= lines
  {
    assert period * sum - fee * period == (sum - fee) * period;
    CancelFactor(2 * (sum - fee), lines, period);
    CancelFactor(2 * (fee - sum), lines, period);
    assert (2 * (fee - sum)) * period == -(2 * (sum - fee) * period);
  }

  lemma CancelFactor(a: int, b: int, c: nat)
    requires c > 0
    ensures a * c <= b * c ==> a <= b
  {
    MulOrder(a, b + 1, c);
    assert c * (b + 1) == c * b + c;
  }

  /** Two lines splitting a period charge the whole fee, or one cent more when both fall on a half. */
  lemma TwoPartSplit(price: nat, months: nat, covered: nat, period: nat)
    requires 0 < period && covered <= period && ColumnsFit(price, months, period)
    ensures var fee := price * months;
            ProratedAmount(Some(price), months, covered, period)
            + ProratedAmount(Some(price), months, period - covered, period) ==
            fee + (if OnAHalf(fee * covered, period) then 1 else 0)
  {
    var fee := price * months;
    assert fee >= 0;
    ProratedFee(price, months, covered, period, fee);
    ProratedFee(price, months, period - covered, period, fee);
    SplitFee(fee, covered, period);
  }

  lemma ProratedFee(price: int, months: nat, covered: nat, period: nat, fee: int)
    requires period > 0 && ColumnsFit(price, months, covered) && fee == price * months
    ensures ProratedAmount(Some(price), months, covered, period) == SignedHalfUp(fee * covered, period)
  {
    ProrationIsExact(price, months, covered, period);
  }

  lemma SplitFee(fee: nat, covered: nat, period: nat)
    requires 0 < period && covered <= period
    ensures SignedHalfUp(fee * covered, period) + SignedHalfUp(fee * (period - covered), period) ==
            fee + (if OnAHalf(fee * covered, period) then 1 else 0)
  {
    assert fee * (period - covered) == fee * period - fee * covered;
    MulMonotone(covered, period, fee);
    ComplementRounds(fee * covered, fee, period);
  }

  predicate OnAHalf(n: nat, d: nat)
    requires d > 0
  {
    2 * (n % d) == d
  }

  lemma ComplementRounds(n: nat, fee: nat, d: nat)
    requires d > 0 && n <= fee * d
    ensures HalfUp(n, d) + HalfUp(fee * d - n, d) == fee + (if OnAHalf(n, d) then 1 else 0)
  {
    var q, r := n / d, n % d;
    assert n == d * q + r;
    NearestAbove(n, d, q, r);
    OtherPart(d, fee, q, r);
    if r == 0 {
      NearestAbove(fee * d - n, d, fee - q, 0);
    } else {
      NearestAbove(fee * d - n, d, fee - q - 1, d - r);
    }
  }

  lemma OtherPart(d: nat, fee: nat, q: nat, r: nat)
    requires r < d && d * q + r <= fee * d
    ensures q <= fee && (r > 0 ==> q < fee)
    ensures fee * d - (d * q + r) == d * (fee - q) - r == d * (fee - q - 1) + (d - r)
  {
    MulOrder(q, fee + 1, d);
    MulOrder(q, fee, d);
    assert d * (fee + 1) == d * fee + d;
    assert d * (fee - q) == d * fee - d * q;
    assert d * (fee - q - 1) == d * fee - d * q - d;
  }

  lemma NearestAbove(n: nat, d: nat, q: nat, r: nat)
    requires d > 0 && n == d * q + r && r < d
    ensures HalfUp(n, d) == q + (if 2 * r >= d then 1 else 0)
  {
    Spread(q, d);
    Spread(q + 1, d);
    HalfUpIsNearest(n, d, if 2 * r >= d then q + 1 else q);
  }

  // Other lines and totals ---------------------------------------------------------------

  /** A line's amount is its quantity times its price, rounded half-up once. */
  lemma LineAmountIsExact(quantity: int, price: int)
    requires Abs(quantity) < TWELVE_DIGITS && Abs(price) < TWELVE_DIGITS
    ensures LineAmount(quantity, Some(price)) == SignedHalfUp(quantity * price, 10000)
  {
    AbsTimes(quantity, price);
    ProductFits(quantity, Abs(price), TWELVE_DIGITS, TWELVE_DIGITS);
    FourZeros();
  }

  lemma AbsTimes(a: int, b: int)
    ensures Abs(a * b) == Abs(a * Abs(b))
  {
  }

  lemma FourZeros()
    ensures Pow10(4) == 10000
  {
    assert Pow10(2) == 10 * (10 * Pow10(0));
    assert Pow10(4) == 10 * (10 * Pow10(2));
  }

  /** A whole quantity costs its count times the price, with nothing to round. */
  lemma WholeQuantity(count: int, price: int)
    requires Abs(count * 10000) < TWELVE_DIGITS && Abs(price) < TWELVE_DIGITS
    ensures LineAmount(count * 10000, Some(price)) == count * price
  {
    LineAmountIsExact(count * 10000, price);
    Regroup(count, price);
    SignedHalfUpOfWhole(count * price, 10000);
  }

  lemma Regroup(count: int, price: int)
    ensures count * 10000 * price == count * price * 10000
  {
  }

  /** The VAT is the subtotal's share rounded once, and the total is the two added, to the cent. */
  lemma TotalsAddUp(amounts: seq<int>, rate: nat)
    requires Abs(Sum(amounts)) < 100 * TWELVE_DIGITS && rate < 100000
    ensures var t := TotalsOf(amounts, rate);
            && t.subtotal == Sum(amounts) && t.total == t.subtotal + t.vat && t.vat == VatOf(t.subtotal, rate)
            && t.vat == SignedHalfUp(t.subtotal * rate, 10000)
            && Abs(2 * (10000 * t.total - t.subtotal * (10000 + rate))) <= 10000
  {
    var subtotal := Sum(amounts);
    ProductFits(subtotal, rate, 100 * TWELVE_DIGITS, 100000);
    VatIsExact(subtotal * rate);
    SignedHalfUpIsNear(subtotal * rate, 10000);
    assert subtotal * (10000 + rate) == subtotal * 10000 + subtotal * rate;
  }

  lemma VatIsExact(n: int)
    requires 10 * Abs(n) < LIMIT
    ensures RoundMoney(Over(Decimal(n, 2 * CENT_EXPONENT), Whole(100))) == SignedHalfUp(n, 10000)
  {
    var a := Abs(n);
    HalfUpIsNearest(0, 10000, 0);
    if a != 0 {
      var k := ShiftUp(a, 100, LIMIT);
      FinerThanDivisor(a, 100, Pow10(k), LIMIT);
      assert Pow10(k + 2) == 10 * (10 * Pow10(k));
      DoubleRoundingCoarser(a, Pow10(k));
      HalfUpIsNearest(0, Pow10(k + 2), 0);
    }
  }

  /** Divided by a hundred and then rounded to hundredths: one rounding by ten thousand. */
  lemma DoubleRoundingCoarser(n: nat, scale: nat)
    requires 100 < scale && scale % 2 == 0
    ensures HalfUp(HalfEven(n * scale, 100), 100 * scale) == HalfUp(n, 10000)
  {
    var q := HalfUp(n, 10000);
    var c := HalfEven(n * scale, 100);
    var h := scale / 2;
    HalfUpIsNearest(n, 10000, q);
    HalfLine(n, 100, h, (2 * q - 1) * 100, (2 * q + 1) * 100);
    HalfEvenAtLeast(n * scale, 100, (2 * q - 1) * 100 * h);
    HalfEvenBelow(n * scale, 100, (2 * q + 1) * 100 * h);
    assert (2 * q - 1) * (100 * scale) == 2 * ((2 * q - 1) * 100 * h);
    assert (2 * q + 1) * (100 * scale) == 2 * ((2 * q + 1) * 100 * h);
    HalfUpIsNearest(c, 100 * scale, q);
  }
}
