/**
 * Monetary amounts are whole cents (the source's DecimalField(decimal_places=2)).
 * `Decimal.quantize(Decimal('0.01'))` under Python's default context rounds half to even;
 * RoundHalfEven and QuantizeRatio give that rounding on exact integer ratios. Decimal values
 * read from settings, such as an exchange rate of 83.25, are exact fractions (Dec).
 */
module Money {

  import opened Basics

  /** The integer nearest to num/den, ties going to the even neighbour (ROUND_HALF_EVEN). */
  function RoundHalfEven(num: int, den: int): (r: int)
    requires den > 0
    ensures -den <= 2 * (num - den * r) <= den
    ensures 2 * (num - den * r) == den ==> r % 2 == 0
    ensures 2 * (num - den * r) == -den ==> r % 2 == 0
  {
    var q, rem := num / den, num % den;
    assert num - den * q == rem && 0 <= rem < den;
    assert num - den * (q + 1) == rem - den;
    if 2 * rem < den then q
    else if 2 * rem > den then q + 1
    else if q % 2 == 0 then q
    else q + 1
  }

  /** `(Decimal(n) / Decimal(d)).quantize(Decimal('0.01'))`, in cents; None when `d` is 0, where Decimal raises. */
  function QuantizeRatio(n: int, d: int): (r: Option<int>)
    ensures r.None? <==> d == 0
    ensures d > 0 ==> r.Some? && -d <= 2 * (100 * n - d * r.value) <= d
    ensures d < 0 ==> r.Some? && d <= 2 * (100 * n - d * r.value) <= -d
  {
    if d == 0 then None
    else if d > 0 then Some(RoundHalfEven(100 * n, d))
    else
      var q := RoundHalfEven(-100 * n, -d);
      assert (-d) * q == -(d * q);
      Some(q)
  }

  lemma MulStrictMono(d: int, a: int, b: int)
    requires d > 0 && a < b
    ensures d * a + d <= d * b
  {
    var k := b - a;
    assert d * b == d * a + d * k;
    assert d * k >= d by {
      assert k >= 1;
    }
  }

  /** Rounding to the nearest integer never reverses the order of two ratios with the same denominator. */
  lemma {:induction false} RoundHalfEvenMonotone(n1: int, n2: int, den: int)
    requires den > 0 && n1 <= n2
    ensures RoundHalfEven(n1, den) <= RoundHalfEven(n2, den)
  {
    var r1, r2 := RoundHalfEven(n1, den), RoundHalfEven(n2, den);
    if r1 > r2 {
      // n1 lies within half a den above den*r1 - den, n2 within half a den of den*r2.
      MulStrictMono(den, r2, r1);
      assert false;
    }
  }

  /** With a positive rate, quantized conversion keeps the order of the converted amounts. */
  lemma QuantizeRatioMonotone(n1: int, n2: int, d: int)
    requires d > 0 && n1 <= n2
    ensures QuantizeRatio(n1, d).value <= QuantizeRatio(n2, d).value
  {
    RoundHalfEvenMonotone(100 * n1, 100 * n2, d);
  }

  /** If k is positive, k * a <= k * b exactly when a <= b; used to cancel a positive factor. */
  lemma CancelPositive(k: int, a: int, b: int)
    requires k > 0 && k * a <= k * b
    ensures a <= b
  {
    if a > b {
      MulStrictMono(k, b, a);
      assert false;
    }
  }

  /** Within half a unit of the quotient and even on a tie: only RoundHalfEven's answer is both. */
  lemma RoundHalfEvenUnique(num: int, den: int, s: int)
    requires den > 0
    requires -den <= 2 * (num - den * s) <= den
    requires 2 * (num - den * s) == den ==> s % 2 == 0
    requires 2 * (num - den * s) == -den ==> s % 2 == 0
    ensures s == RoundHalfEven(num, den)
  {
    var r := RoundHalfEven(num, den);
    assert (num - den * r) - (num - den * s) == den * (s - r);
    CancelPositive(den, s - r, 1);
    CancelPositive(den, -1, s - r);
  }

  /** Rounding depends only on the ratio: scaling both terms by the same positive k changes nothing. */
  lemma RoundHalfEvenScale(num: int, den: int, k: int)
    requires den > 0 && k > 0
    ensures RoundHalfEven(num * k, den * k) == RoundHalfEven(num, den)
  {
    var s := RoundHalfEven(num * k, den * k);
    var t := num - den * s;
    assert num * k - den * k * s == k * t;
    assert k * (2 * t) <= k * den && k * (-den) <= k * (2 * t);
    CancelPositive(k, 2 * t, den);
    CancelPositive(k, -den, 2 * t);
    assert 2 * t == den ==> 2 * (num * k - den * k * s) == den * k;
    assert 2 * t == -den ==> 2 * (num * k - den * k * s) == -(den * k);
    RoundHalfEvenUnique(num, den, s);
  }

  /** Quantizing n/d depends only on the value of the ratio, not on how it is written. */
  lemma QuantizeRatioScale(n: int, d: int, k: int)
    requires d > 0 && k > 0
    ensures QuantizeRatio(n * k, d * k) == QuantizeRatio(n, d)
  {
    assert 100 * (n * k) == (100 * n) * k;
    RoundHalfEvenScale(100 * n, d, k);
  }

  /** Monotonicity across denominators: n1/d1 <= n2/d2 never quantize the other way round. */
  lemma QuantizeRatioMonotoneCross(n1: int, d1: int, n2: int, d2: int)
    requires d1 > 0 && d2 > 0 && n1 * d2 <= n2 * d1
    ensures QuantizeRatio(n1, d1).value <= QuantizeRatio(n2, d2).value
  {
    var d := d1 * d2;
    ProductSign(d1, d2);
    QuantizeRatioScale(n1, d1, d2);
    QuantizeRatioScale(n2, d2, d1);
    assert d2 * d1 == d;
    QuantizeRatioMonotone(n1 * d2, n2 * d1, d);
  }

  /** A Decimal value as the exact fraction num/den. */
  datatype Fraction = Fraction(num: int, den: int)

  /** Fractions with a positive denominator; every Decimal value is one. */
  type Dec = f: Fraction | f.den > 0 witness Fraction(0, 1)

  /** `Decimal(n)` of a whole number. */
  function Whole(n: int): Dec {
    Fraction(n, 1)
  }

  /** `a <= b` on Decimal values. */
  predicate DecLe(a: Dec, b: Dec) {
    a.num * b.den <= b.num * a.den
  }

  /** A positive factor keeps a product's sign. */
  lemma ProductSign(k: int, x: int)
    requires k > 0
    ensures k * x > 0 <==> x > 0
    ensures k * x == 0 <==> x == 0
  {
    if x > 0 {
      MulStrictMono(k, 0, x);
    } else if x < 0 {
      MulStrictMono(k, x, 0);
    }
  }

  /**
   * `(a / b).quantize(Decimal('0.01'))` in cents; a/b is (a.num * b.den) / (a.den * b.num).
   * None when b is zero, where Decimal raises; otherwise within half a cent of 100 * a / b.
   */
  function DivideQuantized(a: Dec, b: Dec): (r: Option<int>)
    ensures r.None? <==> b.num == 0
    ensures b.num > 0 ==> r.Some? && var d := a.den * b.num;
      d > 0 && -d <= 2 * (100 * (a.num * b.den) - d * r.value) <= d
  {
    ProductSign(a.den, b.num);
    QuantizeRatio(a.num * b.den, a.den * b.num)
  }

  /** Dividing by a positive Decimal and quantizing keeps the order of the dividends. */
  lemma DivideQuantizedMonotone(a1: Dec, a2: Dec, b: Dec)
    requires b.num > 0 && DecLe(a1, a2)
    ensures DivideQuantized(a1, b).value <= DivideQuantized(a2, b).value
  {
    var n1, d1 := a1.num * b.den, a1.den * b.num;
    var n2, d2 := a2.num * b.den, a2.den * b.num;
    var k := b.den * b.num;
    ProductSign(a1.den, b.num);
    ProductSign(a2.den, b.num);
    ProductSign(b.den, b.num);
    assert n1 * d2 == k * (a1.num * a2.den);
    assert n2 * d1 == k * (a2.num * a1.den);
    if a1.num * a2.den < a2.num * a1.den {
      MulStrictMono(k, a1.num * a2.den, a2.num * a1.den);
    }
    QuantizeRatioMonotoneCross(n1, d1, n2, d2);
  }
}
