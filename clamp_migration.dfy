/**
 * products/migrations/0002_clamp_prices_to_inr.py: every product's price, and its cost when
 * truthy, is clamped into the USD equivalents of an INR floor and ceiling, and a truthy cost is
 * capped at the price. A row is saved only when one of the two columns was reassigned.
 */
module ClampMigration {

  import opened Basics
  import opened Money
  import opened Catalog

  /** Lower and upper price bound, in cents. */
  datatype Bounds = Bounds(lo: int, hi: int)

  /** The settings defaults: USD_TO_INR_RATE, MIN_PRICE_INR and MAX_PRICE_INR, each read as a Decimal. */
  const DefaultRate: Dec := Whole(83)
  const DefaultMinInr: Dec := Whole(500)
  const DefaultMaxInr: Dec := Whole(5000)

  /**
   * `(min_inr / rate).quantize(Decimal('0.01'))` and the same for `max_inr`, in cents; None
   * when the rate is 0, where Decimal raises.
   */
  function PriceBounds(rate: Dec, minInr: Dec, maxInr: Dec): (b: Option<Bounds>)
    ensures b.None? <==> rate.num == 0
    ensures rate.num > 0 ==> (
      && b.Some?
      && (var d := minInr.den * rate.num; -d <= 2 * (100 * (minInr.num * rate.den) - d * b.value.lo) <= d)
      && (var d := maxInr.den * rate.num; -d <= 2 * (100 * (maxInr.num * rate.den) - d * b.value.hi) <= d))
  {
    if rate.num == 0 then None
    else Some(Bounds(DivideQuantized(minInr, rate).value, DivideQuantized(maxInr, rate).value))
  }

  /** With the defaults (83, 500, 5000) the bounds are 6.02 and 60.24. */
  lemma DefaultBounds()
    ensures PriceBounds(DefaultRate, DefaultMinInr, DefaultMaxInr) == Some(Bounds(602, 6024))
  {
    assert RoundHalfEven(50000, 83) == 602;
    assert RoundHalfEven(500000, 83) == 6024;
  }

  /** A fractional rate is a valid setting: at 83.25 rupees to the dollar the bounds are 6.01 and 60.06. */
  lemma FractionalRateBounds()
    ensures PriceBounds(Fraction(8325, 100), DefaultMinInr, DefaultMaxInr) == Some(Bounds(601, 6006))
  {
    assert RoundHalfEven(5000000, 8325) == 601;
    assert RoundHalfEven(50000000, 8325) == 6006;
  }

  /** A floor not above the ceiling and a positive rate give ordered bounds. */
  lemma BoundsOrdered(rate: Dec, minInr: Dec, maxInr: Dec)
    requires rate.num > 0 && DecLe(minInr, maxInr)
    ensures PriceBounds(rate, minInr, maxInr).value.lo <= PriceBounds(rate, minInr, maxInr).value.hi
  {
    DivideQuantizedMonotone(minInr, maxInr, rate);
  }

  /** The migration's `if x < lo ... elif x > hi ...` clamp. */
  function Clamp(x: int, lo: int, hi: int): (r: int)
    ensures lo <= hi ==> lo <= r <= hi
    ensures lo <= x <= hi ==> r == x
    ensures r == x || r == lo || r == hi
  {
    if x < lo then lo else if x > hi then hi else x
  }

  function Min(a: int, b: int): int {
    if a <= b then a else b
  }

  /** What the migration leaves in one row: price clamped; a truthy cost clamped, then capped at the price. */
  function ClampedRow(p: Product, b: Bounds): Product {
    var price := Clamp(p.price, b.lo, b.hi);
    var cost := if Truthy(p.cost) then Some(Min(Clamp(p.cost.value, b.lo, b.hi), price)) else p.cost;
    p.(price := price, cost := cost)
  }

  /** After the migration, the price lies within the bounds, and so does a truthy cost, which never exceeds the price. */
  lemma ClampedRowWithinBounds(p: Product, b: Bounds)
    requires b.lo <= b.hi
    ensures b.lo <= ClampedRow(p, b).price <= b.hi
    ensures Truthy(ClampedRow(p, b).cost) ==> b.lo <= ClampedRow(p, b).cost.value <= ClampedRow(p, b).price
  {
  }

  /** A falsy cost (None or zero) is left as it was; only price and cost are ever touched. */
  lemma ClampedRowFrame(p: Product, b: Bounds)
    ensures !Truthy(p.cost) ==> ClampedRow(p, b).cost == p.cost
    ensures ClampedRow(p, b) == p.(price := ClampedRow(p, b).price, cost := ClampedRow(p, b).cost)
  {
  }

  /** Running the clamp again on its own output changes nothing. */
  lemma {:induction false} ClampedRowIdempotent(p: Product, b: Bounds)
    requires b.lo <= b.hi
    ensures ClampedRow(ClampedRow(p, b), b) == ClampedRow(p, b)
  {
    var q := ClampedRow(p, b);
    ClampedRowWithinBounds(p, b);
    if Truthy(q.cost) {
      assert Clamp(q.cost.value, b.lo, b.hi) == q.cost.value;
    }
  }

  /** The loop body for one product, as the source writes it: reassign fields and raise `changed`. */
  method ClampProduct(p: Product, b: Bounds) returns (q: Product, changed: bool)
    ensures q == ClampedRow(p, b)
    ensures changed <==> q != p
  {
    q := p;
    changed := false;
    if q.price < b.lo {
      q := q.(price := b.lo);
      changed := true;
    } else if q.price > b.hi {
      q := q.(price := b.hi);
      changed := true;
    }
    if Truthy(q.cost) {
      if q.cost.value < b.lo {
        q := q.(cost := Some(b.lo));
        changed := true;
      } else if q.cost.value > b.hi {
        q := q.(cost := Some(b.hi));
        changed := true;
      }
      if q.cost.value > q.price {
        q := q.(cost := Some(q.price));
        changed := true;
      }
    }
  }

  /**
   * `clamp_prices` over the whole products table. The rate of 0 makes the bound computation
   * raise before any row is read, so the table is left as it was.
   */
  method ClampPrices(rows: array<Product>, rate: Dec, minInr: Dec, maxInr: Dec)
    returns (ok: bool, saved: seq<bool>)
    modifies rows
    ensures ok <==> rate.num != 0
    ensures !ok ==> rows[..] == old(rows[..]) && saved == []
    ensures ok ==> |saved| == rows.Length
    ensures ok ==> forall i :: 0 <= i < rows.Length ==>
      rows[i] == ClampedRow(old(rows[i]), PriceBounds(rate, minInr, maxInr).value)
      && (saved[i] <==> rows[i] != old(rows[i]))
  {
    var bounds := PriceBounds(rate, minInr, maxInr);
    if bounds.None? {
      return false, [];
    }
    var b := bounds.value;
    ok, saved := true, [];
    var i := 0;
    while i < rows.Length
      invariant 0 <= i <= rows.Length && |saved| == i
      invariant forall k :: 0 <= k < i ==>
        rows[k] == ClampedRow(old(rows[k]), b) && (saved[k] <==> rows[k] != old(rows[k]))
      invariant forall k :: i <= k < rows.Length ==> rows[k] == old(rows[k])
    {
      var q, changed := ClampProduct(rows[i], b);
      if changed {
        rows[i] := q;
      }
      saved := saved + [changed];
      i := i + 1;
    }
  }
}
