/**
 * products/migrations/0005_add_price_fields_and_assign.py: every product gets a deterministic
 * original INR price and discount derived from its id; the selling INR price is the discounted
 * price truncated to whole rupees; both are converted to USD cents, and the legacy price follows
 * the selling price. The INR range is hard-coded; only the rate comes from settings.
 */
module AssignMigration {

  import opened Basics
  import opened Money
  import opened Catalog
  import ClampMigration

  const MinInr: int := 500
  const MaxInr: int := 5000

  /** `min_inr + (id * 1237) % (max_inr - min_inr + 1)`. Python's `%` by a positive divisor agrees with Dafny's. */
  function OriginalInr(id: int): (r: int)
    ensures MinInr <= r <= MaxInr
  {
    MinInr + (id * 1237) % (MaxInr - MinInr + 1)
  }

  /** `5 + (id * 97) % 36`. */
  function DiscountPercent(id: int): (r: int)
    ensures 5 <= r <= 40
  {
    5 + (id * 97) % 36
  }

  /** `int(orig * (100 - disc) / 100)`: the discounted rupee price, truncated. */
  function SellingInr(id: int): (r: int)
    ensures 0 <= r < OriginalInr(id)
    ensures 100 * r <= OriginalInr(id) * (100 - DiscountPercent(id)) < 100 * (r + 1)
  {
    var orig, disc := OriginalInr(id), DiscountPercent(id);
    MulStrictMono(orig, 100 - disc, 100);
    MulStrictMono(orig, 0, 100 - disc);
    (orig * (100 - disc)) / 100
  }

  /** The row after assignment: the four price columns set, every other column as it was. */
  function AssignedRow(p: Product, rate: Dec): Product
    requires rate.num != 0
  {
    var sell := DivideQuantized(Whole(SellingInr(p.id)), rate).value;
    p.(original := Some(DivideQuantized(Whole(OriginalInr(p.id)), rate).value),
       discount := Some(DiscountPercent(p.id)),
       selling := Some(sell),
       price := sell)
  }

  /** With a positive rate the USD selling price never exceeds the USD original price. */
  lemma SellingNotAboveOriginal(p: Product, rate: Dec)
    requires rate.num > 0
    ensures AssignedRow(p, rate).selling.value <= AssignedRow(p, rate).original.value
  {
    DivideQuantizedMonotone(Whole(SellingInr(p.id)), Whole(OriginalInr(p.id)), rate);
  }

  /**
   * The assigned original price lies within the bounds the clamp migration computes from the
   * same rate and its default INR floor and ceiling.
   */
  lemma OriginalWithinClampBounds(p: Product, rate: Dec)
    requires rate.num > 0
    ensures var b := ClampMigration.PriceBounds(rate, Whole(MinInr), Whole(MaxInr)).value;
      b.lo <= AssignedRow(p, rate).original.value <= b.hi
  {
    DivideQuantizedMonotone(Whole(MinInr), Whole(OriginalInr(p.id)), rate);
    DivideQuantizedMonotone(Whole(OriginalInr(p.id)), Whole(MaxInr), rate);
  }

  /** The assignment reads nothing of a row but its id: two rows with one id get the same prices. */
  lemma DependsOnlyOnId(p: Product, q: Product, rate: Dec)
    requires rate.num != 0 && p.id == q.id
    ensures AssignedRow(p, rate).original == AssignedRow(q, rate).original
    ensures AssignedRow(p, rate).discount == AssignedRow(q, rate).discount
    ensures AssignedRow(p, rate).selling == AssignedRow(q, rate).selling
    ensures AssignedRow(p, rate).price == AssignedRow(q, rate).price
  {
  }

  /**
   * `assign_prices` over the whole products table. A rate of 0 makes the first conversion raise,
   * before anything is saved; with no products nothing is converted and nothing fails.
   */
  method AssignPrices(rows: array<Product>, rate: Dec) returns (ok: bool)
    modifies rows
    ensures ok <==> rate.num != 0 || rows.Length == 0
    ensures !ok ==> rows[..] == old(rows[..])
    ensures ok && rate.num != 0 ==> forall i :: 0 <= i < rows.Length ==> rows[i] == AssignedRow(old(rows[i]), rate)
  {
    if rate.num == 0 {
      return rows.Length == 0;
    }
    ghost var before := rows[..];
    var i := 0;
    while i < rows.Length
      invariant 0 <= i <= rows.Length
      invariant forall k :: 0 <= k < i ==> rows[k] == AssignedRow(before[k], rate)
      invariant forall k :: i <= k < rows.Length ==> rows[k] == before[k]
    {
      var p := rows[i];
      var origInr := MinInr + (p.id * 1237) % (MaxInr - MinInr + 1);
      var disc := 5 + (p.id * 97) % 36;
      var sellingInr := (origInr * (100 - disc)) / 100;
      var origUsd := DivideQuantized(Whole(origInr), rate).value;
      var sellUsd := DivideQuantized(Whole(sellingInr), rate).value;
      p := p.(original := Some(origUsd), discount := Some(disc), selling := Some(sellUsd));
      p := p.(price := p.selling.value);
      assert sellingInr == SellingInr(rows[i].id);
      assert p == AssignedRow(before[i], rate);
      rows[i] := p;
      i := i + 1;
    }
    ok := true;
  }
}
