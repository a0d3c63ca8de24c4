/** products/models.py: the Product row, its status choices, validators and derived figures. */
module Catalog {

  import opened Basics

  datatype Status = Active | Inactive | Discontinued

  /** `status` defaults to 'active'. */
  const DefaultStatus: Status := Active

  /**
   * One row of the products table. Money is in cents. `cost`, `original`, `discount` and
   * `selling` are nullable columns; `team` is the product's team, if any; `artisanUser` is the
   * user behind the product's artisan profile.
   */
  datatype Product = Product(
    id: ProductId,
    artisan: ArtisanId,
    artisanUser: UserId,
    team: Option<TeamId>,
    name: string,
    price: int,
    cost: Option<int>,
    stock: int,
    status: Status,
    original: Option<int>,
    discount: Option<int>,
    selling: Option<int>)

  /** A Decimal is truthy when it is present and non-zero. */
  predicate Truthy(d: Option<int>) {
    d.Some? && d.value != 0
  }

  /**
   * The limit of the price's `MinValueValidator(0.01)` is the float 0.01, whose exact binary
   * value is 5764607523034235 / 2^59, a little above one hundredth.
   */
  const FloatHundredthNum: int := 5764607523034235
  const FloatHundredthDen: int := 576460752303423488

  /**
   * `MinValueValidator(0.01)` on a price of `cents` hundredths. Django refuses when
   * `value < limit`, and Python compares the Decimal price with the float limit exactly.
   */
  predicate PriceMeetsMin(cents: int) {
    !(cents * FloatHundredthDen < 100 * FloatHundredthNum)
  }

  /** Because the float limit lies above 0.01, a price of 0.01 is refused: the least price that passes is 0.02. */
  lemma PriceMinIsTwoCents(cents: int)
    ensures PriceMeetsMin(cents) <==> cents >= 2
  {
  }

  /** `CharField(max_length=255)` on the name: Django adds a `MaxLengthValidator` counting characters. */
  const NameMaxLength: int := 255

  /**
   * The declared field validators: the name's `max_length`, the price's float
   * `MinValueValidator(0.01)` and quantity_in_stock >= 0.
   */
  predicate MeetsValidators(p: Product) {
    |p.name| <= NameMaxLength && PriceMeetsMin(p.price) && p.stock >= 0
  }

  /** `in_stock()`. */
  predicate InStock(p: Product) {
    p.stock > 0
  }

  /**
   * `discount_percentage()`: the whole percentage by which cost lies below price, truncated;
   * 0 when there is no cost, a zero cost, or a cost at or above the price.
   * The source divides by price, so it relies on the price validator (price >= 0.01).
   */
  function DiscountPercentage(price: int, cost: Option<int>): (r: int)
    requires price >= 1
    ensures !Truthy(cost) || cost.value >= price ==> r == 0
    ensures Truthy(cost) && cost.value < price ==>
      r * price <= 100 * (price - cost.value) < (r + 1) * price
    ensures Truthy(cost) && 0 < cost.value < price ==> 0 <= r <= 99
  {
    if Truthy(cost) && cost.value < price then
      var r := (100 * (price - cost.value)) / price;
      assert 0 < cost.value ==> r <= 99 by {
        if 0 < cost.value {
          assert (100 - r) * price > 0;
        }
      }
      r
    else 0
  }
}
