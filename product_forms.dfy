/**
 * products/forms.py: the ProductForm field cleaners and its cross-field check. A cleaner either
 * raises a validation error or hands back exactly the value it was given.
 */
module ProductForms {

  import opened Basics
  import opened Catalog

  datatype FormError = PriceNotPositive | NegativeQuantity | CostAboveSelling

  datatype Cleaned<T> = Accepted(value: T) | Rejected(error: FormError)

  /** The form fields the checks read; a field's cleaned value may be None (left blank). */
  datatype Field = PriceField | CostPriceField | QuantityField

  /**
   * `clean_price`: `if price and price <= 0` raises. A zero price is falsy and slips through,
   * so only a negative price is rejected.
   */
  function CleanPrice(price: Option<int>): (r: Cleaned<Option<int>>)
    ensures r.Rejected? <==> price.Some? && price.value < 0
    ensures r.Rejected? ==> r.error == PriceNotPositive
    ensures r.Accepted? ==> r.value == price
  {
    if Truthy(price) && price.value <= 0 then Rejected(PriceNotPositive) else Accepted(price)
  }

  /** `clean_quantity_in_stock`: a negative quantity is rejected; None and anything >= 0 pass unchanged. */
  function CleanQuantityInStock(quantity: Option<int>): (r: Cleaned<Option<int>>)
    ensures r.Rejected? <==> quantity.Some? && quantity.value < 0
    ensures r.Rejected? ==> r.error == NegativeQuantity
    ensures r.Accepted? ==> r.value == quantity
  {
    if quantity.Some? && quantity.value < 0 then Rejected(NegativeQuantity) else Accepted(quantity)
  }

  /** `cleaned_data.get(field)`: None when the field is absent or was left blank. */
  function Get(data: map<Field, Option<int>>, f: Field): Option<int> {
    if f in data then data[f] else None
  }

  /** The cross-field warning of `clean`: both amounts truthy and the cost strictly above the price. */
  predicate CostAbovePrice(data: map<Field, Option<int>>) {
    var price, cost := Get(data, PriceField), Get(data, CostPriceField);
    Truthy(cost) && Truthy(price) && cost.value > price.value
  }

  /** A cost equal to the price, or any missing or zero amount, raises no warning. */
  lemma EqualOrMissingAccepted(data: map<Field, Option<int>>)
    ensures !Truthy(Get(data, PriceField)) ==> !CostAbovePrice(data)
    ensures !Truthy(Get(data, CostPriceField)) ==> !CostAbovePrice(data)
    ensures Get(data, PriceField) == Get(data, CostPriceField) ==> !CostAbovePrice(data)
  {
  }

  class ProductForm {
    /** `self.cleaned_data` after the field cleaners ran. */
    var cleanedData: map<Field, Option<int>>
    /** Errors recorded by `add_error`, in order. */
    var errors: seq<(Field, FormError)>

    constructor (data: map<Field, Option<int>>)
      ensures cleanedData == data && errors == []
    {
      cleanedData := data;
      errors := [];
    }

    /**
     * `clean`: on a cost above the price, records an error on `cost_price`; Django's `add_error`
     * also drops that field from the cleaned data. Returns the (same) cleaned data.
     */
    method Clean() returns (data: map<Field, Option<int>>)
      modifies this
      ensures var flagged := CostAbovePrice(old(cleanedData));
        && errors == old(errors) + (if flagged then [(CostPriceField, CostAboveSelling)] else [])
        && cleanedData == (if flagged then old(cleanedData) - {CostPriceField} else old(cleanedData))
      ensures data == cleanedData
    {
      var price := Get(cleanedData, PriceField);
      var cost := Get(cleanedData, CostPriceField);
      if Truthy(cost) && Truthy(price) && cost.value > price.value {
        errors := errors + [(CostPriceField, CostAboveSelling)];
        cleanedData := cleanedData - {CostPriceField};
      }
      data := cleanedData;
    }
  }

  /**
   * What a product form posts, for the fields the checks and the views read: the name, the two
   * amounts, the stock count and the status choice. A blank amount is None.
   */
  datatype ProductDraft = ProductDraft(
    name: string, price: Option<int>, cost: Option<int>, stock: Option<int>, status: Status)

  /** The cleaned data the cross-field check sees for a draft. */
  function DraftData(d: ProductDraft): map<Field, Option<int>> {
    map[PriceField := d.price, CostPriceField := d.cost, QuantityField := d.stock]
  }

  /**
   * `form.is_valid()` for a draft: the required name is non-blank and at most 255 characters once
   * Django has stripped it, price and stock are present and meet the model validators (the float
   * price limit, stock >= 0), the two field cleaners accept, and `clean` records no error.
   */
  predicate FormValid(d: ProductDraft): (r: bool)
    ensures r ==> 1 <= |Strip(d.name)| <= NameMaxLength
    ensures r ==> d.price.Some? && d.price.value >= 2 && d.stock.Some? && d.stock.value >= 0
  {
    && Filled(Strip(d.name)) && |Strip(d.name)| <= NameMaxLength
    && d.price.Some? && PriceMeetsMin(d.price.value)
    && d.stock.Some? && d.stock.value >= 0
    && CleanPrice(d.price).Accepted?
    && CleanQuantityInStock(d.stock).Accepted?
    && !CostAbovePrice(DraftData(d))
  }

  /**
   * A draft is accepted exactly when its stripped name is not blank and has at most 255
   * characters, its price is at least two cents (one cent fails the float limit of the price
   * validator), its stock is not negative, and its cost is missing, zero or at most the price. The price cleaner adds nothing to the model
   * validator: every price it rejects, the validator rejects too.
   */
  lemma FormValidIff(d: ProductDraft)
    ensures FormValid(d) <==>
      && Filled(Strip(d.name)) && |Strip(d.name)| <= 255
      && d.price.Some? && d.price.value >= 2
      && d.stock.Some? && d.stock.value >= 0
      && (d.cost.None? || d.cost.value == 0 || d.cost.value <= d.price.value)
    ensures d.price.Some? && d.price.value >= 1 ==> CleanPrice(d.price).Accepted?
  {
    if d.price.Some? {
      PriceMinIsTwoCents(d.price.value);
    }
    assert Get(DraftData(d), PriceField) == d.price;
    assert Get(DraftData(d), CostPriceField) == d.cost;
  }
}
