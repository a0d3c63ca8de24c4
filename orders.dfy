/**
 * orders/models.py: an Order and its OrderItems. Saving an order without an id gives it
 * "ORD-" and eight upper-case hex digits; saving an item always recomputes its subtotal.
 */
module Orders {

  import opened Basics
  import opened Catalog

  datatype OrderStatus = Pending | Confirmed | Processing | Shipped | Delivered | Cancelled | Refunded

  datatype PaymentStatus = PaymentPending | PaymentCompleted | PaymentFailed | PaymentRefunded

  datatype ItemStatus = ItemPending | ItemProcessing | ItemShipped | ItemDelivered | ItemCancelled

  /** The eight shipping columns, as the checkout form collects them. */
  datatype Shipping = Shipping(
    name: string, email: string, phone: string, address: string,
    city: string, state: string, postalCode: string, country: string)

  /**
   * An order row. `subtotal`, `shippingCost` and `discount` are cents; `tax` and `total` are
   * the exact Decimal values the view computes, in cents, which may carry a fraction of a cent.
   */
  datatype Order = Order(
    orderId: string,
    customer: UserId,
    shipping: Shipping,
    subtotal: int,
    shippingCost: int,
    tax: real,
    discount: int,
    total: real,
    status: OrderStatus,
    payment: PaymentStatus)

  /** An order-item row: the order it belongs to, and a snapshot of the product at order time. */
  datatype OrderItem = OrderItem(
    order: string,
    product: Option<ProductId>,
    artisan: Option<UserId>,
    productName: string,
    productPrice: int,
    quantity: int,
    subtotal: int,
    status: ItemStatus)

  /** New orders are pending, unpaid and undiscounted. */
  const DefaultOrderStatus: OrderStatus := Pending
  const DefaultPaymentStatus: PaymentStatus := PaymentPending
  const DefaultDiscount: int := 0
  const DefaultItemStatus: ItemStatus := ItemPending

  predicate IsLowerHex(c: char) {
    '0' <= c <= '9' || 'a' <= c <= 'f'
  }

  predicate IsUpperHex(c: char) {
    '0' <= c <= '9' || 'A' <= c <= 'F'
  }

  /** What `uuid.uuid4().hex[:8]` yields: eight lower-case hex digits. */
  predicate IsHex8(s: string) {
    |s| == 8 && forall i :: 0 <= i < |s| ==> IsLowerHex(s[i])
  }

  function UpperChar(c: char): (u: char)
    requires IsLowerHex(c)
    ensures IsUpperHex(u)
  {
    if 'a' <= c <= 'f' then (c as int - 32) as char else c
  }

  lemma UpperCharInjective(c: char, d: char)
    requires IsLowerHex(c) && IsLowerHex(d) && c != d
    ensures UpperChar(c) != UpperChar(d)
  {
  }

  function Upper(s: string): (u: string)
    requires forall i :: 0 <= i < |s| ==> IsLowerHex(s[i])
    ensures |u| == |s|
    ensures forall i :: 0 <= i < |s| ==> u[i] == UpperChar(s[i])
  {
    seq(|s|, i requires 0 <= i < |s| => UpperChar(s[i]))
  }

  const OrderIdPrefix: string := "ORD-"

  /** `f"ORD-{uuid.uuid4().hex[:8].upper()}"`. */
  function FormatOrderId(hex8: string): (id: string)
    requires IsHex8(hex8)
    ensures |id| == 12 && id[..4] == OrderIdPrefix
    ensures forall i :: 4 <= i < 12 ==> id[i] == UpperChar(hex8[i - 4])
  {
    OrderIdPrefix + Upper(hex8)
  }

  /** A generated id is twelve characters: "ORD-" and eight upper-case hex digits. */
  lemma OrderIdShape(hex8: string)
    requires IsHex8(hex8)
    ensures var id := FormatOrderId(hex8);
      |id| == 12 && id[..4] == "ORD-" && forall i :: 4 <= i < 12 ==> IsUpperHex(id[i])
  {
    var id := FormatOrderId(hex8);
    forall i | 4 <= i < 12
      ensures IsUpperHex(id[i])
    {
      assert id[i] == Upper(hex8)[i - 4];
    }
  }

  /** Different random digits give different ids, so the id is as unique as the digits. */
  lemma OrderIdInjective(h1: string, h2: string)
    requires IsHex8(h1) && IsHex8(h2) && h1 != h2
    ensures FormatOrderId(h1) != FormatOrderId(h2)
  {
    var k :| 0 <= k < 8 && h1[k] != h2[k];
    UpperCharInjective(h1[k], h2[k]);
    assert FormatOrderId(h1)[4 + k] != FormatOrderId(h2)[4 + k];
  }

  /** An order row as the model holds it; `Save` is `Order.save`. */
  class OrderRecord {
    var row: Order

    constructor (o: Order)
      ensures row == o
    {
      row := o;
    }

    /** Assigns a fresh id only when the row has none; an existing id is kept. */
    method Save(hex8: string)
      requires IsHex8(hex8)
      modifies this
      ensures row == old(row).(orderId := SavedId(old(row).orderId, hex8))
    {
      if row.orderId == "" {
        row := row.(orderId := OrderIdPrefix + Upper(hex8));
      }
    }
  }

  /** The id a save leaves on a row whose id was `id`. */
  function SavedId(id: string, hex8: string): (r: string)
    requires IsHex8(hex8)
    ensures id != "" ==> r == id
    ensures id == "" ==> r == FormatOrderId(hex8)
  {
    if id == "" then FormatOrderId(hex8) else id
  }

  /** Once an order has an id, every later save keeps it, whatever digits that save draws. */
  lemma SavedIdStable(id: string, h1: string, h2: string)
    requires IsHex8(h1) && IsHex8(h2)
    ensures SavedId(id, h1) != ""
    ensures SavedId(SavedId(id, h1), h2) == SavedId(id, h1)
  {
    OrderIdShape(h1);
  }

  /** An order-item row as the model holds it; `Save` is `OrderItem.save`. */
  class OrderItemRecord {
    var row: OrderItem

    constructor (i: OrderItem)
      ensures row == i
    {
      row := i;
    }

    /** Whatever subtotal was passed in, the saved one is price times quantity. */
    method Save()
      modifies this
      ensures row == old(row).(subtotal := old(row).productPrice * old(row).quantity)
    {
      row := row.(subtotal := row.productPrice * row.quantity);
    }
  }

  /**
   * What the confirmation view hands to OrderItem's `artisan`, a foreign key to User: either a
   * User or an ArtisanProfile.
   */
  datatype Ref = UserRef(user: UserId) | ProfileRef(profile: ArtisanId)

  /**
   * Django's check on assigning to a foreign key to User: a User is stored, anything else
   * raises ValueError (None here).
   */
  function AssignUserForeignKey(r: Ref): (stored: Option<UserId>)
    ensures stored.Some? <==> r.UserRef?
    ensures stored.Some? ==> stored.value == r.user
  {
    match r
    case UserRef(u) => Some(u)
    case ProfileRef(_) => None
  }

  /** As written, the view passes `product.artisan`, the product's ArtisanProfile. */
  function ItemArtisanAsWritten(p: Product): Ref {
    ProfileRef(p.artisan)
  }

  /** So creating the first order item raises, whatever the product. */
  lemma ItemArtisanAsWrittenRaises(p: Product)
    ensures AssignUserForeignKey(ItemArtisanAsWritten(p)).None?
  {
  }

  /** The evident intent: the user behind the product's artisan profile. */
  function ItemArtisan(p: Product): Ref {
    UserRef(p.artisanUser)
  }

  /** The corrected reference is accepted and records the product's artisan user. */
  lemma ItemArtisanStored(p: Product)
    ensures AssignUserForeignKey(ItemArtisan(p)) == Some(p.artisanUser)
  {
  }
}
