/**
 * The tables the cart and order views work on, held in one store: products, each customer's
 * cart lines, orders and their items, and the shipping details kept in each user's session.
 */
module Shop {

  import opened Basics
  import opened Catalog
  import opened Carts
  import opened Orders

  predicate OrderIdsUnique(orders: seq<Order>) {
    forall i, j :: 0 <= i < j < |orders| ==> orders[i].orderId != orders[j].orderId
  }

  predicate HasOrderId(orders: seq<Order>, id: string) {
    exists i :: 0 <= i < |orders| && orders[i].orderId == id
  }

  /** The cart of `u`, or no lines when the user has no cart row. */
  function CartOf(carts: map<UserId, seq<CartLine>>, u: UserId): seq<CartLine> {
    if u in carts then carts[u] else []
  }

  /**
   * The store's tables agree: products are keyed by their id, below the next id to hand out,
   * every cart has one line per known product with a positive quantity, and order ids are
   * unique (the `unique=True` column).
   */
  predicate Consistent(
    products: map<ProductId, Product>, carts: map<UserId, seq<CartLine>>, orders: seq<Order>, next: ProductId)
  {
    && (forall pid :: pid in products ==> products[pid].id == pid && pid < next)
    && (forall u :: u in carts ==> WellFormed(carts[u], products))
    && OrderIdsUnique(orders)
  }

  class Store {
    var products: map<ProductId, Product>
    /** One Cart row per user (`OneToOneField`), holding its lines. */
    var carts: map<UserId, seq<CartLine>>
    var orders: seq<Order>
    var orderItems: seq<OrderItem>
    /** `request.session['shipping_info']`, per signed-in user. */
    var shippingSessions: map<UserId, Shipping>
    /** The next primary key the products table hands out. */
    var nextProductId: ProductId

    predicate Valid()
      reads this
    {
      Consistent(products, carts, orders, nextProductId)
    }

    constructor ()
      ensures Valid()
      ensures products == map[] && carts == map[] && orders == [] && orderItems == [] && shippingSessions == map[]
      ensures nextProductId == 0
    {
      products := map[];
      carts := map[];
      orders := [];
      orderItems := [];
      shippingSessions := map[];
      nextProductId := 0;
    }

    /** `Cart.clear()`: every line of the cart is deleted; the cart row itself stays. */
    method ClearCart(u: UserId)
      requires Valid() && u in carts
      modifies this
      ensures Valid()
      ensures carts == old(carts)[u := []]
      ensures products == old(products) && orders == old(orders) && orderItems == old(orderItems)
      ensures shippingSessions == old(shippingSessions) && nextProductId == old(nextProductId)
    {
      carts := carts[u := []];
    }
  }

  /** After a clear the cart has no lines, no items and a zero total. */
  lemma ClearedCartFigures(products: map<ProductId, Product>, carts: map<UserId, seq<CartLine>>, u: UserId)
    ensures var lines := CartOf(carts[u := []], u);
      TotalPrice(lines, products) == 0 && ItemCount(lines) == 0 && UniqueProductCount(lines) == 0
  {
  }
}
