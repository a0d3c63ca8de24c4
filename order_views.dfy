/**
 * orders/views.py: the checkout step, which only keeps the shipping details in the session, and
 * the confirmation step, which turns the cart into an order: totals, one item per line, stock
 * taken off each product, the cart emptied and the session entry dropped.
 */
module OrderViews {

  import opened Basics
  import opened Catalog
  import opened Carts
  import opened Orders
  import opened Accounts
  import opened AccessDecorators
  import opened Shop

  datatype OrderOutcome =
    | Redirected(gate: Gate)
    | EmptyCart
    | ShowCheckout
    | IncompleteShipping
    | ShippingSaved
    | NeedShipping
    | ShowConfirmation
    | DuplicateOrderId
    | Placed

  /** `all(shipping_info.values())`: every one of the eight fields is non-empty. */
  predicate AllShippingFilled(s: Shipping) {
    Filled(s.name) && Filled(s.email) && Filled(s.phone) && Filled(s.address)
    && Filled(s.city) && Filled(s.state) && Filled(s.postalCode) && Filled(s.country)
  }

  /** The flat shipping charge, 10.00. */
  const ShippingCents: int := 1000

  /** `(subtotal + shipping_cost) * Decimal('0.10')`, exact, in cents. */
  function Tax(subtotal: int): real {
    (subtotal + ShippingCents) as real * 0.10
  }

  /** `subtotal + shipping_cost + tax`. */
  function Total(subtotal: int): real {
    subtotal as real + ShippingCents as real + Tax(subtotal)
  }

  /** The total is the subtotal plus shipping, grossed up by ten percent. */
  lemma TotalIsElevenTenths(subtotal: int)
    ensures Total(subtotal) == 1.1 * (subtotal + ShippingCents) as real
    ensures subtotal >= 0 ==> Tax(subtotal) >= 100.0 && Total(subtotal) >= 1100.0
  {
  }

  /** The order row the confirmation creates. */
  function PlacedOrder(id: string, u: UserId, ship: Shipping, subtotal: int): Order {
    Order(id, u, ship, subtotal, ShippingCents, Tax(subtotal), DefaultDiscount, Total(subtotal),
      DefaultOrderStatus, DefaultPaymentStatus)
  }

  /** The item one cart line becomes: a snapshot of the product's name and price. */
  function ItemFor(l: CartLine, products: map<ProductId, Product>, id: string): OrderItem
    requires l.product in products
  {
    var p := products[l.product];
    OrderItem(id, Some(l.product), AssignUserForeignKey(ItemArtisan(p)), p.name, p.price, l.quantity,
      p.price * l.quantity, DefaultItemStatus)
  }

  /** One item per line, in the cart's order. */
  function Snapshot(lines: seq<CartLine>, products: map<ProductId, Product>, id: string): (items: seq<OrderItem>)
    requires Known(lines, products)
    ensures |items| == |lines|
  {
    if lines == [] then []
    else Snapshot(lines[..|lines| - 1], products, id) + [ItemFor(lines[|lines| - 1], products, id)]
  }

  function ItemSubtotals(items: seq<OrderItem>): int {
    if items == [] then 0 else ItemSubtotals(items[..|items| - 1]) + items[|items| - 1].subtotal
  }

  lemma {:induction false} SnapshotAt(lines: seq<CartLine>, products: map<ProductId, Product>, id: string)
    requires Known(lines, products)
    ensures forall i :: 0 <= i < |lines| ==> Snapshot(lines, products, id)[i] == ItemFor(lines[i], products, id)
    decreases |lines|
  {
    if lines != [] {
      var init := lines[..|lines| - 1];
      SnapshotAt(init, products, id);
      var s := Snapshot(lines, products, id);
      forall i | 0 <= i < |lines|
        ensures s[i] == ItemFor(lines[i], products, id)
      {
        if i < |init| {
          assert s[i] == Snapshot(init, products, id)[i] && lines[i] == init[i];
        }
      }
    }
  }

  /**
   * Every item snapshots its line: same product, quantity, name and price as the product had,
   * subtotal price times quantity, the product's artisan user, and the new order's id.
   */
  lemma SnapshotItems(lines: seq<CartLine>, products: map<ProductId, Product>, id: string)
    requires Known(lines, products)
    ensures forall i :: 0 <= i < |lines| ==>
      var it := Snapshot(lines, products, id)[i];
      var p := products[lines[i].product];
      && it.order == id && it.product == Some(lines[i].product) && it.quantity == lines[i].quantity
      && it.productName == p.name && it.productPrice == p.price
      && it.subtotal == it.productPrice * it.quantity && it.artisan == Some(p.artisanUser)
  {
    SnapshotAt(lines, products, id);
  }

  /** Items made from a well-formed cart meet OrderItem's declared quantity >= 1 and start pending. */
  lemma SnapshotQuantitiesPositive(lines: seq<CartLine>, products: map<ProductId, Product>, id: string)
    requires WellFormed(lines, products)
    ensures forall i :: 0 <= i < |lines| ==>
      Snapshot(lines, products, id)[i].quantity >= 1 && Snapshot(lines, products, id)[i].status == ItemPending
  {
    SnapshotItems(lines, products, id);
    SnapshotAt(lines, products, id);
  }

  /** The order's subtotal is the sum of its items' subtotals. */
  lemma {:induction false} ItemSubtotalsSumToOrder(lines: seq<CartLine>, products: map<ProductId, Product>, id: string)
    requires Known(lines, products)
    ensures ItemSubtotals(Snapshot(lines, products, id)) == TotalPrice(lines, products)
    decreases |lines|
  {
    if lines != [] {
      var init := lines[..|lines| - 1];
      ItemSubtotalsSumToOrder(init, products, id);
      var s := Snapshot(lines, products, id);
      assert s[..|s| - 1] == Snapshot(init, products, id);
    }
  }

  /**
   * The products after the stock loop. Each line saves the product instance it loaded, with
   * its stock less the line's quantity.
   */
  function Decremented(products: map<ProductId, Product>, lines: seq<CartLine>): map<ProductId, Product> {
    if lines == [] then products
    else
      var prev := Decremented(products, lines[..|lines| - 1]);
      var l := lines[|lines| - 1];
      if l.product in products then prev[l.product := products[l.product].(stock := products[l.product].stock - l.quantity)]
      else prev
  }

  /**
   * With one line per product, each product's stock drops by exactly the quantity the cart held
   * of it, with no floor; nothing else about any product changes, and no product appears or
   * disappears.
   */
  lemma {:induction false} DecrementedStock(products: map<ProductId, Product>, lines: seq<CartLine>)
    requires OneLinePerProduct(lines)
    ensures Decremented(products, lines).Keys == products.Keys
    ensures forall pid :: pid in products ==>
      Decremented(products, lines)[pid] == products[pid].(stock := products[pid].stock - QuantityOf(lines, pid))
    decreases |lines|
  {
    if lines != [] {
      var init := lines[..|lines| - 1];
      var l := lines[|lines| - 1];
      DecrementedStock(products, init);
      forall pid | pid in products
        ensures Decremented(products, lines)[pid] == products[pid].(stock := products[pid].stock - QuantityOf(lines, pid))
      {
        QuantityOfLine(init, pid);
        assert l.product == pid ==> FindLine(init, pid).None?;
      }
    }
  }

  /** Nothing stops the stock from going below zero: one unit left and two in the cart leave -1. */
  lemma StockCanGoNegative(p: Product)
    requires p.id == 1 && p.stock == 1
    ensures Decremented(map[1 := p], [CartLine(1, 2)])[1].stock == -1
  {
    assert [CartLine(1, 2)][..0] == [];
  }

  /** `checkout_view`; `post` is None for a GET. Missing form fields arrive as empty strings. */
  method Checkout(st: Store, req: Requester, post: Option<Shipping>) returns (outcome: OrderOutcome)
    requires st.Valid()
    modifies st
    ensures st.Valid()
    ensures outcome == if req.Anonymous? then Redirected(ToSignin)
      else if CartOf(old(st.carts), req.user.id) == [] then EmptyCart
      else if post.None? then ShowCheckout
      else if !AllShippingFilled(post.value) then IncompleteShipping
      else ShippingSaved
    ensures st.shippingSessions == if outcome == ShippingSaved
      then old(st.shippingSessions)[req.user.id := post.value]
      else old(st.shippingSessions)
    ensures st.products == old(st.products) && st.carts == old(st.carts)
    ensures st.orders == old(st.orders) && st.orderItems == old(st.orderItems) && st.nextProductId == old(st.nextProductId)
  {
    if req.Anonymous? {
      return Redirected(ToSignin);
    }
    var u := req.user.id;
    if u !in st.carts {
      return EmptyCart;
    }
    if st.carts[u] == [] {
      return EmptyCart;
    }
    if post.None? {
      return ShowCheckout;
    }
    if !AllShippingFilled(post.value) {
      return IncompleteShipping;
    }
    st.shippingSessions := st.shippingSessions[u := post.value];
    outcome := ShippingSaved;
  }

  /** Which way `order_confirm_view` goes, before it changes anything. */
  function ConfirmDecision(st_carts: map<UserId, seq<CartLine>>, sessions: map<UserId, Shipping>,
                           orders: seq<Order>, req: Requester, isPost: bool, hex8: string): OrderOutcome
    requires IsHex8(hex8)
  {
    if req.Anonymous? then Redirected(ToSignin)
    else if req.user.id !in sessions then NeedShipping
    else if CartOf(st_carts, req.user.id) == [] then EmptyCart
    else if !isPost then ShowConfirmation
    else if HasOrderId(orders, FormatOrderId(hex8)) then DuplicateOrderId
    else Placed
  }

  /** The first loop of the confirmation: `subtotal += item.product.price * item.quantity`. */
  method SumLines(lines: seq<CartLine>, products: map<ProductId, Product>) returns (subtotal: int)
    requires Known(lines, products)
    ensures subtotal == TotalPrice(lines, products)
  {
    subtotal := 0;
    var i := 0;
    while i < |lines|
      invariant 0 <= i <= |lines|
      invariant subtotal == TotalPrice(lines[..i], products)
    {
      assert lines[..i + 1][..i] == lines[..i];
      subtotal := subtotal + products[lines[i].product].price * lines[i].quantity;
      i := i + 1;
    }
    assert lines[..|lines|] == lines;
  }

  /**
   * The second loop of the confirmation: one item created and saved per line, and the line's
   * product saved with its stock reduced by the line's quantity.
   */
  method RecordItems(st: Store, lines: seq<CartLine>, products: map<ProductId, Product>, id: string)
    requires Known(lines, products) && st.products == products
    modifies st
    ensures st.orderItems == old(st.orderItems) + Snapshot(lines, products, id)
    ensures st.products == Decremented(products, lines)
    ensures st.orders == old(st.orders) && st.carts == old(st.carts)
    ensures st.shippingSessions == old(st.shippingSessions) && st.nextProductId == old(st.nextProductId)
  {
    var i := 0;
    while i < |lines|
      invariant 0 <= i <= |lines|
      invariant st.orderItems == old(st.orderItems) + Snapshot(lines[..i], products, id)
      invariant st.products == Decremented(products, lines[..i])
      invariant st.orders == old(st.orders) && st.carts == old(st.carts)
      invariant st.shippingSessions == old(st.shippingSessions) && st.nextProductId == old(st.nextProductId)
    {
      assert lines[..i + 1][..i] == lines[..i];
      var line := lines[i];
      var p := products[line.product];
      var item := new OrderItemRecord(OrderItem(id, Some(line.product), AssignUserForeignKey(ItemArtisan(p)),
        p.name, p.price, line.quantity, p.price * line.quantity, DefaultItemStatus));
      item.Save();
      st.orderItems := st.orderItems + [item.row];
      st.products := st.products[line.product := p.(stock := p.stock - line.quantity)];
      i := i + 1;
    }
    assert lines[..|lines|] == lines;
  }

  /**
   * The store after a placed order is still valid: product ids stay below the next id, every
   * cart (the emptied one included) stays well-formed, and order ids stay unique.
   */
  lemma PlacedKeepsValid(
    products: map<ProductId, Product>, carts: map<UserId, seq<CartLine>>, orders: seq<Order>,
    next: ProductId, u: UserId, o: Order)
    requires forall pid :: pid in products ==> products[pid].id == pid && pid < next
    requires forall v :: v in carts ==> WellFormed(carts[v], products)
    requires OrderIdsUnique(orders) && !HasOrderId(orders, o.orderId) && u in carts
    ensures Decremented(products, carts[u]).Keys == products.Keys
    ensures Consistent(Decremented(products, carts[u]), carts[u := []], orders + [o], next)
  {
    var after := Decremented(products, carts[u]);
    var emptied := carts[u := []];
    DecrementedStock(products, carts[u]);
    forall v | v in emptied
      ensures WellFormed(emptied[v], after)
    {
      if v != u {
        WellFormedMoreProducts(carts[v], products, after);
      }
    }
  }

  /**
   * `order_confirm_view` as corrected: each item records the user behind the product's artisan
   * profile (see OrphanOrderAsWritten for the view as written). `hex8` stands for the random
   * digits `uuid4` supplies. An id that collides with an existing order makes the insert fail
   * before anything is written.
   */
  method ConfirmOrder(st: Store, req: Requester, isPost: bool, hex8: string) returns (outcome: OrderOutcome)
    requires st.Valid() && IsHex8(hex8)
    modifies st
    ensures st.Valid()
    ensures outcome == ConfirmDecision(old(st.carts), old(st.shippingSessions), old(st.orders), req, isPost, hex8)
    ensures outcome != Placed ==>
      && st.products == old(st.products) && st.carts == old(st.carts) && st.orders == old(st.orders)
      && st.orderItems == old(st.orderItems) && st.shippingSessions == old(st.shippingSessions)
    ensures outcome == Placed ==>
      var u := req.user.id;
      var lines := old(st.carts)[u];
      var id := FormatOrderId(hex8);
      && Known(lines, old(st.products))
      && st.orders == old(st.orders) + [PlacedOrder(id, u, old(st.shippingSessions)[u], TotalPrice(lines, old(st.products)))]
      && st.orderItems == old(st.orderItems) + Snapshot(lines, old(st.products), id)
      && st.products == Decremented(old(st.products), lines)
      && st.carts == old(st.carts)[u := []]
      && st.shippingSessions == old(st.shippingSessions) - {u}
    ensures st.nextProductId == old(st.nextProductId)
  {
    if req.Anonymous? {
      return Redirected(ToSignin);
    }
    var u := req.user.id;
    if u !in st.shippingSessions {
      return NeedShipping;
    }
    if u !in st.carts || st.carts[u] == [] {
      return EmptyCart;
    }
    if !isPost {
      return ShowConfirmation;
    }
    var placed := PlaceOrder(st, u, hex8);
    outcome := if placed then Placed else DuplicateOrderId;
  }

  /**
   * The POST branch of `order_confirm_view` as corrected, once the shipping details and a cart
   * are there: the totals, the order row, one item per line, and then the cart and the session
   * cleared.
   */
  method PlaceOrder(st: Store, u: UserId, hex8: string) returns (placed: bool)
    requires st.Valid() && IsHex8(hex8)
    requires u in st.shippingSessions && u in st.carts
    modifies st
    ensures st.Valid()
    ensures placed <==> !HasOrderId(old(st.orders), FormatOrderId(hex8))
    ensures !placed ==>
      && st.products == old(st.products) && st.carts == old(st.carts) && st.orders == old(st.orders)
      && st.orderItems == old(st.orderItems) && st.shippingSessions == old(st.shippingSessions)
    ensures placed ==>
      var lines := old(st.carts)[u];
      var id := FormatOrderId(hex8);
      && Known(lines, old(st.products))
      && st.orders == old(st.orders) + [PlacedOrder(id, u, old(st.shippingSessions)[u], TotalPrice(lines, old(st.products)))]
      && st.orderItems == old(st.orderItems) + Snapshot(lines, old(st.products), id)
      && st.products == Decremented(old(st.products), lines)
      && st.carts == old(st.carts)[u := []]
      && st.shippingSessions == old(st.shippingSessions) - {u}
    ensures st.nextProductId == old(st.nextProductId)
  {
    var ship := st.shippingSessions[u];
    var lines := st.carts[u];
    var products := st.products;
    assert WellFormed(lines, products);

    var subtotal := SumLines(lines, products);
    var shippingCost := ShippingCents;
    var tax := (subtotal + shippingCost) as real * 0.10;
    var total := subtotal as real + shippingCost as real + tax;
    var rec := new OrderRecord(Order("", u, ship, subtotal, shippingCost, tax, DefaultDiscount, total,
      DefaultOrderStatus, DefaultPaymentStatus));
    rec.Save(hex8);
    var id := rec.row.orderId;
    assert id == FormatOrderId(hex8);
    assert rec.row == PlacedOrder(id, u, ship, TotalPrice(lines, products));
    if HasOrderId(st.orders, id) {
      return false;
    }
    PlacedKeepsValid(products, st.carts, st.orders, st.nextProductId, u, rec.row);
    st.orders := st.orders + [rec.row];
    RecordItems(st, lines, products, id);
    st.carts := st.carts[u := []];
    st.shippingSessions := st.shippingSessions - {u};
    placed := true;
  }

  /** The tables the confirming POST touches, as plain values. */
  datatype StoreTables = StoreTables(
    products: map<ProductId, Product>,
    carts: map<UserId, seq<CartLine>>,
    orders: seq<Order>,
    orderItems: seq<OrderItem>,
    sessions: map<UserId, Shipping>)

  /**
   * The item loop of the confirmation, front to back, with `artisan` the value handed to each
   * item's `artisan` foreign key. The first assignment that raises ends the view (None), and
   * no item is kept from that run.
   */
  function ItemsWith(lines: seq<CartLine>, products: map<ProductId, Product>, id: string,
                     artisan: Product -> Ref): (r: Option<seq<OrderItem>>)
    requires Known(lines, products)
    ensures r.None? <==> exists i :: 0 <= i < |lines| && AssignUserForeignKey(artisan(products[lines[i].product])).None?
    ensures r.Some? ==> |r.value| == |lines|
    decreases |lines|
  {
    if lines == [] then Some([])
    else
      var p := products[lines[0].product];
      var rest := ItemsWith(lines[1..], products, id, artisan);
      assert forall i :: 1 <= i < |lines| ==> lines[1..][i - 1] == lines[i];
      match AssignUserForeignKey(artisan(p))
      case None => None
      case Some(a) =>
        if rest.None? then None
        else Some([OrderItem(id, Some(lines[0].product), Some(a), p.name, p.price, lines[0].quantity,
          p.price * lines[0].quantity, DefaultItemStatus)] + rest.value)
  }

  /** With `product.artisan`, as written, a non-empty cart never gets past its first item. */
  lemma ItemsAsWrittenRaise(lines: seq<CartLine>, products: map<ProductId, Product>, id: string)
    requires Known(lines, products)
    ensures ItemsWith(lines, products, id, ItemArtisanAsWritten).None? <==> lines != []
  {
    if lines != [] {
      ItemArtisanAsWrittenRaises(products[lines[0].product]);
    }
  }

  /** With the artisan's user, as intended, the loop builds exactly the snapshot of the cart. */
  lemma {:induction false} ItemsCorrectedSnapshot(lines: seq<CartLine>, products: map<ProductId, Product>, id: string)
    requires Known(lines, products)
    ensures ItemsWith(lines, products, id, ItemArtisan) == Some(Snapshot(lines, products, id))
    decreases |lines|
  {
    if lines != [] {
      var rest := lines[1..];
      ItemsCorrectedSnapshot(rest, products, id);
      SnapshotAt(lines, products, id);
      SnapshotAt(rest, products, id);
      ItemArtisanStored(products[lines[0].product]);
      var r := ItemsWith(lines, products, id, ItemArtisan).value;
      var snap := Snapshot(lines, products, id);
      assert r == [ItemFor(lines[0], products, id)] + Snapshot(rest, products, id);
      forall i | 0 <= i < |lines|
        ensures r[i] == snap[i]
      {
        if i > 0 {
          assert lines[i] == rest[i - 1];
        }
      }
      assert |r| == |snap|;
      assert r == snap;
    }
  }

  /**
   * The confirming POST as written, for a signed-in user with shipping details and a cart. The
   * order row is inserted first, outside any transaction; if the item loop raises, that row
   * stays and the view ends there, with stock, cart and session untouched.
   */
  function PlaceAsWritten(s: StoreTables, u: UserId, hex8: string): StoreTables
    requires IsHex8(hex8)
    requires u in s.sessions && u in s.carts && Known(s.carts[u], s.products)
  {
    var lines := s.carts[u];
    var id := FormatOrderId(hex8);
    if HasOrderId(s.orders, id) then s
    else
      var withOrder := s.(orders := s.orders + [PlacedOrder(id, u, s.sessions[u], TotalPrice(lines, s.products))]);
      match ItemsWith(lines, s.products, id, ItemArtisanAsWritten)
      case None => withOrder
      case Some(items) =>
        withOrder.(products := Decremented(s.products, lines), carts := s.carts[u := []],
          orderItems := s.orderItems + items, sessions := s.sessions - {u})
  }

  /**
   * As written, confirming a non-empty cart leaves a pending order with no items behind: only
   * the order row is added, while the corrected view adds one item per line, takes the stock
   * off and empties the cart.
   */
  lemma OrphanOrderAsWritten(s: StoreTables, u: UserId, hex8: string)
    requires IsHex8(hex8)
    requires u in s.sessions && u in s.carts && Known(s.carts[u], s.products) && s.carts[u] != []
    requires !HasOrderId(s.orders, FormatOrderId(hex8))
    ensures var r := PlaceAsWritten(s, u, hex8);
      && |r.orders| == |s.orders| + 1 && r.orders[..|s.orders|] == s.orders
      && r.orders[|s.orders|].orderId == FormatOrderId(hex8)
      && r.orders[|s.orders|].status == Pending && r.orders[|s.orders|].customer == u
      && r.orderItems == s.orderItems && r.products == s.products
      && r.carts == s.carts && r.sessions == s.sessions
    ensures |Snapshot(s.carts[u], s.products, FormatOrderId(hex8))| == |s.carts[u]| > 0
  {
    var id := FormatOrderId(hex8);
    ItemsAsWrittenRaise(s.carts[u], s.products, id);
    var o := PlacedOrder(id, u, s.sessions[u], TotalPrice(s.carts[u], s.products));
    assert PlaceAsWritten(s, u, hex8).orders == s.orders + [o];
    assert (s.orders + [o])[..|s.orders|] == s.orders;
  }
}
