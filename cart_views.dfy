/**
 * cart/views.py: adding to, removing from, updating and clearing a cart. Each view first passes
 * the sign-in check; a refused request leaves the store as it was.
 */
module CartViews {

  import opened Basics
  import opened Catalog
  import opened Carts
  import opened Accounts
  import opened AccessDecorators
  import opened Shop

  /** What a view ends with: a redirect by the decorator, an error, or the change it made. */
  datatype CartOutcome =
    | Redirected(gate: Gate)
    | ProductNotFound
    | OutOfStock
    | InvalidQuantity
    | NotEnoughStock
    | NoCart
    | LineNotFound
    | Added
    | Removed
    | Updated
    | Cleared

  /** The checks of `add_to_cart_view`, in the order it makes them. */
  function AddCheck(products: map<ProductId, Product>, pid: ProductId, quantity: int): CartOutcome {
    if pid !in products || products[pid].status != Active then ProductNotFound
    else if products[pid].stock <= 0 then OutOfStock
    else if quantity <= 0 then InvalidQuantity
    else if quantity > products[pid].stock then NotEnoughStock
    else Added
  }

  /**
   * An add goes through exactly when the product exists, is active, and has stock for the
   * requested positive quantity; the first failed check names the error.
   */
  lemma AddCheckAcceptsIff(products: map<ProductId, Product>, pid: ProductId, quantity: int)
    ensures AddCheck(products, pid, quantity) == Added <==>
      pid in products && products[pid].status == Active && 0 < quantity <= products[pid].stock
    ensures pid !in products || products[pid].status != Active ==> AddCheck(products, pid, quantity) == ProductNotFound
    ensures pid in products && products[pid].status == Active && products[pid].stock <= 0 ==>
      AddCheck(products, pid, quantity) == OutOfStock
    ensures pid in products && products[pid].status == Active && products[pid].stock > 0 && quantity <= 0 ==>
      AddCheck(products, pid, quantity) == InvalidQuantity
  {
  }

  /** For an active product, the add is refused as out of stock exactly when `in_stock()` is false. */
  lemma OutOfStockIffNotInStock(products: map<ProductId, Product>, pid: ProductId, quantity: int)
    requires pid in products && products[pid].status == Active
    ensures AddCheck(products, pid, quantity) == OutOfStock <==> !InStock(products[pid])
  {
  }

  /** `add_to_cart_view`. */
  method AddToCart(st: Store, req: Requester, pid: ProductId, quantity: int) returns (outcome: CartOutcome)
    requires st.Valid()
    modifies st
    ensures st.Valid()
    ensures outcome == if req.Anonymous? then Redirected(ToSignin) else AddCheck(old(st.products), pid, quantity)
    ensures st.carts == if outcome == Added
      then old(st.carts)[req.user.id := AddLine(CartOf(old(st.carts), req.user.id), pid, quantity)]
      else old(st.carts)
    ensures st.products == old(st.products) && st.orders == old(st.orders) && st.orderItems == old(st.orderItems)
    ensures st.shippingSessions == old(st.shippingSessions) && st.nextProductId == old(st.nextProductId)
  {
    if req.Anonymous? {
      return Redirected(ToSignin);
    }
    var u := req.user.id;
    if pid !in st.products || st.products[pid].status != Active {
      return ProductNotFound;
    }
    var product := st.products[pid];
    if product.stock <= 0 {
      return OutOfStock;
    }
    if quantity <= 0 {
      return InvalidQuantity;
    }
    if quantity > product.stock {
      return NotEnoughStock;
    }
    var lines := CartOf(st.carts, u);
    match FindLine(lines, pid) {
      case Some(i) =>
        lines := lines[i := CartLine(pid, lines[i].quantity + quantity)];
      case None =>
        lines := lines + [CartLine(pid, quantity)];
    }
    AddLineWellFormed(CartOf(st.carts, u), st.products, pid, quantity);
    st.carts := st.carts[u := lines];
    outcome := Added;
  }

  /**
   * A merge is not checked against stock as a whole: a cart already holding all five units in
   * stock accepts five more.
   */
  lemma MergeNotRechecked(p: Product)
    requires p.id == 1 && p.status == Active && p.stock == 5
    ensures var products := map[1 := p];
      var lines := [CartLine(1, 5)];
      && AddCheck(products, 1, 5) == Added
      && QuantityOf(AddLine(lines, 1, 5), 1) == 10 > p.stock
  {
    var lines := [CartLine(1, 5)];
    AddLineQuantities(lines, 1, 5, 1);
    assert QuantityOf(lines, 1) == 5 by {
      assert lines[..0] == [];
    }
  }

  /** `remove_from_cart_view`: a missing cart raises; a missing product changes nothing. */
  method RemoveFromCart(st: Store, req: Requester, pid: ProductId) returns (outcome: CartOutcome)
    requires st.Valid()
    modifies st
    ensures st.Valid()
    ensures outcome == if req.Anonymous? then Redirected(ToSignin)
      else if req.user.id !in old(st.carts) then NoCart
      else if pid !in old(st.products) then ProductNotFound
      else Removed
    ensures st.carts == if outcome == Removed
      then old(st.carts)[req.user.id := RemoveLine(old(st.carts)[req.user.id], pid)]
      else old(st.carts)
    ensures st.products == old(st.products) && st.orders == old(st.orders) && st.orderItems == old(st.orderItems)
    ensures st.shippingSessions == old(st.shippingSessions) && st.nextProductId == old(st.nextProductId)
  {
    if req.Anonymous? {
      return Redirected(ToSignin);
    }
    var u := req.user.id;
    if u !in st.carts {
      return NoCart;
    }
    if pid !in st.products {
      return ProductNotFound;
    }
    RemoveLineWellFormed(st.carts[u], st.products, pid);
    st.carts := st.carts[u := RemoveLine(st.carts[u], pid)];
    outcome := Removed;
  }

  /**
   * `update_cart_item_view`: a quantity of zero or less deletes the line, one above the stock
   * changes nothing, and any other sets the line's quantity, provided the line exists.
   */
  method UpdateCartItem(st: Store, req: Requester, pid: ProductId, quantity: int) returns (outcome: CartOutcome)
    requires st.Valid()
    modifies st
    ensures st.Valid()
    ensures outcome == if req.Anonymous? then Redirected(ToSignin)
      else if req.user.id !in old(st.carts) then NoCart
      else if pid !in old(st.products) then ProductNotFound
      else if quantity <= 0 then Removed
      else if quantity > old(st.products)[pid].stock then NotEnoughStock
      else if FindLine(old(st.carts)[req.user.id], pid).None? then LineNotFound
      else Updated
    ensures outcome == Removed ==> st.carts == old(st.carts)[req.user.id := RemoveLine(old(st.carts)[req.user.id], pid)]
    ensures outcome == Updated ==> st.carts == old(st.carts)[req.user.id := SetQuantity(old(st.carts)[req.user.id], pid, quantity)]
    ensures outcome != Removed && outcome != Updated ==> st.carts == old(st.carts)
    ensures st.products == old(st.products) && st.orders == old(st.orders) && st.orderItems == old(st.orderItems)
    ensures st.shippingSessions == old(st.shippingSessions) && st.nextProductId == old(st.nextProductId)
  {
    if req.Anonymous? {
      return Redirected(ToSignin);
    }
    var u := req.user.id;
    if u !in st.carts {
      return NoCart;
    }
    if pid !in st.products {
      return ProductNotFound;
    }
    var lines := st.carts[u];
    if quantity <= 0 {
      RemoveLineWellFormed(lines, st.products, pid);
      st.carts := st.carts[u := RemoveLine(lines, pid)];
      return Removed;
    } else if quantity > st.products[pid].stock {
      return NotEnoughStock;
    }
    match FindLine(lines, pid)
    case None =>
      outcome := LineNotFound;
    case Some(i) =>
      SetQuantityEffect(lines, st.products, pid, quantity, pid);
      st.carts := st.carts[u := lines[i := CartLine(pid, quantity)]];
      outcome := Updated;
  }

  /** `clear_cart_view`: a missing cart raises; otherwise every line goes. */
  method ClearCartView(st: Store, req: Requester) returns (outcome: CartOutcome)
    requires st.Valid()
    modifies st
    ensures st.Valid()
    ensures outcome == if req.Anonymous? then Redirected(ToSignin)
      else if req.user.id !in old(st.carts) then NoCart
      else Cleared
    ensures st.carts == if outcome == Cleared then old(st.carts)[req.user.id := []] else old(st.carts)
    ensures st.products == old(st.products) && st.orders == old(st.orders) && st.orderItems == old(st.orderItems)
    ensures st.shippingSessions == old(st.shippingSessions) && st.nextProductId == old(st.nextProductId)
  {
    if req.Anonymous? {
      return Redirected(ToSignin);
    }
    var u := req.user.id;
    if u !in st.carts {
      return NoCart;
    }
    st.ClearCart(u);
    outcome := Cleared;
  }
}
