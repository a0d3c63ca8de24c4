/**
 * cart/models.py: a customer's cart is a sequence of lines, at most one per product
 * (`unique_together`), each with a quantity of at least one. The cart's figures are sums over
 * its lines.
 */
module Carts {

  import opened Basics
  import opened Catalog

  /** A CartItem row: which product, and how many. */
  datatype CartLine = CartLine(product: ProductId, quantity: int)

  /** `unique_together = ['cart', 'product']`. */
  predicate OneLinePerProduct(lines: seq<CartLine>) {
    forall i, j :: 0 <= i < j < |lines| ==> lines[i].product != lines[j].product
  }

  /** The declared MinValueValidator(1) on the quantity. */
  predicate QuantitiesPositive(lines: seq<CartLine>) {
    forall i :: 0 <= i < |lines| ==> lines[i].quantity >= 1
  }

  /** Every line points at an existing product (the foreign key, with cascading delete). */
  predicate Known(lines: seq<CartLine>, products: map<ProductId, Product>) {
    forall i :: 0 <= i < |lines| ==> lines[i].product in products
  }

  predicate WellFormed(lines: seq<CartLine>, products: map<ProductId, Product>) {
    OneLinePerProduct(lines) && QuantitiesPositive(lines) && Known(lines, products)
  }

  /**
   * Whether a cart is well-formed depends only on which products exist, not on their other
   * columns, and stays so when products are added.
   */
  lemma WellFormedMoreProducts(lines: seq<CartLine>, p1: map<ProductId, Product>, p2: map<ProductId, Product>)
    requires WellFormed(lines, p1) && p1.Keys <= p2.Keys
    ensures WellFormed(lines, p2)
  {
    assert forall i :: 0 <= i < |lines| ==> lines[i].product in p1.Keys;
  }

  /** Sum of `f` over the lines, the shape of `sum(... for item in self.items.all())`. */
  function Sum(lines: seq<CartLine>, f: CartLine -> int): int {
    if lines == [] then 0 else Sum(lines[..|lines| - 1], f) + f(lines[|lines| - 1])
  }

  lemma {:induction false} SumAppend(lines: seq<CartLine>, more: seq<CartLine>, f: CartLine -> int)
    ensures Sum(lines + more, f) == Sum(lines, f) + Sum(more, f)
    decreases |more|
  {
    if more == [] {
      assert lines + more == lines;
    } else {
      var all := lines + more;
      assert all[..|all| - 1] == lines + more[..|more| - 1];
      SumAppend(lines, more[..|more| - 1], f);
    }
  }

  /** Replacing one line changes the sum by the difference of the two lines' terms. */
  lemma {:induction false} SumUpdate(lines: seq<CartLine>, i: nat, l: CartLine, f: CartLine -> int)
    requires i < |lines|
    ensures Sum(lines[i := l], f) == Sum(lines, f) - f(lines[i]) + f(l)
    decreases |lines|
  {
    var n := |lines| - 1;
    if i < n {
      assert lines[i := l][..n] == lines[..n][i := l];
      SumUpdate(lines[..n], i, l, f);
    } else {
      assert lines[i := l][..n] == lines[..n];
    }
  }

  /** `CartItem.get_total_price()`: price times quantity (0 for a dangling line, which a well-formed cart has none of). */
  function LineTotal(l: CartLine, products: map<ProductId, Product>): int {
    if l.product in products then products[l.product].price * l.quantity else 0
  }

  function PriceOf(products: map<ProductId, Product>): CartLine -> int {
    (l: CartLine) => LineTotal(l, products)
  }

  function CountOf(): CartLine -> int {
    (l: CartLine) => l.quantity
  }

  function QuantityTerm(pid: ProductId): CartLine -> int {
    (l: CartLine) => if l.product == pid then l.quantity else 0
  }

  /** `Cart.get_total_price()`. */
  function TotalPrice(lines: seq<CartLine>, products: map<ProductId, Product>): int {
    Sum(lines, PriceOf(products))
  }

  /** `Cart.get_item_count()`. */
  function ItemCount(lines: seq<CartLine>): int {
    Sum(lines, CountOf())
  }

  /** `Cart.get_unique_product_count()`: the number of lines. */
  function UniqueProductCount(lines: seq<CartLine>): nat {
    |lines|
  }

  /** How many of product `pid` the cart holds. */
  function QuantityOf(lines: seq<CartLine>, pid: ProductId): int {
    Sum(lines, QuantityTerm(pid))
  }

  /** An empty cart (for instance after `clear()`) has every figure 0. */
  lemma EmptyCartFigures(products: map<ProductId, Product>, pid: ProductId)
    ensures TotalPrice([], products) == 0 && ItemCount([]) == 0 && UniqueProductCount([]) == 0
    ensures QuantityOf([], pid) == 0
  {
  }

  /** With every quantity at least one, there are at least as many items as lines. */
  lemma {:induction false} ItemCountAtLeastUnique(lines: seq<CartLine>)
    requires QuantitiesPositive(lines)
    ensures ItemCount(lines) >= UniqueProductCount(lines)
    decreases |lines|
  {
    if lines != [] {
      ItemCountAtLeastUnique(lines[..|lines| - 1]);
    }
  }

  /** The line for product `pid`, if the cart has one. */
  function FindLine(lines: seq<CartLine>, pid: ProductId): (r: Option<nat>)
    ensures r.Some? ==> r.value < |lines| && lines[r.value].product == pid
    ensures r.None? <==> forall i :: 0 <= i < |lines| ==> lines[i].product != pid
  {
    if lines == [] then None
    else if lines[|lines| - 1].product == pid then Some(|lines| - 1)
    else FindLine(lines[..|lines| - 1], pid)
  }

  /** In a cart with one line per product, the quantity of `pid` is that line's quantity, or 0. */
  lemma {:induction false} QuantityOfLine(lines: seq<CartLine>, pid: ProductId)
    requires OneLinePerProduct(lines)
    ensures QuantityOf(lines, pid) == if FindLine(lines, pid).Some? then lines[FindLine(lines, pid).value].quantity else 0
    decreases |lines|
  {
    if lines != [] {
      var init := lines[..|lines| - 1];
      QuantityOfLine(init, pid);
      if lines[|lines| - 1].product == pid {
        assert FindLine(init, pid).None?;
      }
    }
  }

  /**
   * `get_or_create` the line, then `quantity += q` on an existing line or `quantity = q` on a new one.
   */
  function AddLine(lines: seq<CartLine>, pid: ProductId, q: int): seq<CartLine> {
    match FindLine(lines, pid)
    case Some(i) => lines[i := CartLine(pid, lines[i].quantity + q)]
    case None => lines + [CartLine(pid, q)]
  }

  /** `CartItem.objects.filter(cart=cart, product=product).delete()`. */
  function RemoveLine(lines: seq<CartLine>, pid: ProductId): (r: seq<CartLine>)
    ensures |r| <= |lines|
  {
    if lines == [] then []
    else
      var init := RemoveLine(lines[..|lines| - 1], pid);
      if lines[|lines| - 1].product == pid then init else init + [lines[|lines| - 1]]
  }

  /** `cart_item.quantity = q` on the existing line for `pid`. */
  function SetQuantity(lines: seq<CartLine>, pid: ProductId, q: int): seq<CartLine>
    requires FindLine(lines, pid).Some?
  {
    var i := FindLine(lines, pid).value;
    lines[i := CartLine(pid, q)]
  }

  /** Adding a positive quantity of a known product keeps the cart well-formed. */
  lemma AddLineWellFormed(lines: seq<CartLine>, products: map<ProductId, Product>, pid: ProductId, q: int)
    requires WellFormed(lines, products) && pid in products && q >= 1
    ensures WellFormed(AddLine(lines, pid, q), products)
  {
    if FindLine(lines, pid).None? {
      var r := AddLine(lines, pid, q);
      assert forall i :: 0 <= i < |lines| ==> r[i] == lines[i];
    }
  }

  /**
   * Adding `q` of `pid` raises that product's quantity by `q`, whether it merges into the
   * existing line or makes a new one, and leaves every other product's quantity alone.
   */
  lemma AddLineQuantities(lines: seq<CartLine>, pid: ProductId, q: int, other: ProductId)
    ensures QuantityOf(AddLine(lines, pid, q), pid) == QuantityOf(lines, pid) + q
    ensures other != pid ==> QuantityOf(AddLine(lines, pid, q), other) == QuantityOf(lines, other)
  {
    match FindLine(lines, pid)
    case Some(i) =>
      var m := CartLine(pid, lines[i].quantity + q);
      SumUpdate(lines, i, m, QuantityTerm(pid));
      SumUpdate(lines, i, m, QuantityTerm(other));
    case None =>
      SumAppend(lines, [CartLine(pid, q)], QuantityTerm(pid));
      SumAppend(lines, [CartLine(pid, q)], QuantityTerm(other));
  }

  /**
   * Adding `q` of `pid` adds `q` items and `q` times the product's price to the cart's figures;
   * the line count grows by one only when the product was not in the cart yet.
   */
  lemma AddLineFigures(lines: seq<CartLine>, products: map<ProductId, Product>, pid: ProductId, q: int)
    requires pid in products
    ensures ItemCount(AddLine(lines, pid, q)) == ItemCount(lines) + q
    ensures TotalPrice(AddLine(lines, pid, q), products) == TotalPrice(lines, products) + products[pid].price * q
    ensures UniqueProductCount(AddLine(lines, pid, q)) == UniqueProductCount(lines) + (if FindLine(lines, pid).Some? then 0 else 1)
  {
    match FindLine(lines, pid)
    case Some(i) =>
      var m := CartLine(pid, lines[i].quantity + q);
      SumUpdate(lines, i, m, CountOf());
      SumUpdate(lines, i, m, PriceOf(products));
      assert LineTotal(m, products) == LineTotal(lines[i], products) + products[pid].price * q;
    case None =>
      SumAppend(lines, [CartLine(pid, q)], CountOf());
      SumAppend(lines, [CartLine(pid, q)], PriceOf(products));
  }

  /** The lines RemoveLine keeps are exactly the other products' lines, in order. */
  lemma {:induction false} RemoveLineKeeps(lines: seq<CartLine>, pid: ProductId)
    ensures forall i :: 0 <= i < |RemoveLine(lines, pid)| ==> RemoveLine(lines, pid)[i].product != pid
    ensures forall i :: 0 <= i < |RemoveLine(lines, pid)| ==> RemoveLine(lines, pid)[i] in lines
    ensures forall i :: 0 <= i < |lines| && lines[i].product != pid ==> lines[i] in RemoveLine(lines, pid)
    ensures FindLine(lines, pid).None? ==> RemoveLine(lines, pid) == lines
    decreases |lines|
  {
    if lines != [] {
      var init, last := lines[..|lines| - 1], lines[|lines| - 1];
      RemoveLineKeeps(init, pid);
      var r0, r := RemoveLine(init, pid), RemoveLine(lines, pid);
      assert r == if last.product == pid then r0 else r0 + [last];
      assert lines == init + [last];
      forall i | 0 <= i < |lines| && lines[i].product != pid
        ensures lines[i] in r
      {
        if i < |init| {
          assert lines[i] == init[i] && init[i] in r0;
        }
      }
    }
  }

  /** Appending a line for a product the cart does not hold yet keeps the cart well-formed. */
  lemma AppendFreshWellFormed(r: seq<CartLine>, last: CartLine, products: map<ProductId, Product>)
    requires WellFormed(r, products) && last.product in products && last.quantity >= 1
    requires forall i :: 0 <= i < |r| ==> r[i].product != last.product
    ensures WellFormed(r + [last], products)
  {
    var s := r + [last];
    forall i, j | 0 <= i < j < |s|
      ensures s[i].product != s[j].product
    {
      assert s[i] == r[i];
    }
  }

  /** Removing lines never brings in a product that none of the lines had. */
  lemma {:induction false} RemoveLineAvoids(lines: seq<CartLine>, pid: ProductId, x: ProductId)
    requires forall i :: 0 <= i < |lines| ==> lines[i].product != x
    ensures forall i :: 0 <= i < |RemoveLine(lines, pid)| ==> RemoveLine(lines, pid)[i].product != x
    decreases |lines|
  {
    if lines != [] {
      var init := lines[..|lines| - 1];
      assert forall i :: 0 <= i < |init| ==> init[i] == lines[i];
      RemoveLineAvoids(init, pid, x);
    }
  }

  /** Removing a product's lines keeps the cart well-formed. */
  lemma {:induction false} RemoveLineWellFormed(lines: seq<CartLine>, products: map<ProductId, Product>, pid: ProductId)
    requires WellFormed(lines, products)
    ensures WellFormed(RemoveLine(lines, pid), products)
    decreases |lines|
  {
    if lines != [] {
      var init := lines[..|lines| - 1];
      var last := lines[|lines| - 1];
      assert forall i :: 0 <= i < |init| ==> init[i] == lines[i];
      RemoveLineWellFormed(init, products, pid);
      if last.product != pid {
        assert forall i :: 0 <= i < |init| ==> init[i].product != last.product by {
          forall i | 0 <= i < |init|
            ensures init[i].product != last.product
          {
            assert init[i] == lines[i];
          }
        }
        RemoveLineAvoids(init, pid, last.product);
        AppendFreshWellFormed(RemoveLine(init, pid), last, products);
      }
    }
  }


  /** Removing `pid` leaves none of it, and every other product's quantity as it was. */
  lemma {:induction false} RemoveLineQuantities(lines: seq<CartLine>, pid: ProductId, other: ProductId)
    ensures QuantityOf(RemoveLine(lines, pid), pid) == 0
    ensures other != pid ==> QuantityOf(RemoveLine(lines, pid), other) == QuantityOf(lines, other)
    decreases |lines|
  {
    if lines != [] {
      var init := lines[..|lines| - 1];
      var last := lines[|lines| - 1];
      RemoveLineQuantities(init, pid, other);
      if last.product != pid {
        SumAppend(RemoveLine(init, pid), [last], QuantityTerm(pid));
        SumAppend(RemoveLine(init, pid), [last], QuantityTerm(other));
      }
    }
  }

  /** Setting the quantity of an existing line to `q` makes that product's quantity `q`. */
  lemma SetQuantityEffect(lines: seq<CartLine>, products: map<ProductId, Product>, pid: ProductId, q: int, other: ProductId)
    requires WellFormed(lines, products) && FindLine(lines, pid).Some? && q >= 1
    ensures WellFormed(SetQuantity(lines, pid, q), products)
    ensures QuantityOf(SetQuantity(lines, pid, q), pid) == q
    ensures other != pid ==> QuantityOf(SetQuantity(lines, pid, q), other) == QuantityOf(lines, other)
    ensures UniqueProductCount(SetQuantity(lines, pid, q)) == UniqueProductCount(lines)
  {
    var i := FindLine(lines, pid).value;
    var l := CartLine(pid, q);
    QuantityOfLine(lines, pid);
    SumUpdate(lines, i, l, QuantityTerm(pid));
    SumUpdate(lines, i, l, QuantityTerm(other));
  }
}
