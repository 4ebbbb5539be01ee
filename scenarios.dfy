/** Clients of the terminal that play through the storefront's documented
    behaviours using nothing but the operations' contracts. */
module Scenarios {
  import opened Models
  import opened CartTable
  import opened CartStore
  import opened Storefront

  /** Two products: #1 at 10.00 and #2 at 5.50. */
  function TwoProducts(stock1: int, stock2: int): (catalog: map<int, Product>)
    ensures CatalogKeyed(catalog)
    ensures stock1 >= 0 && stock2 >= 0 ==> StockNonNegative(catalog)
  {
    map[1 := Product(1, "Desk Lamp", None, 1000, stock1, None, 0),
        2 := Product(2, "Mouse", None, 550, stock2, None, 0)]
  }

  /** Both products of that catalogue exist with ten units each. */
  lemma TenEach()
    ensures var catalog := TwoProducts(10, 10);
      && 1 in catalog && 2 in catalog && catalog[1].stock == 10 && catalog[2].stock == 10
      && StockNonNegative(catalog)
  {
  }

  /** Adding `a` and then `b` units of one product leaves one line of `a + b`
      units, even when that is more than the stock. */
  method AddTwice(session: string, a: int, b: int) returns (lines: seq<CartItem>)
    requires 0 < a <= 10 && 0 < b <= 10
    ensures lines == [CartItem(1, 1, a + b, session)]
  {
    TenEach();
    var t := new ECommerceTerminal(TwoProducts(10, 10));
    var first := t.AddToCart(session, 1, a);
    assert t.cart == [CartItem(1, 1, a, session)];
    assert LineIndex(t.cart, session, 1) == Some(0);
    var second := t.AddToCart(session, 1, b);
    lines := t.cart;
  }

  /** Another session can neither update nor remove a line it does not own,
      and the owner's line is left as it was. */
  method OtherSessionLocked(owner: string, other: string, quantity: int)
    returns (updated: Outcome, removed: Outcome, lines: seq<CartItem>)
    requires owner != other && 0 < quantity <= 10
    ensures updated == Failed(ItemNotFound) && removed == Failed(ItemNotFound)
    ensures lines == [CartItem(1, 1, 3, owner)]
  {
    TenEach();
    var t := new ECommerceTerminal(TwoProducts(10, 10));
    var added := t.AddToCart(owner, 1, 3);
    assert t.cart == [CartItem(1, 1, 3, owner)];
    assert OwnedIndex(t.cart, other, 1) == None;
    updated := t.UpdateCartItem(other, 1, quantity);
    removed := t.RemoveCartItem(other, 1);
    lines := t.cart;
  }

  /** Checking out an empty cart is refused and records no order. */
  method EmptyCartRefused(session: string, name: string, confirm: string, now: int)
    returns (r: CheckoutResult, orders: seq<Order>)
    ensures r == Rejected(EmptyCart) && orders == []
  {
    TenEach();
    var t := new ECommerceTerminal(TwoProducts(10, 10));
    r := t.Checkout(session, name, confirm, now);
    orders := t.orders;
  }

  /** A fresh terminal whose cart holds two units of #1 and three of #2. */
  method TwoLineCart(session: string) returns (t: ECommerceTerminal)
    ensures fresh(t) && t.Valid()
    ensures t.products == TwoProducts(10, 10) && t.orders == [] && t.nextOrderId == 1
    ensures t.cart == [CartItem(1, 1, 2, session), CartItem(2, 2, 3, session)]
  {
    TenEach();
    t := new ECommerceTerminal(TwoProducts(10, 10));
    var a := t.AddToCart(session, 1, 2);
    assert t.cart == [CartItem(1, 1, 2, session)];
    assert LineIndex(t.cart, session, 2) == None;
    var b := t.AddToCart(session, 2, 3);
  }

  /** The checkout lists both lines of that cart, each joined with its
      product. */
  lemma TwoLineJoin(session: string)
    ensures
      var products := TwoProducts(10, 10);
      SessionLines([CartItem(1, 1, 2, session), CartItem(2, 2, 3, session)], products, session)
        == [Line(CartItem(1, 1, 2, session), products[1]), Line(CartItem(2, 2, 3, session), products[2])]
  {
    var products := TwoProducts(10, 10);
    var cart := [CartItem(1, 1, 2, session), CartItem(2, 2, 3, session)];
    assert SessionLines(cart[1..][1..], products, session) == [];
    assert SessionLines(cart[1..], products, session) == [Line(cart[1], products[2])];
  }

  /** The checkout's view of that cart: both lines joined with their
      products, within stock, for a total of 36.50; committing them leaves 8
      and 7 units. */
  lemma TwoLineView(session: string)
    ensures
      var view := SessionLines([CartItem(1, 1, 2, session), CartItem(2, 2, 3, session)], TwoProducts(10, 10), session);
      && Total(view) == 3650 && AllInStock(view)
      && Decremented(TwoProducts(10, 10), view)[1].stock == 8
      && Decremented(TwoProducts(10, 10), view)[2].stock == 7
  {
    var products := TwoProducts(10, 10);
    TwoLineJoin(session);
    var view := [Line(CartItem(1, 1, 2, session), products[1]), Line(CartItem(2, 2, 3, session), products[2])];
    assert view[..1] == [view[0]] && view[..1][..0] == [];
    assert Total(view[..1]) == 2000;
    QuantityForSingle(view, 0);
    QuantityForSingle(view, 1);
    DecrementedAt(products, view, 1);
    DecrementedAt(products, view, 2);
  }

  /** 'Ada' is a valid name and 'y' confirms. */
  lemma AdaConfirms()
    ensures Input.Strip("Ada") == "Ada" && !Input.IsBlank("Ada") && Input.ConfirmsOrder("y")
  {
    Input.StripTrimmed("Ada");
    Input.StripTrimmed("y");
    Input.ConfirmsOrderIff("y");
  }

  /** Two units at 10.00 and three at 5.50 make an order of 36.50, and each
      product's stock drops by its line's quantity. */
  method TwoLineOrder(session: string)
    returns (r: CheckoutResult, stock1: int, stock2: int, lines: seq<CartItem>)
    ensures r.Placed? && r.order.totalAmount == 3650 && r.order.status == Completed
    ensures r.order.customerName == "Ada"
    ensures stock1 == 8 && stock2 == 7 && lines == []
  {
    var t := TwoLineCart(session);
    TwoLineView(session);
    AdaConfirms();
    r := t.Checkout(session, "Ada", "y", 0);
    stock1 := t.products[1].stock;
    stock2 := t.products[2].stock;
    lines := t.cart;
  }
}
