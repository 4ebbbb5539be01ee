/** The cart and checkout operations of app.py's ECommerceTerminal. The
    database the terminal talks to is held in the object's fields: the
    product table, the cart table in id order, the order list and the next
    ids to hand out. The session id and the answers typed at the prompts
    are arguments. */
module Storefront {
  import opened Models
  import opened CartTable
  import opened CartStore
  import opened Input

  /** The messages an operation stops with. */
  datatype CartError =
    | ProductNotFound              // "Product not found"
    | OutOfStock                   // "Product out of stock"
    | InvalidQuantity              // "Invalid quantity"
    | OnlyAvailable(stock: int)    // "Only {stock} items available"
    | ItemNotFound                 // "Item not found in your cart"
    | EmptyCart                    // "Your cart is empty"
    | NameRequired                 // "Name is required"
    | Cancelled                    // "Order cancelled"
    | NotEnoughStock(productId: int)  // "Not enough stock for {name}"

  datatype Outcome = Done | Failed(error: CartError)

  datatype CheckoutResult = Placed(order: Order) | Rejected(error: CartError)

  /** The validation pass of a checkout: the first line that asks for more
      than its product's stock, if there is one. */
  method FirstShortLine(lines: seq<Line>) returns (k: Option<nat>)
    ensures k.None? <==> AllInStock(lines)
    ensures k.Some? ==> k.value < |lines| && lines[k.value].product.stock < lines[k.value].item.quantity
    ensures k.Some? ==> AllInStock(lines[..k.value])
  {
    for i := 0 to |lines|
      invariant AllInStock(lines[..i])
    {
      if lines[i].product.stock < lines[i].item.quantity {
        return Some(i);
      }
    }
    assert lines[..|lines|] == lines;
    return None;
  }

  /** The checks of a checkout, in the order the source makes them: an empty
      cart, then a blank name, then an answer other than 'y', then the first
      line short of stock. No refusal means the order can be placed. */
  method Refusal(lines: seq<Line>, name: string, confirm: string) returns (refusal: Option<CartError>)
    ensures lines == [] ==> refusal == Some(EmptyCart)
    ensures lines != [] && IsBlank(name) ==> refusal == Some(NameRequired)
    ensures lines != [] && !IsBlank(name) && !ConfirmsOrder(confirm) ==> refusal == Some(Cancelled)
    ensures lines != [] && !IsBlank(name) && ConfirmsOrder(confirm) ==> (refusal.None? <==> AllInStock(lines))
    ensures lines != [] && !IsBlank(name) && ConfirmsOrder(confirm) && !AllInStock(lines) ==>
      exists k | 0 <= k < |lines| ::
        && AllInStock(lines[..k]) && lines[k].product.stock < lines[k].item.quantity
        && refusal == Some(NotEnoughStock(lines[k].item.productId))
  {
    if lines == [] {
      return Some(EmptyCart);
    }
    if Strip(name) == [] {
      return Some(NameRequired);
    }
    if !ConfirmsOrder(confirm) {
      return Some(Cancelled);
    }
    var short := FirstShortLine(lines);
    if short.Some? {
      return Some(NotEnoughStock(lines[short.value].item.productId));
    }
    return None;
  }

  class ECommerceTerminal {
    var products: map<int, Product>
    var cart: seq<CartItem>
    var orders: seq<Order>
    var nextItemId: int
    var nextOrderId: int

    ghost predicate Valid()
      reads this
    {
      && CatalogKeyed(products)
      && StockNonNegative(products)
      && CartValid(cart, products, nextItemId)
      && OrdersValid(orders, nextOrderId)
    }

    /** A terminal over an existing catalogue, with no cart lines and no
        orders yet; ids start at 1. */
    constructor (catalog: map<int, Product>)
      requires CatalogKeyed(catalog) && StockNonNegative(catalog)
      ensures Valid()
      ensures products == catalog && cart == [] && orders == []
      ensures nextItemId == 1 && nextOrderId == 1
    {
      products := catalog;
      cart := [];
      orders := [];
      nextItemId := 1;
      nextOrderId := 1;
    }

    /** add_to_cart: checks the product, its stock and the quantity, then adds
        the quantity to the session's line for the product, or creates that
        line when there is none. The merged quantity is not checked against
        the stock again. */
    method AddToCart(session: string, productId: int, quantity: int) returns (r: Outcome)
      requires Valid()
      modifies this
      ensures Valid()
      ensures products == old(products) && orders == old(orders) && nextOrderId == old(nextOrderId)
      ensures productId !in old(products) ==> r == Failed(ProductNotFound)
      ensures productId in old(products) ==>
        var stock := old(products)[productId].stock;
        && (stock <= 0 ==> r == Failed(OutOfStock))
        && (0 < stock && quantity <= 0 ==> r == Failed(InvalidQuantity))
        && (0 < stock < quantity ==> r == Failed(OnlyAvailable(stock)))
        && (0 < quantity <= stock ==> r == Done)
      ensures r.Failed? ==> cart == old(cart) && nextItemId == old(nextItemId)
      ensures r.Done? ==>
        match LineIndex(old(cart), session, productId)
        case Some(k) =>
          && cart == old(cart)[k := old(cart)[k].(quantity := old(cart)[k].quantity + quantity)]
          && nextItemId == old(nextItemId)
        case None =>
          && cart == old(cart) + [NewCartItem(old(nextItemId), productId, Some(quantity), session)]
          && nextItemId == old(nextItemId) + 1
    {
      if productId !in products {
        return Failed(ProductNotFound);
      }
      var product := products[productId];
      if product.stock <= 0 {
        return Failed(OutOfStock);
      }
      if quantity <= 0 {
        return Failed(InvalidQuantity);
      }
      if quantity > product.stock {
        return Failed(OnlyAvailable(product.stock));
      }
      var existing := LineIndex(cart, session, productId);
      if existing.Some? {
        var k := existing.value;
        SetQuantityKeepsValid(cart, products, nextItemId, k, cart[k].quantity + quantity);
        cart := cart[k := cart[k].(quantity := cart[k].quantity + quantity)];
      } else {
        var item := NewCartItem(nextItemId, productId, Some(quantity), session);
        AppendKeepsValid(cart, products, nextItemId, item);
        cart := cart + [item];
        nextItemId := nextItemId + 1;
      }
      return Done;
    }

    /** update_cart_item: the line must exist and belong to the session; the
        new quantity must lie in 1..stock of the line's product. Only that
        line's quantity changes. */
    method UpdateCartItem(session: string, itemId: int, newQuantity: int) returns (r: Outcome)
      requires Valid()
      modifies this
      ensures Valid()
      ensures products == old(products) && orders == old(orders)
      ensures nextItemId == old(nextItemId) && nextOrderId == old(nextOrderId)
      ensures r.Failed? ==> cart == old(cart)
      ensures
        match OwnedIndex(old(cart), session, itemId)
        case None => r == Failed(ItemNotFound)
        case Some(k) =>
          var stock := old(products)[old(cart)[k].productId].stock;
          && (newQuantity <= 0 ==> r == Failed(InvalidQuantity))
          && (0 < newQuantity && stock < newQuantity ==> r == Failed(OnlyAvailable(stock)))
          && (0 < newQuantity <= stock ==>
                r == Done && cart == old(cart)[k := old(cart)[k].(quantity := newQuantity)])
    {
      var found := OwnedIndex(cart, session, itemId);
      if found.None? {
        return Failed(ItemNotFound);
      }
      var k := found.value;
      var product := products[cart[k].productId];
      if newQuantity <= 0 {
        return Failed(InvalidQuantity);
      }
      if newQuantity > product.stock {
        return Failed(OnlyAvailable(product.stock));
      }
      SetQuantityKeepsValid(cart, products, nextItemId, k, newQuantity);
      cart := cart[k := cart[k].(quantity := newQuantity)];
      return Done;
    }

    /** remove_cart_item: deletes the one line with that id when it belongs
        to the session, and nothing otherwise. */
    method RemoveCartItem(session: string, itemId: int) returns (r: Outcome)
      requires Valid()
      modifies this
      ensures Valid()
      ensures products == old(products) && orders == old(orders)
      ensures nextItemId == old(nextItemId) && nextOrderId == old(nextOrderId)
      ensures
        match OwnedIndex(old(cart), session, itemId)
        case None => r == Failed(ItemNotFound) && cart == old(cart)
        case Some(k) => r == Done && cart == old(cart)[..k] + old(cart)[k + 1..]
    {
      var found := OwnedIndex(cart, session, itemId);
      if found.None? {
        return Failed(ItemNotFound);
      }
      var k := found.value;
      RemoveAtKeepsValid(cart, products, nextItemId, k);
      cart := cart[..k] + cart[k + 1..];
      return Done;
    }

    /** clear_cart: deletes the session's lines one by one and keeps every
        line of any other session; an empty cart is not an error. */
    method ClearCart(session: string)
      requires Valid()
      modifies this
      ensures Valid()
      ensures cart == OtherSessions(old(cart), session)
      ensures products == old(products) && orders == old(orders)
      ensures nextItemId == old(nextItemId) && nextOrderId == old(nextOrderId)
    {
      var kept := [];
      for i := 0 to |cart|
        invariant kept == OtherSessions(cart[..i], session)
      {
        assert cart[..i + 1][..i] == cart[..i];
        if cart[i].sessionId != session {
          kept := kept + [cart[i]];
        }
      }
      assert cart[..|cart|] == cart;
      OtherSessionsKeepsValid(cart, products, nextItemId, session);
      cart := kept;
    }

    /** The commit loop of a checkout: each line's product loses that line's
        quantity of stock. */
    method TakeStock(lines: seq<Line>)
      requires forall j | 0 <= j < |lines| :: lines[j].item.productId in products
      modifies this`products
      ensures products == Decremented(old(products), lines)
    {
      for i := 0 to |lines|
        invariant products == Decremented(old(products), lines[..i])
      {
        var item := lines[i].item;
        assert lines[..i + 1][..i] == lines[..i];
        products := products[item.productId := products[item.productId].(stock := products[item.productId].stock - item.quantity)];
      }
      assert lines[..|lines|] == lines;
    }

    /** The stock pass of a checkout whose lines all passed validation: each
        line's product loses that line's quantity, and nothing but the
        product table changes. */
    method DeductStock(session: string, lines: seq<Line>)
      requires Valid()
      requires lines == SessionLines(cart, products, session) && AllInStock(lines)
      modifies this`products
      ensures Valid()
      ensures products == Decremented(old(products), lines)
      ensures StockTaken(old(products), lines, products)
    {
      ghost var before := products;
      SessionLinesReady(products, cart, nextItemId, session, lines);
      TakeStock(lines);
      CommitStock(before, lines, products);
      StockTakenKeepsNonNegative(before, lines, products);
      CartValidSameKeys(cart, before, products, nextItemId);
    }

    /** The record pass of a checkout: one completed order for the total is
        appended under the next id and the session's lines are deleted. */
    method RecordOrder(session: string, customer: string, total: int, now: int) returns (order: Order)
      requires Valid()
      modifies this`orders, this`nextOrderId, this`cart
      ensures Valid()
      ensures order == NewOrder(old(nextOrderId), customer, total, Some(Completed), now)
      ensures orders == old(orders) + [order] && nextOrderId == old(nextOrderId) + 1
      ensures cart == OtherSessions(old(cart), session)
    {
      order := NewOrder(nextOrderId, customer, total, Some(Completed), now);
      RecordKeepsValid(orders, nextOrderId, order);
      OtherSessionsKeepsValid(cart, products, nextItemId, session);
      orders := orders + [order];
      nextOrderId := nextOrderId + 1;
      cart := OtherSessions(cart, session);
    }

    /** The commit of a checkout whose lines all passed validation: stock is
        taken, one completed order for the total is recorded and the
        session's lines are deleted. */
    method Commit(session: string, lines: seq<Line>, customer: string, total: int, now: int) returns (order: Order)
      requires Valid()
      requires lines == SessionLines(cart, products, session) && AllInStock(lines)
      modifies this
      ensures Valid()
      ensures order == NewOrder(old(nextOrderId), customer, total, Some(Completed), now)
      ensures orders == old(orders) + [order] && nextOrderId == old(nextOrderId) + 1
      ensures cart == OtherSessions(old(cart), session) && nextItemId == old(nextItemId)
      ensures products == Decremented(old(products), lines)
      ensures StockTaken(old(products), lines, products)
    {
      DeductStock(session, lines);
      order := RecordOrder(session, customer, total, now);
    }

    /** checkout: refuses an empty cart, a blank name, an unconfirmed order and
        a cart with any line short of stock, in that order, changing nothing.
        Otherwise it takes each line's quantity off its product's stock,
        records one completed order for the cart total and deletes the
        session's lines. */
    method Checkout(session: string, name: string, confirm: string, now: int) returns (r: CheckoutResult)
      requires Valid()
      modifies this
      ensures Valid()
      ensures
        var lines := SessionLines(old(cart), old(products), session);
        && (lines == [] ==> r == Rejected(EmptyCart))
        && (lines != [] && IsBlank(name) ==> r == Rejected(NameRequired))
        && (lines != [] && !IsBlank(name) && !ConfirmsOrder(confirm) ==> r == Rejected(Cancelled))
        && (lines != [] && !IsBlank(name) && ConfirmsOrder(confirm) ==>
              (r.Placed? <==> AllInStock(lines)))
        && (lines != [] && !IsBlank(name) && ConfirmsOrder(confirm) && !AllInStock(lines) ==>
              exists k | 0 <= k < |lines| ::
                && AllInStock(lines[..k]) && lines[k].product.stock < lines[k].item.quantity
                && r == Rejected(NotEnoughStock(lines[k].item.productId)))
      ensures r.Rejected? ==>
        && products == old(products) && cart == old(cart) && orders == old(orders)
        && nextItemId == old(nextItemId) && nextOrderId == old(nextOrderId)
      ensures r.Placed? ==>
        var lines := SessionLines(old(cart), old(products), session);
        && r.order == NewOrder(old(nextOrderId), Strip(name), Total(lines), Some(Completed), now)
        && orders == old(orders) + [r.order]
        && nextOrderId == old(nextOrderId) + 1
        && cart == OtherSessions(old(cart), session)
        && nextItemId == old(nextItemId)
        && products == Decremented(old(products), lines)
      ensures r.Placed? ==> StockTaken(old(products), SessionLines(old(cart), old(products), session), products)
    {
      var lines := SessionLines(cart, products, session);
      var refusal := Refusal(lines, name, confirm);
      if refusal.Some? {
        return Rejected(refusal.value);
      }
      var total := DisplayCartTotal(lines);
      var order := Commit(session, lines, Strip(name), total.value, now);
      return Placed(order);
    }
  }
}
