/** The cart table and the queries app.py runs on it through the ORM, as
    functions of the table's contents, together with the invariants the
    cart operations keep and the stock decrement of a checkout. */
module CartStore {
  import opened Models
  import opened CartTable

  /** Every product is stored under its own id. */
  ghost predicate CatalogKeyed(products: map<int, Product>)
  {
    forall id | id in products :: products[id].id == id
  }

  /** Line ids are primary keys, handed out in increasing order. */
  ghost predicate IdsIncreasing(cart: seq<CartItem>)
  {
    forall i, j | 0 <= i < j < |cart| :: cart[i].id < cart[j].id
  }

  predicate IsLineFor(item: CartItem, session: string, productId: int)
  {
    item.sessionId == session && item.productId == productId
  }

  /** At most one line per (session, product) pair. */
  ghost predicate OneLinePerProduct(cart: seq<CartItem>)
  {
    forall i, j | 0 <= i < j < |cart| :: !IsLineFor(cart[j], cart[i].sessionId, cart[i].productId)
  }

  /** The cart table's invariant: unique increasing ids below the next id to
      hand out, positive quantities, every line referring to a product of
      the catalogue, and one line per (session, product). */
  ghost predicate CartValid(cart: seq<CartItem>, products: map<int, Product>, nextItemId: int)
  {
    && IdsIncreasing(cart)
    && OneLinePerProduct(cart)
    && forall i | 0 <= i < |cart| :: cart[i].id < nextItemId && cart[i].quantity >= 1 && cart[i].productId in products
  }

  /** The order ledger's invariant: increasing ids below the next id, and
      every order recorded as completed (only a checkout creates orders). */
  ghost predicate OrdersValid(orders: seq<Order>, nextOrderId: int)
  {
    && (forall i, j | 0 <= i < j < |orders| :: orders[i].id < orders[j].id)
    && forall i | 0 <= i < |orders| :: orders[i].id < nextOrderId && orders[i].status == Completed
  }

  /** `CartItem.query.get(item_id)`: the position of the line with that id. */
  function ItemIndex(cart: seq<CartItem>, itemId: int): (k: Option<nat>)
    ensures k.Some? ==> k.value < |cart| && cart[k.value].id == itemId
    ensures k.None? ==> forall i | 0 <= i < |cart| :: cart[i].id != itemId
  {
    if cart == [] then None
    else if cart[0].id == itemId then Some(0)
    else
      match ItemIndex(cart[1..], itemId)
      case None => assert forall i | 1 <= i < |cart| :: cart[i] == cart[1..][i - 1]; None
      case Some(k) => Some(k + 1)
  }

  /** The line with that id when it belongs to `session`; a line of another
      session is treated as absent. */
  function OwnedIndex(cart: seq<CartItem>, session: string, itemId: int): (k: Option<nat>)
    requires IdsIncreasing(cart)
    ensures k.Some? ==> k.value < |cart| && cart[k.value].id == itemId && cart[k.value].sessionId == session
    ensures k.None? <==> forall i | 0 <= i < |cart| :: cart[i].id == itemId ==> cart[i].sessionId != session
  {
    var k := ItemIndex(cart, itemId);
    if k.Some? && cart[k.value].sessionId == session then k else None
  }

  /** `CartItem.query.filter_by(product_id=..., session_id=...).first()`. */
  function LineIndex(cart: seq<CartItem>, session: string, productId: int): (k: Option<nat>)
    ensures k.Some? ==> k.value < |cart| && IsLineFor(cart[k.value], session, productId)
    ensures k.Some? ==> forall i | 0 <= i < k.value :: !IsLineFor(cart[i], session, productId)
    ensures k.None? ==> forall i | 0 <= i < |cart| :: !IsLineFor(cart[i], session, productId)
  {
    if cart == [] then None
    else if IsLineFor(cart[0], session, productId) then Some(0)
    else
      match LineIndex(cart[1..], session, productId)
      case None => assert forall i | 1 <= i < |cart| :: cart[i] == cart[1..][i - 1]; None
      case Some(k) => Some(k + 1)
  }

  /** `CartItem.query.filter_by(session_id=...).join(Product).all()`: the
      session's lines, each joined with its product (an inner join, so a line
      whose product is missing is not listed). The query names no order; the
      model lists the lines in id order. With increasing ids, membership and
      increasing order fix the list: each qualifying line once. */
  function SessionLines(cart: seq<CartItem>, products: map<int, Product>, session: string): (lines: seq<Line>)
    ensures |lines| <= |cart|
    ensures forall l | l in lines ::
      l.item in cart && l.item.sessionId == session && l.item.productId in products
      && l.product == products[l.item.productId]
    ensures forall i | 0 <= i < |cart| && cart[i].sessionId == session && cart[i].productId in products ::
      Line(cart[i], products[cart[i].productId]) in lines
    ensures IdsIncreasing(cart) ==> forall i, j | 0 <= i < j < |lines| :: lines[i].item.id < lines[j].item.id
  {
    if cart == [] then []
    else
      var rest := SessionLines(cart[1..], products, session);
      assert forall i | 1 <= i < |cart| :: cart[i] == cart[1..][i - 1];
      if cart[0].sessionId == session && cart[0].productId in products then
        var head := Line(cart[0], products[cart[0].productId]);
        LinesConsIncreasing(cart, head, rest);
        [head] + rest
      else
        TailIncreasing(cart);
        rest
  }

  /** A valid table stays increasing without its first line. */
  lemma TailIncreasing(cart: seq<CartItem>)
    requires cart != []
    ensures IdsIncreasing(cart) ==> IdsIncreasing(cart[1..])
  {
    if IdsIncreasing(cart) {
      var tail := cart[1..];
      forall i, j | 0 <= i < j < |tail| ensures tail[i].id < tail[j].id {
        assert tail[i] == cart[i + 1] && tail[j] == cart[j + 1];
      }
    }
  }

  /** Putting the first line of the table in front of lines taken from the
      rest of the table keeps the ids increasing. */
  lemma LinesConsIncreasing(cart: seq<CartItem>, head: Line, rest: seq<Line>)
    requires cart != [] && head.item == cart[0]
    requires forall l | l in rest :: l.item in cart[1..]
    requires IdsIncreasing(cart[1..]) ==> forall i, j | 0 <= i < j < |rest| :: rest[i].item.id < rest[j].item.id
    ensures IdsIncreasing(cart) ==>
      var lines := [head] + rest;
      forall i, j | 0 <= i < j < |lines| :: lines[i].item.id < lines[j].item.id
  {
    if IdsIncreasing(cart) {
      TailIncreasing(cart);
      var lines := [head] + rest;
      forall i, j | 0 <= i < j < |lines| ensures lines[i].item.id < lines[j].item.id {
        assert lines[j] == rest[j - 1] && rest[j - 1] in rest;
        if i == 0 {
          var m :| 0 <= m < |cart[1..]| && cart[1..][m] == lines[j].item;
          assert cart[m + 1] == lines[j].item;
        } else {
          assert lines[i] == rest[i - 1];
        }
      }
    }
  }

  /** The cart once every line of `session` is deleted, the order of the
      remaining lines kept: with increasing ids, membership and increasing
      order fix the result. */
  function OtherSessions(cart: seq<CartItem>, session: string): (rest: seq<CartItem>)
    ensures |rest| <= |cart|
    ensures forall it | it in rest :: it in cart && it.sessionId != session
    ensures forall i | 0 <= i < |cart| && cart[i].sessionId != session :: cart[i] in rest
    ensures IdsIncreasing(cart) ==> IdsIncreasing(rest)
  {
    if cart == [] then []
    else
      var prev := OtherSessions(cart[..|cart| - 1], session);
      var last := cart[|cart| - 1];
      assert forall i | 0 <= i < |cart| - 1 :: cart[i] == cart[..|cart| - 1][i];
      ItemsSnocIncreasing(cart, prev);
      if last.sessionId == session then prev else prev + [last]
  }

  /** Lines taken from all but the last line of the table, followed or not
      by the last line, keep the ids increasing. */
  lemma ItemsSnocIncreasing(cart: seq<CartItem>, prev: seq<CartItem>)
    requires cart != []
    requires forall it | it in prev :: it in cart[..|cart| - 1]
    requires IdsIncreasing(cart[..|cart| - 1]) ==> IdsIncreasing(prev)
    ensures IdsIncreasing(cart) ==> IdsIncreasing(prev) && IdsIncreasing(prev + [cart[|cart| - 1]])
  {
    if IdsIncreasing(cart) {
      var prefix := cart[..|cart| - 1];
      assert IdsIncreasing(prefix) by {
        forall i, j | 0 <= i < j < |prefix| ensures prefix[i].id < prefix[j].id {
          assert prefix[i] == cart[i] && prefix[j] == cart[j];
        }
      }
      var c := prev + [cart[|cart| - 1]];
      forall i, j | 0 <= i < j < |c| ensures c[i].id < c[j].id {
        assert c[i] == prev[i] && prev[i] in prev;
        if j < |prev| {
          assert c[j] == prev[j];
        } else {
          var m :| 0 <= m < |prefix| && prefix[m] == prev[i];
          assert cart[m] == prev[i];
        }
      }
    }
  }

  /** How many units of `productId` the lines ask for, in total. */
  function QuantityFor(lines: seq<Line>, productId: int): int
  {
    if lines == [] then 0
    else
      var last := lines[|lines| - 1].item;
      QuantityFor(lines[..|lines| - 1], productId) + (if last.productId == productId then last.quantity else 0)
  }

  /** The checkout's commit loop: each line's product loses that line's
      quantity of stock, one line after the other. */
  function Decremented(products: map<int, Product>, lines: seq<Line>): (r: map<int, Product>)
    requires forall i | 0 <= i < |lines| :: lines[i].item.productId in products
    ensures r.Keys == products.Keys
  {
    if lines == [] then products
    else
      var prev := Decremented(products, lines[..|lines| - 1]);
      var item := lines[|lines| - 1].item;
      prev[item.productId := prev[item.productId].(stock := prev[item.productId].stock - item.quantity)]
  }

  ghost predicate DistinctProducts(lines: seq<Line>)
  {
    forall i, j | 0 <= i < j < |lines| :: lines[i].item.productId != lines[j].item.productId
  }

  /** After the decrement loop each product has lost exactly the quantity the
      lines ask for, and nothing else about it has changed. */
  lemma {:induction false} DecrementedAt(products: map<int, Product>, lines: seq<Line>, productId: int)
    requires forall i | 0 <= i < |lines| :: lines[i].item.productId in products
    requires productId in products
    ensures Decremented(products, lines)[productId]
         == products[productId].(stock := products[productId].stock - QuantityFor(lines, productId))
    decreases |lines|
  {
    if lines != [] {
      var prefix := lines[..|lines| - 1];
      DecrementedAt(products, prefix, productId);
    }
  }

  /** A product no line refers to is asked for zero times. */
  lemma {:induction false} QuantityForAbsent(lines: seq<Line>, productId: int)
    requires forall i | 0 <= i < |lines| :: lines[i].item.productId != productId
    ensures QuantityFor(lines, productId) == 0
    decreases |lines|
  {
    if lines != [] {
      QuantityForAbsent(lines[..|lines| - 1], productId);
    }
  }

  /** When every product has at most one line, a product is asked for
      exactly the quantity of its line. */
  lemma {:induction false} QuantityForSingle(lines: seq<Line>, k: nat)
    requires k < |lines| && DistinctProducts(lines)
    ensures QuantityFor(lines, lines[k].item.productId) == lines[k].item.quantity
    decreases |lines|
  {
    var prefix := lines[..|lines| - 1];
    if k == |lines| - 1 {
      QuantityForAbsent(prefix, lines[k].item.productId);
    } else {
      QuantityForSingle(prefix, k);
    }
  }

  /** With one line per (session, product), one session's lines name every
      product at most once. */
  lemma {:induction false} SessionLinesDistinct(cart: seq<CartItem>, products: map<int, Product>, session: string)
    requires OneLinePerProduct(cart)
    ensures DistinctProducts(SessionLines(cart, products, session))
    decreases |cart|
  {
    if cart != [] {
      TailOneLine(cart);
      SessionLinesDistinct(cart[1..], products, session);
      var rest := SessionLines(cart[1..], products, session);
      if cart[0].sessionId == session && cart[0].productId in products {
        RestAvoidsHead(cart, products, session);
        DistinctCons(Line(cart[0], products[cart[0].productId]), rest);
      }
    }
  }

  lemma TailOneLine(cart: seq<CartItem>)
    requires cart != [] && OneLinePerProduct(cart)
    ensures OneLinePerProduct(cart[1..])
  {
    var tail := cart[1..];
    forall i, j | 0 <= i < j < |tail| ensures !IsLineFor(tail[j], tail[i].sessionId, tail[i].productId) {
      assert tail[i] == cart[i + 1] && tail[j] == cart[j + 1];
    }
  }

  lemma RestAvoidsHead(cart: seq<CartItem>, products: map<int, Product>, session: string)
    requires cart != [] && OneLinePerProduct(cart) && cart[0].sessionId == session
    ensures forall l | l in SessionLines(cart[1..], products, session) :: l.item.productId != cart[0].productId
  {
    var tail := cart[1..];
    forall l | l in SessionLines(tail, products, session) ensures l.item.productId != cart[0].productId {
      var m :| 0 <= m < |tail| && tail[m] == l.item;
      assert cart[m + 1] == l.item;
    }
  }

  lemma DistinctCons(head: Line, rest: seq<Line>)
    requires DistinctProducts(rest)
    requires forall l | l in rest :: l.item.productId != head.item.productId
    ensures DistinctProducts([head] + rest)
  {
    var lines := [head] + rest;
    forall i, j | 0 <= i < j < |lines| ensures lines[i].item.productId != lines[j].item.productId {
      assert lines[j] == rest[j - 1] && lines[j] in rest;
      if i > 0 {
        assert lines[i] == rest[i - 1];
      }
    }
  }

  /** The catalogue `after` is `before` with the lines' stock taken: a
      product no line names is left exactly as it was, and a product named by
      a line has lost that line's quantity and nothing else, and has not gone
      below zero. */
  ghost predicate StockTaken(before: map<int, Product>, lines: seq<Line>, after: map<int, Product>)
  {
    && after.Keys == before.Keys
    && (forall id | id in before && (forall k | 0 <= k < |lines| :: lines[k].item.productId != id) ::
          after[id] == before[id])
    && (forall k | 0 <= k < |lines| ::
          && lines[k].item.productId in before
          && after[lines[k].item.productId]
             == before[lines[k].item.productId].(stock := before[lines[k].item.productId].stock - lines[k].item.quantity)
          && after[lines[k].item.productId].stock >= 0)
  }

  /** No product's stock is below zero. */
  ghost predicate StockNonNegative(products: map<int, Product>)
  {
    forall id | id in products :: products[id].stock >= 0
  }

  /** Taking a validated checkout's stock keeps every stock at zero or more. */
  lemma StockTakenKeepsNonNegative(before: map<int, Product>, lines: seq<Line>, after: map<int, Product>)
    requires StockNonNegative(before) && StockTaken(before, lines, after)
    ensures StockNonNegative(after)
  {
    forall id | id in after ensures after[id].stock >= 0 {
      if k :| 0 <= k < |lines| && lines[k].item.productId == id {
        assert after[lines[k].item.productId].stock >= 0;
      } else {
        assert after[id] == before[id];
      }
    }
  }

  /** What the commit loop does to the catalogue once every line passed the
      stock check: the same ids, each product still stored under its own id;
      a product no line names is left exactly as it was, and a product named
      by a line loses that line's quantity and nothing else, never going
      below zero. */
  lemma CommitStock(products: map<int, Product>, lines: seq<Line>, after: map<int, Product>)
    requires CatalogKeyed(products) && DistinctProducts(lines)
    requires forall i | 0 <= i < |lines| ::
      lines[i].item.productId in products && lines[i].product == products[lines[i].item.productId]
    requires forall i | 0 <= i < |lines| :: 1 <= lines[i].item.quantity <= lines[i].product.stock
    requires after == Decremented(products, lines)
    ensures CatalogKeyed(after) && after.Keys == products.Keys
    ensures StockTaken(products, lines, after)
  {
    forall id | id in products && (forall k | 0 <= k < |lines| :: lines[k].item.productId != id)
      ensures after[id] == products[id]
    {
      DecrementedAt(products, lines, id);
      QuantityForAbsent(lines, id);
    }
    forall k | 0 <= k < |lines|
      ensures after[lines[k].item.productId] == products[lines[k].item.productId].(stock := products[lines[k].item.productId].stock - lines[k].item.quantity)
    {
      DecrementedAt(products, lines, lines[k].item.productId);
      QuantityForSingle(lines, k);
    }
    forall id | id in after ensures after[id].id == id {
      DecrementedAt(products, lines, id);
    }
  }

  /** Every line asks for no more than its product's stock. */
  predicate AllInStock(lines: seq<Line>)
  {
    forall i | 0 <= i < |lines| :: lines[i].item.quantity <= lines[i].product.stock
  }

  /** A session's lines in a valid cart that passed the stock check meet
      what the commit loop needs: each names a product of the catalogue and
      carries it, no product twice, and each asks for 1..stock units. */
  lemma SessionLinesReady(products: map<int, Product>, cart: seq<CartItem>, nextItemId: int, session: string, lines: seq<Line>)
    requires CartValid(cart, products, nextItemId)
    requires lines == SessionLines(cart, products, session) && AllInStock(lines)
    ensures DistinctProducts(lines)
    ensures forall i | 0 <= i < |lines| ::
      lines[i].item.productId in products && lines[i].product == products[lines[i].item.productId]
    ensures forall i | 0 <= i < |lines| :: 1 <= lines[i].item.quantity <= lines[i].product.stock
  {
    SessionLinesDistinct(cart, products, session);
    forall i | 0 <= i < |lines| ensures 1 <= lines[i].item.quantity {
      assert lines[i] in lines;
      var m :| 0 <= m < |cart| && cart[m] == lines[i].item;
    }
  }

  /** A commit of a session's validated lines keeps the catalogue keyed by id
      and the cart invariant holding once the session's lines are gone. */
  lemma CommitKeepsValid(products: map<int, Product>, cart: seq<CartItem>, nextItemId: int, session: string, lines: seq<Line>)
    requires CatalogKeyed(products) && CartValid(cart, products, nextItemId)
    requires lines == SessionLines(cart, products, session) && AllInStock(lines)
    ensures forall i | 0 <= i < |lines| :: lines[i].item.productId in products
    ensures CatalogKeyed(Decremented(products, lines))
    ensures CartValid(OtherSessions(cart, session), Decremented(products, lines), nextItemId)
  {
    SessionLinesReady(products, cart, nextItemId, session, lines);
    var after := Decremented(products, lines);
    CommitStock(products, lines, after);
    OtherSessionsKeepsValid(cart, products, nextItemId, session);
    CartValidSameKeys(OtherSessions(cart, session), products, after, nextItemId);
  }

  /** The cart invariant only looks at which product ids exist. */
  lemma CartValidSameKeys(cart: seq<CartItem>, products: map<int, Product>, products': map<int, Product>, nextItemId: int)
    requires CartValid(cart, products, nextItemId) && products.Keys == products'.Keys
    ensures CartValid(cart, products', nextItemId)
  {
    assert forall i | 0 <= i < |cart| :: cart[i].productId in products';
  }

  /** Recording a completed order under the next id keeps the ledger's
      invariant. */
  lemma RecordKeepsValid(orders: seq<Order>, nextOrderId: int, order: Order)
    requires OrdersValid(orders, nextOrderId)
    requires order.id == nextOrderId && order.status == Completed
    ensures OrdersValid(orders + [order], nextOrderId + 1)
  {
    var o := orders + [order];
    assert forall i | 0 <= i < |orders| :: o[i] == orders[i];
  }

  /** Appending a line with the next id for a (session, product) pair that has
      no line yet keeps the cart's invariant. */
  lemma AppendKeepsValid(cart: seq<CartItem>, products: map<int, Product>, nextItemId: int, item: CartItem)
    requires CartValid(cart, products, nextItemId)
    requires LineIndex(cart, item.sessionId, item.productId).None?
    requires item.id == nextItemId && item.quantity >= 1 && item.productId in products
    ensures CartValid(cart + [item], products, nextItemId + 1)
  {
    var c := cart + [item];
    forall i, j | 0 <= i < j < |c| ensures !IsLineFor(c[j], c[i].sessionId, c[i].productId) {
      if j == |cart| {
        assert !IsLineFor(cart[i], item.sessionId, item.productId);
      } else {
        assert c[i] == cart[i] && c[j] == cart[j];
      }
    }
  }

  /** Changing one line's quantity to a positive number keeps the cart's
      invariant. */
  lemma SetQuantityKeepsValid(cart: seq<CartItem>, products: map<int, Product>, nextItemId: int, k: nat, quantity: int)
    requires CartValid(cart, products, nextItemId)
    requires k < |cart| && quantity >= 1
    ensures CartValid(cart[k := cart[k].(quantity := quantity)], products, nextItemId)
  {
    var c := cart[k := cart[k].(quantity := quantity)];
    assert forall i | 0 <= i < |c| :: c[i].id == cart[i].id && c[i].sessionId == cart[i].sessionId && c[i].productId == cart[i].productId;
  }

  /** Deleting one line keeps the cart's invariant. */
  lemma RemoveAtKeepsValid(cart: seq<CartItem>, products: map<int, Product>, nextItemId: int, k: nat)
    requires CartValid(cart, products, nextItemId)
    requires k < |cart|
    ensures CartValid(cart[..k] + cart[k + 1..], products, nextItemId)
  {
    var c := cart[..k] + cart[k + 1..];
    assert forall i | 0 <= i < |c| :: c[i] == cart[if i < k then i else i + 1];
  }

  /** Deleting every line of one session keeps the cart's invariant. */
  lemma {:induction false} OtherSessionsKeepsValid(cart: seq<CartItem>, products: map<int, Product>, nextItemId: int, session: string)
    requires CartValid(cart, products, nextItemId)
    ensures CartValid(OtherSessions(cart, session), products, nextItemId)
    decreases |cart|
  {
    if cart != [] {
      var prefix := cart[..|cart| - 1];
      var last := cart[|cart| - 1];
      RemoveAtKeepsValid(cart, products, nextItemId, |cart| - 1);
      assert cart[..|cart| - 1] + cart[|cart|..] == prefix;
      OtherSessionsKeepsValid(prefix, products, nextItemId, session);
      if last.sessionId != session {
        LastAfterAll(cart);
        SnocKeepsValid(OtherSessions(prefix, session), products, nextItemId, last);
      }
    }
  }

  /** The last line of a valid cart has the largest id and shares its
      (session, product) pair with no earlier line. */
  lemma LastAfterAll(cart: seq<CartItem>)
    requires cart != [] && IdsIncreasing(cart) && OneLinePerProduct(cart)
    ensures forall it | it in cart[..|cart| - 1] ::
      it.id < cart[|cart| - 1].id && !IsLineFor(cart[|cart| - 1], it.sessionId, it.productId)
  {
    var prefix := cart[..|cart| - 1];
    forall it | it in prefix
      ensures it.id < cart[|cart| - 1].id && !IsLineFor(cart[|cart| - 1], it.sessionId, it.productId)
    {
      var m :| 0 <= m < |prefix| && prefix[m] == it;
      assert cart[m] == it;
    }
  }

  /** Appending a line that comes after every line already there and shares
      no (session, product) pair with them keeps the cart's invariant. */
  lemma SnocKeepsValid(prev: seq<CartItem>, products: map<int, Product>, nextItemId: int, last: CartItem)
    requires CartValid(prev, products, nextItemId)
    requires forall it | it in prev :: it.id < last.id && !IsLineFor(last, it.sessionId, it.productId)
    requires last.id < nextItemId && last.quantity >= 1 && last.productId in products
    ensures CartValid(prev + [last], products, nextItemId)
  {
    var c := prev + [last];
    forall i, j | 0 <= i < j < |c| ensures c[i].id < c[j].id && !IsLineFor(c[j], c[i].sessionId, c[i].productId) {
      assert c[i] == prev[i] && prev[i] in prev;
      if j < |prev| {
        assert c[j] == prev[j];
      }
    }
    forall i | 0 <= i < |c| ensures c[i].id < nextItemId && c[i].quantity >= 1 && c[i].productId in products {
      if i < |prev| {
        assert c[i] == prev[i];
      }
    }
  }
}
