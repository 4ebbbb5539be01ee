/** The three records of the storefront's database (models.py): Product,
    CartItem and Order, with their column defaults and Product.to_dict.
    Prices and totals are whole cents, so sums are exact. */
module Models {

  datatype Option<T> = None | Some(value: T)

  /** A catalogue entry. `description` and `category` are nullable columns;
      `createdAt` is the creation timestamp, given by the caller. */
  datatype Product = Product(
    id: int,
    name: string,
    description: Option<string>,
    price: int,
    stock: int,
    category: Option<string>,
    createdAt: int)

  /** One line of a shopping cart: `quantity` units of product `productId`
      owned by the cart of session `sessionId`. */
  datatype CartItem = CartItem(id: int, productId: int, quantity: int, sessionId: string)

  /** The `status` column holds 'pending' or 'completed'. */
  datatype OrderStatus = Pending | Completed

  datatype Order = Order(
    id: int,
    customerName: string,
    totalAmount: int,
    status: OrderStatus,
    createdAt: int)

  const DefaultStock: int := 0
  const DefaultQuantity: int := 1
  const DefaultStatus: OrderStatus := Pending

  /** Creating a product: name and price are required, stock falls back to
      its column default when omitted, and the timestamp is the current time. */
  function NewProduct(
    id: int, name: string, price: int, description: Option<string>,
    stock: Option<int>, category: Option<string>, now: int): (p: Product)
    ensures p.id == id && p.name == name && p.price == price
    ensures p.description == description && p.category == category
    ensures stock.None? ==> p.stock == 0
    ensures stock.Some? ==> p.stock == stock.value
    ensures p.createdAt == now
  {
    Product(id, name, description, price,
            if stock.Some? then stock.value else DefaultStock,
            category, now)
  }

  /** Creating a cart line: the product reference is required and the
      quantity is 1 when omitted. */
  function NewCartItem(id: int, productId: int, quantity: Option<int>, sessionId: string): (c: CartItem)
    ensures c.id == id && c.productId == productId && c.sessionId == sessionId
    ensures quantity.None? ==> c.quantity == 1
    ensures quantity.Some? ==> c.quantity == quantity.value
  {
    CartItem(id, productId, if quantity.Some? then quantity.value else DefaultQuantity, sessionId)
  }

  /** Creating an order: the status is 'pending' unless one is given. */
  function NewOrder(id: int, customerName: string, totalAmount: int, status: Option<OrderStatus>, now: int): (o: Order)
    ensures o.id == id && o.customerName == customerName && o.totalAmount == totalAmount
    ensures status.None? ==> o.status == Pending
    ensures status.Some? ==> o.status == status.value
    ensures o.createdAt == now
  {
    Order(id, customerName, totalAmount, if status.Some? then status.value else DefaultStatus, now)
  }

  /** A value of the dictionary `to_dict` builds (a nullable text column
      becomes `Null` when unset). */
  datatype Value = Int(i: int) | Text(s: string) | Null

  function TextOrNull(s: Option<string>): Value
  {
    if s.Some? then Text(s.value) else Null
  }

  const ProductDictKeys: set<string> := {"id", "name", "description", "price", "stock", "category"}

  /** Product.to_dict: the six catalogue columns, the timestamp left out. */
  function ToDict(p: Product): (d: map<string, Value>)
    ensures d.Keys == ProductDictKeys
    ensures "created_at" !in d
    ensures d["id"] == Int(p.id) && d["name"] == Text(p.name) && d["price"] == Int(p.price)
    ensures d["stock"] == Int(p.stock)
    ensures d["description"] == TextOrNull(p.description)
    ensures d["category"] == TextOrNull(p.category)
  {
    map["id" := Int(p.id),
        "name" := Text(p.name),
        "description" := TextOrNull(p.description),
        "price" := Int(p.price),
        "stock" := Int(p.stock),
        "category" := TextOrNull(p.category)]
  }

  function OptionalText(v: Value): Option<Option<string>>
  {
    match v
    case Text(s) => Some(Some(s))
    case Null => Some(None)
    case Int(_) => None
  }

  /** Reads a product back from a dictionary of the `to_dict` shape; the
      timestamp, which the dictionary does not hold, is supplied. */
  function FromDict(d: map<string, Value>, createdAt: int): (r: Option<Product>)
    ensures r.Some? ==> d.Keys >= ProductDictKeys && ToDict(r.value) == d - (d.Keys - ProductDictKeys)
  {
    if ProductDictKeys <= d.Keys && d["id"].Int? && d["name"].Text? && d["price"].Int?
       && d["stock"].Int? && OptionalText(d["description"]).Some? && OptionalText(d["category"]).Some?
    then
      var p := Product(d["id"].i, d["name"].s, OptionalText(d["description"]).value,
                       d["price"].i, d["stock"].i, OptionalText(d["category"]).value, createdAt);
      assert ToDict(p) == d - (d.Keys - ProductDictKeys) by {
        var e := d - (d.Keys - ProductDictKeys);
        assert e.Keys == ProductDictKeys;
        forall k | k in ProductDictKeys ensures ToDict(p)[k] == e[k] {
          if k == "description" || k == "category" {
            assert d[k].Text? || d[k].Null?;
          }
        }
      }
      Some(p)
    else None
  }

  /** to_dict loses nothing but the timestamp. */
  lemma ToDictRoundTrip(p: Product)
    ensures FromDict(ToDict(p), p.createdAt) == Some(p)
  {
  }

  /** Two products have the same dictionary exactly when they agree on every
      column other than the timestamp. */
  lemma ToDictEqualIff(p: Product, q: Product)
    ensures ToDict(p) == ToDict(q) <==> p.(createdAt := 0) == q.(createdAt := 0)
  {
    if ToDict(p) == ToDict(q) {
      ToDictRoundTrip(p);
      ToDictRoundTrip(q);
      assert FromDict(ToDict(p), 0) == Some(p.(createdAt := 0));
      assert FromDict(ToDict(q), 0) == Some(q.(createdAt := 0));
    }
  }
}
