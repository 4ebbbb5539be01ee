# Cart and checkout of the terminal storefront

A Dafny model of the shopping-cart core of the terminal e-commerce shop. It
covers three parts of the source:

- `ECommerceTerminal` in `app.py`: adding a product to the cart, changing a
  line's quantity, removing a line, clearing the cart and checking out;
- the running total that `display_cart_table` in `utils.py` adds up;
- the `Product`, `CartItem` and `Order` records of `models.py`, with their
  column defaults and `Product.to_dict`.

The database the terminal talks to becomes the fields of the class
`Storefront.ECommerceTerminal`:

- the product table, a map from id to `Product`;
- the cart table, a sequence of `CartItem` in id order;
- the order list;
- the next line id and the next order id.

Every public operation (the constructor, adding, updating, removing,
clearing and checking out) keeps the invariant `Valid()`. It says:

- each product is stored under its own id, and no stock is below zero;
- cart line ids are unique and increasing;
- every line has a positive quantity and names an existing product;
- there is at most one line per (session, product) pair;
- every order is `completed`.

The terminal's session id, the answers typed at the prompts and the current
time are arguments. Prices and totals are whole cents, so every sum is
exact.

Files:

- `models.dfy` (module `Models`): the records, their defaults, and `to_dict`
  with its inverse.
- `utils.dfy` (module `CartTable`): a cart line joined with its product, the
  subtotal, the total, and the loop that computes the total.
- `input.dfy` (module `Input`): Python's `str.strip` and `str.lower` as the
  checkout prompts use them.
- `cart.dfy` (module `CartStore`): the ORM queries on the cart table as
  functions, the table invariants, and the lemmas saying that each change
  keeps them.
- `storefront.dfy` (module `Storefront`): the terminal class and its
  operations.
- `scenarios.dfy` (module `Scenarios`): call sequences whose outcomes are
  proved from the operations' contracts alone.

## Model

| member | source | states |
|---|---|---|
| Models.NewProduct | models.py:4-12 | A new product keeps the given id, name, price, description and category. Its stock is 0 when none is given. Its timestamp is the creation time. |
| Models.NewCartItem | models.py:27-32 | A new cart line keeps its id, product and session. Its quantity is 1 when none is given. |
| Models.NewOrder | models.py:39-45 | A new order keeps its id, customer and total. Its status is `pending` unless one is given. Its timestamp is the creation time. |
| Models.ToDict | models.py:17-25 | The dictionary has exactly the keys id, name, description, price, stock and category, each holding that column. `created_at` is absent. An unset nullable column maps to null. |
| Models.FromDict | models.py:17-25 | A dictionary that is read back gives a product whose `to_dict` equals that dictionary restricted to the six keys. |
| Models.ToDictRoundTrip | models.py:17-25 | Reading back `to_dict(p)` with p's timestamp gives p: the dictionary loses nothing else. |
| Models.ToDictEqualIff | models.py:17-25 | Two products have equal dictionaries if and only if they agree on every column except `created_at`. |
| CartTable.Subtotal | utils.py:55 | A line's subtotal is its product's unit price times its quantity. |
| CartTable.Total | utils.py:53-56 | The cart total is the sum of the subtotals, added in list order; it is the specification the total loop is proved against. |
| CartTable.DisplayCartTotal | utils.py:41-66 | The loop returns no total for an empty cart. Otherwise it returns the sum of price × quantity over the lines, added in list order, and it changes nothing. |
| CartTable.TotalAppend | utils.py:53-56 | The total of two carts joined is the sum of their totals. |
| CartTable.TotalRotate | utils.py:53-56 | Moving the first line to the end does not change the total. |
| CartTable.TotalRemove | utils.py:53-56 | Taking one line out of a cart lowers the total by exactly that line's subtotal. |
| CartTable.TotalPermutation | utils.py:53-56 | Any reordering of the lines (same lines, same multiplicities) gives the same total, so the order in which the query returns lines does not affect the total. |
| CartTable.TotalNonNegative | utils.py:53-56 | With non-negative prices and quantities the total is non-negative. |
| Input.IsSpace | app.py:261 | A character is white space exactly when Python's `str.isspace` says so: TAB..CR, FS..SPACE, NEL, NO-BREAK SPACE, OGHAM SPACE MARK, U+2000..U+200A, the line and paragraph separators, U+202F, U+205F and U+3000. |
| Input.SkipSpaces | app.py:261 | The left scan of `strip` stops at the first character that is not white space. Every character it skipped is white space. |
| Input.SkipSpacesBack | app.py:261 | The right scan of `strip` stops after the last character that is not white space. Every character it skipped is white space. |
| Input.Strip | app.py:261 | The stripped name is a slice of the input with only white space before and after it. It neither starts nor ends with white space. It is empty exactly when the input is all white space. |
| Input.StripTrimmed | app.py:261 | Stripping a string with no white space at either end returns it unchanged. |
| Input.StripIdempotent | app.py:261 | Stripping twice is the same as stripping once. |
| Input.IsBlank | app.py:261-262 | A name is refused when nothing is left of it once it is stripped. |
| Input.Lower | app.py:267 | Lowering keeps the length and lowers each character on its own. |
| Input.ConfirmsOrder | app.py:267-269 | The order is confirmed when the stripped, lower-cased answer is exactly `y`. |
| Input.ConfirmsOrderIff | app.py:267-269 | An answer confirms the order if and only if, once stripped, it is `y` or `Y`. |
| CartStore.ItemIndex | app.py:200 | The lookup by primary key finds the line with that id, or reports that no line has it. |
| CartStore.OwnedIndex | app.py:200-204 | The line is found if and only if the line with that id belongs to the session. A line of another session counts as absent. |
| CartStore.LineIndex | app.py:137-140 | The query finds the first line for the (session, product) pair, or reports that no line matches. |
| CartStore.SessionLines | app.py:249-251 | The joined query lists a line if and only if it belongs to the session and its product exists. Each listed line carries its catalogue product. With increasing table ids the listed ids increase too, so each line appears once, in table order. |
| CartStore.OtherSessions | app.py:238-241 | After the delete, a line remains if and only if it belongs to another session. With increasing table ids the remaining ids increase too, so each kept line appears once, in table order. |
| CartStore.Decremented | app.py:277-278 | The decrement loop keeps the same product ids. |
| CartStore.DecrementedAt | app.py:277-278 | After the loop, each product has lost exactly the quantity the lines ask for, and nothing else about it has changed. |
| CartStore.QuantityForAbsent | app.py:277-278 | A product no line names loses nothing. |
| CartStore.QuantityForSingle | app.py:277-278 | When each product has at most one line, a product loses exactly its line's quantity. |
| CartStore.SessionLinesDistinct | app.py:137-150 | Given one line per (session, product), a session's checkout lines name each product at most once. |
| CartStore.CommitKeepsValid | app.py:276-290 | A checkout that passed validation keeps the catalogue keyed and the cart invariant holding once the session's lines are deleted. |
| CartStore.StockNonNegative | app.py:271-278 | No product's stock is below zero; part of the terminal's invariant. |
| CartStore.StockTakenKeepsNonNegative | app.py:271-278 | Taking a validated checkout's stock from a catalogue with no negative stock leaves no negative stock. |
| CartStore.StockTaken | app.py:277-278 | After the commit loop every product keeps its id; a product no line names is unchanged, and a product a line names has lost exactly that line's quantity, nothing else, and is not below zero. |
| CartStore.CommitStock | app.py:271-278 | When the lines name distinct products and each asks for 1..stock units, the commit loop keeps each product under its own id and leaves the catalogue as `StockTaken` describes. |
| CartStore.SessionLinesReady | app.py:249-251 | A session's lines in a valid cart that passed the stock check name distinct catalogue products, carry them, and ask for 1..stock units each. |
| CartStore.CartValidSameKeys | app.py:277-278 | Changing stock, with the product ids left unchanged, keeps the cart invariant. |
| CartStore.RecordKeepsValid | app.py:280-285 | Recording a `completed` order under the next id keeps the order list's invariant. |
| CartStore.AppendKeepsValid | app.py:142-150 | A new line for a pair that has no line yet keeps one line per (session, product), with increasing ids. |
| CartStore.SetQuantityKeepsValid | app.py:143 | Setting one line's quantity to a positive number keeps the cart invariant. |
| CartStore.RemoveAtKeepsValid | app.py:231-232 | Deleting one line keeps the cart invariant. |
| CartStore.OtherSessionsKeepsValid | app.py:238-244 | Deleting every line of one session keeps the cart invariant. |
| CartStore.AllInStock | app.py:271-274 | The stock check passes when no line asks for more than its product's stock. |
| Storefront.FirstShortLine | app.py:271-274 | The validation loop finds a line short of stock if and only if one exists. It returns the first such line, and every line before it is in stock. |
| Storefront.Refusal | app.py:253-274 | The checkout's refusals in the source's order: empty cart, blank name, an answer other than `y`, then the first line short of stock, named by its product. No refusal exactly when all four checks pass. |
| Storefront.ECommerceTerminal.constructor | app.py:29-31 | A terminal over a fresh database: the given catalogue (keyed by id, no negative stock), an empty cart, no orders, and ids handed out from 1. It satisfies the invariant. |
| Storefront.ECommerceTerminal.AddToCart | app.py:113-153 | The errors come in the source's order: unknown product, out of stock, quantity ≤ 0, quantity above stock. On an error the cart is unchanged. On success, an existing line for the pair grows by the quantity without a new stock check, or else one new line is appended. Products and orders never change. |
| Storefront.ECommerceTerminal.UpdateCartItem | app.py:197-220 | A missing line or one owned by another session gives "not found". A new quantity must lie in 1..stock. On success only that line's quantity changes. On an error nothing changes. |
| Storefront.ECommerceTerminal.RemoveCartItem | app.py:222-233 | An owned line is deleted and nothing else changes. A missing line or one owned by another session gives "not found" and changes nothing. |
| Storefront.ECommerceTerminal.ClearCart | app.py:235-244 | Every line of the session is deleted and every other line is kept in order. It never fails, even on an empty cart. Products and orders are unchanged. |
| Storefront.ECommerceTerminal.TakeStock | app.py:277-278 | Each line's product loses that line's quantity, one line after another. |
| Storefront.ECommerceTerminal.DeductStock | app.py:277-278 | Only the product table changes: it becomes `Decremented` and satisfies `StockTaken`, and the invariant, stock ≥ 0 included, is kept. |
| Storefront.ECommerceTerminal.RecordOrder | app.py:280-290 | One `completed` order is appended under the next id and every line of the session is deleted; the product table is untouched and the invariant is kept. |
| Storefront.ECommerceTerminal.Commit | app.py:276-290 | Stock is taken as `StockTaken` describes, exactly one `completed` order is appended under the next id, and the session's lines are deleted. The invariant is kept. |
| Storefront.ECommerceTerminal.Checkout | app.py:246-294 | Checkout refuses, in order: an empty cart, a blank name, an answer other than `y`, and a line short of stock, the last with `NotEnoughStock` naming the first short line's product. A refusal changes nothing. Otherwise it appends one `completed` order for the stripped name and the cart total. A product no line names is unchanged; a named product loses exactly its line's quantity and stays ≥ 0. Only this session's lines are deleted. |
| Scenarios.AddTwice | app.py:137-143 | Adding a product twice gives one line holding the sum of the two quantities. |
| Scenarios.OtherSessionLocked | app.py:202-204 | Another session can neither update nor remove a line, and that line keeps its quantity. |
| Scenarios.EmptyCartRefused | app.py:253-255 | Checking out an empty cart is refused and records no order. |
| Scenarios.TwoLineCart | app.py:113-153 | Two adds of different products give two lines with ids 1 and 2. |
| Scenarios.TwoLineView | app.py:249-258 | The checkout view of that cart totals 36.50, is within stock, and leaves 8 and 7 units once committed. |
| Scenarios.AdaConfirms | app.py:261-269 | `Ada` is a valid name and `y` confirms an order. |
| Scenarios.TwoLineOrder | app.py:246-294 | Checking out 2 × 10.00 and 3 × 5.50 places a `completed` order of 36.50 for `Ada`. It leaves 8 and 7 units in stock and empties the cart. |

## Left out

- The menus and prompts (`main_menu`, `browse_products`, `view_cart`, `view_product_details`, `view_orders`, `place_order`, `run`, the screen helpers and the table rendering) are terminal I/O. The model passes the typed answers as arguments instead.
- The `running` flag belongs to the menu loop and is not modelled.
- `search_products` is not modelled. It is a SQL query over float prices.
- The Flask API and the ORM/SQLite setup are not modelled. A database commit becomes the assignment of the new state.
- `init_database` and `load_sample_data` only seed constant data. The constructor takes a catalogue instead.
- The admin operations (`add_product`, `update_product`, `delete_product`) and their password gate are not modelled. So stock ≥ 0 and "every line names an existing product", both part of the invariant, are shown to hold across the cart and checkout operations only. Admin edits can set any stock and can delete a product that cart lines still name.
- The `uuid` session id and the `datetime.utcnow` timestamps become arguments: `session` and `now`.
- Prices and totals are whole cents, not floats. `float` rounding and `:.2f` formatting are not modelled.
- Ids come from counters that start at 1. SQLite may reuse the largest id after that row is deleted, and that reuse is not modelled.
- Quantity and id prompts become integer arguments. Text that fails `isdigit` takes the same branch as a number ≤ 0 ("Invalid quantity"); in the menus it is ignored before the operation runs.
- Input.Lower: lower-cases ASCII letters only, not the full Unicode case mapping of `str.lower`. The only answer compared is `y`, and no other character lowers to `y`.
- CartItem's `session_id` column is nullable. The model always gives a line a session, since every line the terminal creates has one.
- The checkout query of app.py:249-251 names no row order. The model takes the table's id order, SQLite's usual plan. Only which product a `NotEnoughStock` refusal names depends on this; the exact total does not (`TotalPermutation`).
- A new terminal starts from a fresh database. The SQLite file persists between runs, so a real terminal can find other sessions' lines and earlier orders; every operation is proved for any state satisfying the invariant, which covers that case.
- Concurrency and locking are not modelled; the source is single-threaded.
- `tests/test_app.py` only exercises the HTTP route and an ORM round-trip, so it is not modelled.
