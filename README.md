# Mock e-commerce cart, modelled in Dafny

This project models the in-memory shopping cart of a small e-commerce backend
(`backend/server.js`). The server keeps one process-wide, ordered list of cart
lines `{id, name, price, qty}` and looks products up in a five-row catalog table.
Four HTTP handlers act on the cart:

- add or update (`POST /api/cart`);
- remove (`DELETE /api/cart/:id`);
- view (`GET /api/cart`);
- checkout (`POST /api/checkout`). It returns a mock receipt and empties the cart.

The model has three modules:

- `Catalog` (`catalog.dfy`): a product row, the five seed rows, and lookup by
  primary key.
- `Cart` (`cart.dfy`): a cart line, the total (`calculateTotal`), `findIndex` and
  `filter` over the cart, and the receipt projection and order id. It also has each
  cart operation as a pure transition from the old cart to the response and the
  new cart. The lemmas about these operations are here too.
- `Server` (`server.dfy`): the class `CartState`. It holds the catalog table and
  the mutable cart `items`. It has one method per route, written step by step like
  the handler. Each method is proved to produce exactly the response and new cart
  of its transition in `Cart`, and to keep the cart invariant `Valid()`. The
  invariant is: at most one line per product id, and every line is a copy of its
  catalog row.

The catalog table is an explicit parameter of the add operation and a constant
field of `CartState`. This stands in for the database handle. The seeded
instance is `new CartState(SEED)`.

Modelling conventions:

- Prices, subtotals and totals are exact integers.
- A request-body field that is missing is written as `0`. So the add handler's
  check `!productId || !qty` becomes `productId == 0 || qty == 0`.
- The order id's time and the receipt's timestamp are parameters of checkout,
  because they come from the clock.

The intended design and the code disagree at four points. The model follows the
code at each one:

- **Positive quantity.** The design says `qty` must be a positive integer. The code
  only rejects a missing or zero `qty`. So a negative quantity is accepted and
  added to the line (`Cart.NegativeQtyAccepted`), and a line's quantity can fall to
  zero or below without the line being removed. Positive quantities stay positive
  if every add uses a positive `qty` (`Cart.AddKeepsPositive`).
- **Remove.** The design speaks of removing "the" line item. The code filters out
  every line with that id. Under the one-line-per-id invariant this removes exactly
  one line (`Cart.RemoveOne`).
- **Checkout order of steps.** The code computes the total before it checks for an
  empty cart. The model keeps that order. It makes no observable difference.
- **Unique order id.** The design says each checkout gets a unique order id. The
  code builds it as `ORDER-` followed by the millisecond clock reading. Distinct
  milliseconds give distinct ids (`Cart.OrderIdUnique`). Two checkouts in the same
  millisecond get the same id, whatever their carts (`Cart.SameMillisecondSameOrderId`).

## Model

| member | source | states |
|---|---|---|
| `Catalog.Find` | backend/server.js:73-76 | The lookup returns a row of the table carrying the requested id, and returns nothing exactly when no row has that id |
| `Catalog.FindById` | backend/server.js:29-35 | In the seeded catalog exactly the ids 1 to 5 exist, and each resolves to a row carrying that id |
| `Catalog.FindSeedRow` | backend/server.js:29-35 | Each seed row (Top/1000, Jeans/2000, Jewelery/500, Shoes/3000, Bags/5000) is what its own id resolves to |
| `Cart.Total` | backend/server.js:52-54 | The total of the empty cart is 0. With `Cart.TotalSingleton` and `Cart.TotalAppend` this fixes the total of every cart as the sum of price times qty over its lines |
| `Cart.TotalSingleton` | backend/server.js:52-54 | The total of a one-line cart is that line's price times qty |
| `Cart.TotalAppend` | backend/server.js:52-54 | The total of two carts laid end to end is the sum of their totals |
| `Cart.TotalNonNegative` | backend/server.js:52-54 | When every price and quantity is non-negative, the total is non-negative |
| `Cart.FindIndex` | backend/server.js:78 | The index found is the first line carrying the id, and -1 is returned exactly when no line carries it |
| `Cart.Without` | backend/server.js:98 | The filtered cart never grows, is shorter exactly when some line matched, and is the same cart when none did |
| `Cart.WithoutMembers` | backend/server.js:98 | The filtered cart holds exactly the lines whose id differs from the removed one |
| `Cart.WithoutAppend` | backend/server.js:98 | Filtering distributes over concatenation, so the kept lines keep their original relative order |
| `Cart.WithoutUnique` | backend/server.js:98 | In a cart with one line per id, filtering out line k's id yields the cart with just line k cut out |
| `Cart.WithoutKeepsUnique` | backend/server.js:98 | Filtering preserves "at most one line per id" |
| `Cart.ReceiptItems` | backend/server.js:124 | The receipt has one item per cart line, in order, carrying that line's name, qty and price |
| `Cart.ReceiptSumMatchesTotal` | backend/server.js:122-124 | The receipt's own items add up to the cart total reported on the receipt |
| `Cart.Decimal` | backend/server.js:121 | The millisecond count becomes a string of at least one character, made only of the decimal digits 0 to 9 |
| `Cart.DecimalInjective` | backend/server.js:121 | Distinct millisecond counts print as distinct decimal strings |
| `Cart.OrderId` | backend/server.js:121 | An order id is "ORDER-" followed by at least one further character |
| `Cart.OrderIdUnique` | backend/server.js:121 | Two checkouts get the same order id exactly when they happen at the same millisecond |
| `Cart.SameMillisecondSameOrderId` | backend/server.js:113-130 | Two checkouts of non-empty carts at the same millisecond both succeed and get the same order id, whatever their carts and timestamps |
| `Cart.Add` | backend/server.js:67-92 | Missing or zero productId or qty is a 400 with the fixed message and leaves the cart unchanged. An id absent from the catalog is a 404 and leaves it unchanged. Every other request is a 200. For an id already in the cart, the length is kept, that line's qty grows by qty, its id, name and price are kept, and every other line is kept. Otherwise exactly one line with the catalog's name and price and the given qty is appended. The reply carries the new cart. One-line-per-id and lines-copied-from-catalog are preserved |
| `Cart.Remove` | backend/server.js:95-104 | Success (200) happens exactly when some line has the id. The new cart is exactly the old cart filtered by `Cart.Without`, so it holds the old lines with a different id, in their original order. When nothing matched, the result is a 404 with the fixed message and the cart is identical. One-line-per-id is preserved |
| `Cart.RemoveOne` | backend/server.js:98-101 | In a cart with one line per id, a successful remove cuts out exactly the matching line, keeps the rest in order, and lowers the total by that line's subtotal |
| `Cart.RemoveKeepsCatalog` | backend/server.js:98 | Every line left after a remove is still a copy of its catalog row |
| `Cart.Checkout` | backend/server.js:113-130 | An empty cart is exactly the 400 case, with the fixed message and the cart unchanged. Otherwise the status is 200, the cart becomes empty, and the receipt carries the pre-checkout total, the order id for the time, the timestamp and the per-line items |
| `Cart.AddTotal` | backend/server.js:78-89 | A successful add raises the cart total by the catalog price times the quantity added |
| `Cart.AddTwice` | backend/server.js:78-89 | Adding the same catalog product twice with non-zero quantities succeeds both times and leaves exactly one line for it, whose qty grew by the sum of both quantities |
| `Cart.AddKeepsPositive` | backend/server.js:69-89 | With only positive quantities added, every line's quantity stays positive |
| `Cart.NegativeQtyAccepted` | backend/server.js:69 | The validation lets a negative quantity through: adding -1 Top to an empty cart succeeds with a line of qty -1 |
| `Cart.TopFirstAdd` | backend/server.js:78-89 | Adding 2 Tops to the empty cart appends one line with the catalog's name and price and qty 2 |
| `Cart.TopSecondAdd` | backend/server.js:78-89 | Adding 3 Tops to a cart holding 2 Tops raises that line's qty to 5 in place |
| `Cart.TopScenario` | backend/server.js:67-130 | Adding 2 then 3 Tops gives qty 2 (total 2000), then qty 5 (total 5000). Checkout then yields a receipt of 5 Tops at 1000 with total 5000, and the cart is empty with total 0 |
| `Server.CartState.constructor` | backend/server.js:49 | The cart starts empty and satisfies the cart invariant |
| `Server.CartState.PostCart` | backend/server.js:67-92 | The handler's in-place update or append yields exactly the response and new cart of `Cart.Add`, and keeps the invariant |
| `Server.CartState.DeleteCartItem` | backend/server.js:95-104 | Reassigning the filtered cart and comparing lengths yields exactly the response and new cart of `Cart.Remove`, and keeps the invariant |
| `Server.CartState.GetCart` | backend/server.js:107-110 | Viewing succeeds with the current lines and their total, and modifies nothing |
| `Server.CartState.PostCheckout` | backend/server.js:113-130 | The handler yields exactly the response and emptied cart of `Cart.Checkout`, and keeps the invariant |
| `Server.RunTopScenario` | backend/server.js:67-130 | Running the scenario through the handlers on a fresh seeded process yields the 5000 receipt for 5 Tops, then an empty cart view with total 0 |

## Left out

- Express, CORS and body-parser setup, route registration, `app.listen` and console logging: framework plumbing around the handlers.
- The SQLite connection, table creation and the callback-based `db.get`/`db.all`: database I/O. The table is a fixed sequence of rows, so the lookup cannot fail. The `err` half of the add handler's not-found test is therefore not modelled.
- `GET /api/products`: the product listing only relays a database query and touches no cart state.
- Seed-if-empty idempotence (`insertMockProducts`): the model starts from the already seeded table.
- `toFixed(2)` and the REAL price column: totals are exact integers, and their two-decimal string rendering is floating-point formatting.
- JavaScript number arithmetic: quantities and totals are unbounded integers. Fractional, non-numeric or NaN quantities are not representable.
- `Date.now()` and `new Date().toISOString()`: clock reads. Checkout takes the millisecond count and the timestamp string as parameters.
- JavaScript type coercion: ids are integers throughout. This leaves out two behaviours:
  - A string `productId` in the request body (such as `"1"`) would still find the product. It would never equal a stored numeric id under `===`, so repeated adds would append duplicate lines.
  - `parseInt` of a non-numeric path segment gives NaN, which matches no line.
- Concurrency: interleaving of the asynchronous catalog lookup with other requests on the shared cart. Each handler runs to completion in the model.
- Aliasing of the live cart array placed in a response: the reply is serialised at once, so the model's reply holds a copy of the cart value.
