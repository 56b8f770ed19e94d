/** The request handlers and the one process-wide cart they share. Each handler
    method runs to completion on the cart (no interleaving), performs the same
    steps as its route, and is proved to do what the matching transition in
    module Cart describes. */
module Server {
  import opened Catalog
  import opened Cart

  /** The mutable cart state together with the catalog table the handlers read. */
  class CartState {
    const catalog: seq<Product>
    var items: seq<LineItem>

    /** At most one line per product id, and every line copied from its catalog row. */
    ghost predicate Valid()
      reads this
    {
      UniqueIds(items) && FromCatalog(catalog, items)
    }

    /** The cart starts empty when the process starts. */
    constructor (catalog: seq<Product>)
      ensures Valid()
      ensures this.catalog == catalog && items == []
    {
      this.catalog := catalog;
      items := [];
    }

    /** POST /api/cart with body `{productId, qty}`. */
    method PostCart(productId: int, qty: int) returns (r: Response<CartReply>)
      requires Valid()
      modifies this
      ensures Valid()
      ensures Transition(r, items) == Add(catalog, old(items), productId, qty)
    {
      ghost var expected := Add(catalog, items, productId, qty);
      if productId == 0 || qty == 0 {
        return BadRequest(MISSING_FIELDS_MESSAGE);
      }
      var product := Find(catalog, productId);
      if product.None? {
        return NotFound(PRODUCT_NOT_FOUND_MESSAGE);
      }
      var existingItemIndex := FindIndex(items, productId);
      if existingItemIndex > -1 {
        items := items[existingItemIndex := items[existingItemIndex].(qty := items[existingItemIndex].qty + qty)];
      } else {
        var p := product.value;
        items := items + [LineItem(p.id, p.name, p.price, qty)];
      }
      r := Ok(CartReply(ADDED_MESSAGE, items));
      assert Transition(r, items) == expected;
    }

    /** DELETE /api/cart/:id. */
    method DeleteCartItem(id: int) returns (r: Response<CartReply>)
      requires Valid()
      modifies this
      ensures Valid()
      ensures Transition(r, items) == Remove(old(items), id)
    {
      RemoveKeepsCatalog(catalog, items, id);
      var initialLength := |items|;
      items := Without(items, id);
      if |items| < initialLength {
        return Ok(CartReply(REMOVED_MESSAGE, items));
      }
      r := NotFound(ITEM_NOT_FOUND_MESSAGE);
    }

    /** GET /api/cart: the current lines and their total, changing nothing. */
    method GetCart() returns (r: Response<CartView>)
      requires Valid()
      ensures r.Ok? && r.body.items == items && r.body.total == Total(items)
    {
      var total := Total(items);
      r := Ok(CartView(items, total));
    }

    /** POST /api/checkout at time `now` (milliseconds) with the rendered `timestamp`. */
    method PostCheckout(now: nat, timestamp: string) returns (r: Response<Receipt>)
      requires Valid()
      modifies this
      ensures Valid()
      ensures Transition(r, items) == Checkout(old(items), now, timestamp)
    {
      var finalTotal := Total(items);
      if |items| == 0 {
        return BadRequest(EMPTY_CART_MESSAGE);
      }
      var receipt := Receipt(OrderId(now), finalTotal, timestamp, ReceiptItems(items));
      items := [];
      r := Ok(receipt);
    }
  }

  /** A fresh process over the seeded catalog: add two Tops, add three more, check
      out, then view the cart. */
  method RunTopScenario(now: nat, timestamp: string)
    returns (receipt: Response<Receipt>, view: Response<CartView>)
    ensures receipt == Ok(Receipt(OrderId(now), 5000, timestamp, [ReceiptItem("Top", 5, 1000)]))
    ensures view == Ok(CartView([], 0))
  {
    var state := new CartState(SEED);
    var r1 := state.PostCart(1, 2);
    var r2 := state.PostCart(1, 3);
    receipt := state.PostCheckout(now, timestamp);
    Cart.TopScenario(now, timestamp);
    view := state.GetCart();
  }
}
