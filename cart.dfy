/** The cart: an ordered sequence of line items, the total over it, and the four
    cart operations as pure transitions from the cart before a request to the
    response and the cart after it. The class in module Server runs these
    transitions on its one mutable cart. */
module Cart {
  import opened Catalog

  /** One cart line: a product's id, name and price copied from the catalog, and
      the quantity ordered so far. */
  datatype LineItem = LineItem(id: int, name: string, price: int, qty: int)

  /** One line of a receipt. The field order follows the receipt's JSON. */
  datatype ReceiptItem = ReceiptItem(name: string, qty: int, price: int)

  /** A checkout receipt. `total` is the exact amount; its two-decimal string
      rendering is not modelled. */
  datatype Receipt = Receipt(orderId: string, total: int, timestamp: string, items: seq<ReceiptItem>)

  /** The body `{message, cart}` returned by add and remove. */
  datatype CartReply = CartReply(message: string, cart: seq<LineItem>)

  /** The body `{items, total}` returned by viewing the cart. */
  datatype CartView = CartView(items: seq<LineItem>, total: int)

  /** A handler's response: a success body, or one of the two error kinds. */
  datatype Response<T> = Ok(body: T) | BadRequest(message: string) | NotFound(message: string)
  {
    /** The HTTP status sent with this response. */
    function Status(): int
    {
      match this
      case Ok(_) => 200
      case BadRequest(_) => 400
      case NotFound(_) => 404
    }
  }

  /** What a request does: the response it gets and the cart it leaves behind. */
  datatype Transition<T> = Transition(response: Response<T>, cart: seq<LineItem>)

  const ADDED_MESSAGE := "Item added/updated successfully"
  const MISSING_FIELDS_MESSAGE := "productId and qty are required."
  const PRODUCT_NOT_FOUND_MESSAGE := "Product not found."
  const REMOVED_MESSAGE := "Item removed successfully"
  const ITEM_NOT_FOUND_MESSAGE := "Item not found in cart."
  const EMPTY_CART_MESSAGE := "Cart is empty. Cannot checkout."
  const ORDER_PREFIX := "ORDER-"

  // ---------------------------------------------------------------------------
  // Totals

  /** What one line contributes to the total. */
  function Subtotal(line: LineItem): int
  {
    line.price * line.qty
  }

  /** The running sum of `price * qty`, folded from the first line to the last and
      starting from 0. */
  function Total(items: seq<LineItem>): (r: int)
    ensures |items| == 0 ==> r == 0
  {
    if items == [] then 0
    else Total(items[..|items| - 1]) + Subtotal(items[|items| - 1])
  }

  /** The total of two carts laid end to end is the sum of their totals. */
  lemma {:induction false} TotalAppend(a: seq<LineItem>, b: seq<LineItem>)
    ensures Total(a + b) == Total(a) + Total(b)
  {
    if b == [] {
      assert a + b == a;
    } else {
      var c := a + b;
      assert c[..|c| - 1] == a + b[..|b| - 1];
      assert c[|c| - 1] == b[|b| - 1];
      TotalAppend(a, b[..|b| - 1]);
    }
  }

  /** The total can also be summed from the first line onwards. */
  lemma TotalCons(line: LineItem, items: seq<LineItem>)
    ensures Total([line] + items) == Subtotal(line) + Total(items)
  {
    TotalAppend([line], items);
    assert [line][..0] == [];
  }

  /** The total of a one-line cart is that line's subtotal. */
  lemma TotalSingleton(line: LineItem)
    ensures Total([line]) == Subtotal(line)
  {
    assert [line][..0] == [];
  }

  /** The total splits around any one line. */
  lemma TotalSplit(items: seq<LineItem>, k: int)
    requires 0 <= k < |items|
    ensures Total(items) == Total(items[..k]) + Subtotal(items[k]) + Total(items[k + 1..])
  {
    var before, line, after := items[..k], items[k], items[k + 1..];
    assert items == (before + [line]) + after;
    TotalAppend(before + [line], after);
    TotalAppend(before, [line]);
    TotalSingleton(line);
  }

  /** Changing one line's quantity by `q` changes the total by that line's price times `q`. */
  lemma TotalAddQty(items: seq<LineItem>, k: int, q: int)
    requires 0 <= k < |items|
    ensures Total(items[k := items[k].(qty := items[k].qty + q)])
         == Total(items) + items[k].price * q
  {
    var line := items[k];
    var updated := items[k := line.(qty := line.qty + q)];
    assert updated[..k] == items[..k] && updated[k + 1..] == items[k + 1..];
    TotalSplit(items, k);
    TotalSplit(updated, k);
    SubtotalAddQty(line, q);
  }

  lemma SubtotalAddQty(line: LineItem, q: int)
    ensures Subtotal(line.(qty := line.qty + q)) == Subtotal(line) + line.price * q
  {
    assert line.price * (line.qty + q) == line.price * line.qty + line.price * q;
  }

  /** When every price and quantity is non-negative, so is the total. */
  lemma {:induction false} TotalNonNegative(items: seq<LineItem>)
    requires forall i :: 0 <= i < |items| ==> items[i].price >= 0 && items[i].qty >= 0
    ensures Total(items) >= 0
  {
    if items != [] {
      TotalNonNegative(items[..|items| - 1]);
    }
  }

  // ---------------------------------------------------------------------------
  // Searching and filtering the cart

  /** The index of the first line carrying `id`, or -1 (`findIndex`). */
  function FindIndex(items: seq<LineItem>, id: int): (r: int)
    ensures -1 <= r < |items|
    ensures r >= 0 ==> items[r].id == id && forall j :: 0 <= j < r ==> items[j].id != id
    ensures r == -1 <==> forall j :: 0 <= j < |items| ==> items[j].id != id
  {
    if items == [] then -1
    else if items[0].id == id then 0
    else
      var k := FindIndex(items[1..], id);
      if k == -1 then -1 else k + 1
  }

  /** The cart's invariant: at most one line per product id. */
  predicate UniqueIds(items: seq<LineItem>)
  {
    forall i, j :: 0 <= i < j < |items| ==> items[i].id != items[j].id
  }

  /** Every line is a copy of the catalog row with its id: same name, same price. */
  predicate FromCatalog(table: seq<Product>, items: seq<LineItem>)
  {
    forall i :: 0 <= i < |items| ==>
      Find(table, items[i].id) == Some(Product(items[i].id, items[i].name, items[i].price))
  }

  /** The lines whose id is not `id`, in their original order (`filter`). */
  function Without(items: seq<LineItem>, id: int): (r: seq<LineItem>)
    ensures |r| <= |items|
    ensures |r| == |items| <==> forall j :: 0 <= j < |items| ==> items[j].id != id
    ensures (forall j :: 0 <= j < |items| ==> items[j].id != id) ==> r == items
  {
    if items == [] then []
    else if items[0].id == id then Without(items[1..], id)
    else [items[0]] + Without(items[1..], id)
  }

  /** The filtered cart holds exactly the lines whose id differs. */
  lemma {:induction false} WithoutMembers(items: seq<LineItem>, id: int)
    ensures forall line :: line in Without(items, id) <==> line in items && line.id != id
  {
    if items != [] {
      WithoutMembers(items[1..], id);
      assert items == [items[0]] + items[1..];
    }
  }

  /** Filtering concatenated carts filters each part, so the kept lines stay in order. */
  lemma {:induction false} WithoutAppend(a: seq<LineItem>, b: seq<LineItem>, id: int)
    ensures Without(a + b, id) == Without(a, id) + Without(b, id)
  {
    if a != [] {
      assert (a + b)[0] == a[0];
      assert (a + b)[1..] == a[1..] + b;
      WithoutAppend(a[1..], b, id);
      if a[0].id != id {
        assert [a[0]] + (Without(a[1..], id) + Without(b, id))
            == ([a[0]] + Without(a[1..], id)) + Without(b, id);
      }
    } else {
      assert a + b == b;
    }
  }

  /** In a cart with one line per id, no line before `k` carries line `k`'s id. */
  lemma NoneBefore(items: seq<LineItem>, k: int)
    requires UniqueIds(items)
    requires 0 <= k < |items|
    ensures Without(items[..k], items[k].id) == items[..k]
  {
    var before := items[..k];
    forall j | 0 <= j < |before|
      ensures before[j].id != items[k].id
    {
      assert before[j] == items[j];
    }
  }

  /** In a cart with one line per id, no line after `k` carries line `k`'s id. */
  lemma NoneAfter(items: seq<LineItem>, k: int)
    requires UniqueIds(items)
    requires 0 <= k < |items|
    ensures Without(items[k + 1..], items[k].id) == items[k + 1..]
  {
    var after := items[k + 1..];
    forall j | 0 <= j < |after|
      ensures after[j].id != items[k].id
    {
      assert after[j] == items[k + 1 + j];
    }
  }

  /** In a cart with one line per id, removing the id of line `k` removes exactly that line. */
  lemma WithoutUnique(items: seq<LineItem>, k: int)
    requires UniqueIds(items)
    requires 0 <= k < |items|
    ensures Without(items, items[k].id) == items[..k] + items[k + 1..]
  {
    var id := items[k].id;
    var before, after := items[..k], items[k + 1..];
    assert items == before + [items[k]] + after;
    NoneBefore(items, k);
    NoneAfter(items, k);
    assert Without([items[k]], id) == [] by {
      assert [items[k]][1..] == [];
    }
    WithoutAppend(before + [items[k]], after, id);
    WithoutAppend(before, [items[k]], id);
    assert before + [] == before;
  }

  /** Dropping one line keeps ids unique. */
  lemma SpliceKeepsUnique(items: seq<LineItem>, k: int)
    requires UniqueIds(items)
    requires 0 <= k < |items|
    ensures UniqueIds(items[..k] + items[k + 1..])
  {

  }

  /** Filtering keeps ids unique. */
  lemma WithoutKeepsUnique(items: seq<LineItem>, id: int)
    ensures UniqueIds(items) ==> UniqueIds(Without(items, id))
  {
    var k := FindIndex(items, id);
    if UniqueIds(items) && k >= 0 {
      WithoutUnique(items, k);
      SpliceKeepsUnique(items, k);
    }
  }

  // ---------------------------------------------------------------------------
  // Receipts and order ids

  /** A receipt line per cart line (`map` over the cart). */
  function ReceiptItems(items: seq<LineItem>): (r: seq<ReceiptItem>)
    ensures |r| == |items|
    ensures forall i :: 0 <= i < |items| ==>
              r[i] == ReceiptItem(items[i].name, items[i].qty, items[i].price)
  {
    if items == [] then []
    else [ReceiptItem(items[0].name, items[0].qty, items[0].price)] + ReceiptItems(items[1..])
  }

  /** The sum of `price * qty` over a receipt's own lines. */
  function ReceiptSum(items: seq<ReceiptItem>): int
  {
    if items == [] then 0 else items[0].price * items[0].qty + ReceiptSum(items[1..])
  }

  /** A receipt's lines add up to the cart total it was built with. */
  lemma {:induction false} ReceiptSumMatchesTotal(items: seq<LineItem>)
    ensures ReceiptSum(ReceiptItems(items)) == Total(items)
  {
    if items != [] {
      ReceiptSumMatchesTotal(items[1..]);
      assert items == [items[0]] + items[1..];
      TotalCons(items[0], items[1..]);
      assert ReceiptItems(items)[1..] == ReceiptItems(items[1..]);
    }
  }

  /** The decimal digits of `n`, most significant first, as a template literal prints it. */
  function Decimal(n: nat): (s: string)
    ensures |s| >= 1
    ensures forall i :: 0 <= i < |s| ==> '0' <= s[i] <= '9'
  {
    if n < 10 then [Digit(n)] else Decimal(n / 10) + [Digit(n % 10)]
  }

  function Digit(d: nat): (c: char)
    requires d < 10
    ensures '0' <= c <= '9'
  {
    ['0', '1', '2', '3', '4', '5', '6', '7', '8', '9'][d]
  }

  lemma DigitInjective(a: nat, b: nat)
    requires a < 10 && b < 10
    ensures Digit(a) == Digit(b) ==> a == b
  {
  }

  /** Distinct numbers have distinct decimal renderings. */
  lemma {:induction false} DecimalInjective(a: nat, b: nat)
    ensures Decimal(a) == Decimal(b) ==> a == b
  {
    if Decimal(a) == Decimal(b) {
      var s := Decimal(a);
      if a < 10 && b < 10 {
        DigitInjective(a, b);
      } else if a >= 10 && b >= 10 {
        assert Decimal(a / 10) == s[..|s| - 1] == Decimal(b / 10);
        DigitInjective(a % 10, b % 10);
        DecimalInjective(a / 10, b / 10);
      }
    }
  }

  /** The order id built from the checkout time, `ORDER-<milliseconds>`. */
  function OrderId(now: nat): (s: string)
    ensures |s| > |ORDER_PREFIX| && s[..|ORDER_PREFIX|] == ORDER_PREFIX
  {
    ORDER_PREFIX + Decimal(now)
  }

  /** Two checkouts get the same order id exactly when they happen at the same millisecond. */
  lemma OrderIdUnique(a: nat, b: nat)
    ensures OrderId(a) == OrderId(b) <==> a == b
  {
    if OrderId(a) == OrderId(b) {
      assert Decimal(a) == OrderId(a)[|ORDER_PREFIX|..];
      assert Decimal(b) == OrderId(b)[|ORDER_PREFIX|..];
      DecimalInjective(a, b);
    }
  }

  // ---------------------------------------------------------------------------
  // The four cart operations

  /** Adding `qty` of product `productId`. A missing or zero field is a bad request;
      an id the catalog lacks is not found; otherwise the existing line's quantity
      grows in place, or a new line is appended. */
  function Add(table: seq<Product>, cart: seq<LineItem>, productId: int, qty: int): (t: Transition<CartReply>)
    ensures t.response.BadRequest? <==> productId == 0 || qty == 0
    ensures t.response.BadRequest? ==> t.response.message == MISSING_FIELDS_MESSAGE
    ensures t.response.NotFound? <==> productId != 0 && qty != 0 && Find(table, productId).None?
    ensures t.response.NotFound? ==> t.response.message == PRODUCT_NOT_FOUND_MESSAGE
    ensures !t.response.Ok? ==> t.cart == cart
    ensures t.response.Ok? ==> t.response.body == CartReply(ADDED_MESSAGE, t.cart)
    ensures t.response.Ok? && FindIndex(cart, productId) >= 0 ==>
              var k := FindIndex(cart, productId);
              && |t.cart| == |cart|
              && t.cart[k].qty == cart[k].qty + qty
              && t.cart[k].id == cart[k].id
              && t.cart[k].name == cart[k].name
              && t.cart[k].price == cart[k].price
              && forall j :: 0 <= j < |cart| && j != k ==> t.cart[j] == cart[j]
    ensures t.response.Ok? && FindIndex(cart, productId) == -1 ==>
              var p := Find(table, productId).value;
              t.cart == cart + [LineItem(productId, p.name, p.price, qty)]
    ensures UniqueIds(cart) ==> UniqueIds(t.cart)
    ensures FromCatalog(table, cart) ==> FromCatalog(table, t.cart)
    ensures t.response.Status()
         == if productId == 0 || qty == 0 then 400
            else if Find(table, productId).None? then 404
            else 200
  {
    if productId == 0 || qty == 0 then
      Transition(BadRequest(MISSING_FIELDS_MESSAGE), cart)
    else match Find(table, productId)
      case None => Transition(NotFound(PRODUCT_NOT_FOUND_MESSAGE), cart)
      case Some(product) =>
        var k := FindIndex(cart, productId);
        var updated :=
          if k > -1 then cart[k := cart[k].(qty := cart[k].qty + qty)]
          else cart + [LineItem(product.id, product.name, product.price, qty)];
        Transition(Ok(CartReply(ADDED_MESSAGE, updated)), updated)
  }

  /** Removing every line with `id`. The filtered cart replaces the old one whether
      or not anything matched; the response is not found when nothing did. */
  function Remove(cart: seq<LineItem>, id: int): (t: Transition<CartReply>)
    ensures t.response.Ok? <==> exists j :: 0 <= j < |cart| && cart[j].id == id
    ensures t.response.Ok? ==> t.response.body == CartReply(REMOVED_MESSAGE, t.cart)
    ensures !t.response.Ok? ==> t.response == NotFound(ITEM_NOT_FOUND_MESSAGE) && t.cart == cart
    ensures forall line :: line in t.cart <==> line in cart && line.id != id
    ensures UniqueIds(cart) ==> UniqueIds(t.cart)
    ensures t.cart == Without(cart, id)
    ensures t.response.Status() == if exists j :: 0 <= j < |cart| && cart[j].id == id then 200 else 404
  {
    var remaining := Without(cart, id);
    WithoutMembers(cart, id);
    WithoutKeepsUnique(cart, id);
    if |remaining| < |cart| then Transition(Ok(CartReply(REMOVED_MESSAGE, remaining)), remaining)
    else Transition(NotFound(ITEM_NOT_FOUND_MESSAGE), remaining)
  }

  /** Checking out at time `now` (milliseconds) with the rendered `timestamp`. An empty
      cart is a bad request and stays as it is; otherwise the receipt lists every line
      and the total, and the cart is emptied. */
  function Checkout(cart: seq<LineItem>, now: nat, timestamp: string): (t: Transition<Receipt>)
    ensures t.response.BadRequest? <==> cart == []
    ensures !t.response.NotFound?
    ensures t.response.BadRequest? ==> t.response.message == EMPTY_CART_MESSAGE && t.cart == cart
    ensures t.response.Ok? ==>
              && t.cart == []
              && t.response.body.total == Total(cart)
              && t.response.body.orderId == OrderId(now)
              && t.response.body.timestamp == timestamp
              && t.response.body.items == ReceiptItems(cart)
    ensures t.response.Status() == if cart == [] then 400 else 200
  {
    var finalTotal := Total(cart);
    if |cart| == 0 then Transition(BadRequest(EMPTY_CART_MESSAGE), cart)
    else
      var receipt := Receipt(OrderId(now), finalTotal, timestamp, ReceiptItems(cart));
      Transition(Ok(receipt), [])
  }

  // ---------------------------------------------------------------------------
  // Properties relating several operations

  /** Any two successful checkouts in the same millisecond get the same order id,
      whatever their carts and timestamps. */
  lemma SameMillisecondSameOrderId(c1: seq<LineItem>, c2: seq<LineItem>, now: nat, ts1: string, ts2: string)
    requires c1 != [] && c2 != []
    ensures Checkout(c1, now, ts1).response.Ok? && Checkout(c2, now, ts2).response.Ok?
    ensures Checkout(c1, now, ts1).response.body.orderId == Checkout(c2, now, ts2).response.body.orderId
  {
  }

  /** A successful add raises the total by the product's price times the quantity added. */
  lemma AddTotal(table: seq<Product>, cart: seq<LineItem>, productId: int, qty: int)
    requires FromCatalog(table, cart)
    requires Add(table, cart, productId, qty).response.Ok?
    ensures Find(table, productId).Some?
    ensures Total(Add(table, cart, productId, qty).cart)
         == Total(cart) + Find(table, productId).value.price * qty
  {
    var t := Add(table, cart, productId, qty);
    var k := FindIndex(cart, productId);
    var p := Find(table, productId).value;
    if k >= 0 {
      assert t.cart == cart[k := cart[k].(qty := cart[k].qty + qty)];
      assert cart[k].price == p.price;
      TotalAddQty(cart, k, qty);
    } else {
      var line := LineItem(productId, p.name, p.price, qty);
      assert t.cart == cart + [line];
      TotalAppend(cart, [line]);
      TotalSingleton(line);
    }
  }

  /** Adding the same product twice leaves one line for it whose quantity grew by the
      sum of both amounts. */
  lemma AddTwice(table: seq<Product>, cart: seq<LineItem>, productId: int, q1: int, q2: int)
    requires UniqueIds(cart)
    requires productId != 0 && q1 != 0 && q2 != 0 && Find(table, productId).Some?
    ensures var t1 := Add(table, cart, productId, q1);
            var t2 := Add(table, t1.cart, productId, q2);
            var k := FindIndex(t2.cart, productId);
            var before := FindIndex(cart, productId);
            && t1.response.Ok? && t2.response.Ok?
            && UniqueIds(t2.cart)
            && k >= 0
            && t2.cart[k].qty == (if before >= 0 then cart[before].qty else 0) + q1 + q2
  {
    var t1 := Add(table, cart, productId, q1);
    var before := FindIndex(cart, productId);
    var mid := FindIndex(t1.cart, productId);
    if before >= 0 {
      assert mid == before;
    } else {
      assert t1.cart[|cart|].id == productId;
      assert mid == |cart|;
    }
  }

  /** In a cart with one line per id, a successful remove takes out exactly the
      matching line, keeps the others in order, and lowers the total by its subtotal. */
  lemma RemoveOne(cart: seq<LineItem>, id: int)
    requires UniqueIds(cart)
    requires FindIndex(cart, id) >= 0
    ensures var k := FindIndex(cart, id);
            var t := Remove(cart, id);
            && t.response.Ok?
            && t.cart == cart[..k] + cart[k + 1..]
            && Total(t.cart) == Total(cart) - Subtotal(cart[k])
  {
    var k := FindIndex(cart, id);
    WithoutUnique(cart, k);
    TotalSplit(cart, k);
    TotalAppend(cart[..k], cart[k + 1..]);
  }

  /** Every line left after a remove is still a copy of its catalog row. */
  lemma RemoveKeepsCatalog(table: seq<Product>, cart: seq<LineItem>, id: int)
    requires FromCatalog(table, cart)
    ensures FromCatalog(table, Remove(cart, id).cart)
  {

  }

  /** Adding a positive quantity keeps every quantity in the cart positive. */
  lemma AddKeepsPositive(table: seq<Product>, cart: seq<LineItem>, productId: int, qty: int)
    requires forall i :: 0 <= i < |cart| ==> cart[i].qty > 0
    requires qty > 0
    ensures var t := Add(table, cart, productId, qty);
            forall i :: 0 <= i < |t.cart| ==> t.cart[i].qty > 0
  {

  }

  /** A negative quantity passes validation: it is added to the cart as it is. */
  lemma NegativeQtyAccepted()
    ensures Add(SEED, [], 1, -1) == Transition(Ok(CartReply(ADDED_MESSAGE, [LineItem(1, "Top", 1000, -1)])),
                                         [LineItem(1, "Top", 1000, -1)])
  {
    FindSeedRow(0);
    assert Find(SEED, 1) == Some(Product(1, "Top", 1000));
    var t := Add(SEED, [], 1, -1);
    assert FindIndex([], 1) == -1;
    assert t.cart == [] + [LineItem(1, "Top", 1000, -1)] == [LineItem(1, "Top", 1000, -1)];
  }

  /** The first step of the scenario: two Tops into the empty cart. */
  lemma TopFirstAdd()
    ensures Add(SEED, [], 1, 2).cart == [LineItem(1, "Top", 1000, 2)]
  {
    FindSeedRow(0);
    assert Find(SEED, 1) == Some(Product(1, "Top", 1000));
    assert FindIndex([], 1) == -1;
    assert [] + [LineItem(1, "Top", 1000, 2)] == [LineItem(1, "Top", 1000, 2)];
  }

  /** The second step of the scenario: three more Tops onto the existing line. */
  lemma TopSecondAdd()
    ensures Add(SEED, [LineItem(1, "Top", 1000, 2)], 1, 3).cart == [LineItem(1, "Top", 1000, 5)]
  {
    FindSeedRow(0);
    assert Find(SEED, 1) == Some(Product(1, "Top", 1000));
    assert FindIndex([LineItem(1, "Top", 1000, 2)], 1) == 0;
  }

  /** Adding Top twice and checking out: quantities 2 then 5, totals 2000 then 5000,
      a receipt for 5 Tops at 5000, and an empty cart afterwards. */
  lemma TopScenario(now: nat, timestamp: string)
    ensures var t1 := Add(SEED, [], 1, 2);
            var t2 := Add(SEED, t1.cart, 1, 3);
            var t3 := Checkout(t2.cart, now, timestamp);
            && t1.cart == [LineItem(1, "Top", 1000, 2)] && Total(t1.cart) == 2000
            && t2.cart == [LineItem(1, "Top", 1000, 5)] && Total(t2.cart) == 5000
            && t3.response == Ok(Receipt(OrderId(now), 5000, timestamp, [ReceiptItem("Top", 5, 1000)]))
            && t3.cart == [] && Total(t3.cart) == 0
  {
    TopFirstAdd();
    TopSecondAdd();
    var line := LineItem(1, "Top", 1000, 5);
    TotalSingleton(LineItem(1, "Top", 1000, 2));
    TotalSingleton(line);
    assert ReceiptItems([line]) == [ReceiptItem("Top", 5, 1000)];
  }
}
