/**
 The single cart of the store and the `POST /carts/add-to-cart` transition on it:
 request validation, appending or merging a line item, and recomputing the
 subtotal, tax, delivery fee and total. The cart is a value; a handler step
 returns the cart the store holds afterwards.
 */
module CartStore {
  import opened Results
  import opened Money
  import opened Catalog

  /** One cart line: a snapshot of the product taken at its first add, with the
      accumulated quantity and the line total in cents. */
  datatype LineItem = LineItem(id: string, name: string, imageUrl: string, price: nat,
                               quantity: int, total: int, stock: int)

  /** The cart: line items in insertion order and the derived amounts, all in cents. */
  datatype Cart = Cart(items: seq<LineItem>, subtotal: int, tax: int, deliveryFee: int, total: int)

  /** A field of the JSON request body, as far as the validation can tell values apart.
      Numbers are integers here. */
  datatype JsonValue = Undefined | Null | Bool(b: bool) | Num(n: int) | Str(text: string) | Composite

  /** The three ways an add-to-cart request is rejected. */
  datatype CartError = InvalidPayload | ProductIdNotFound | OutOfStock

  /** The message of the error reply: each error kind has its own fixed text. */
  function Message(e: CartError): (m: string)
    ensures m == "invalid payload" <==> e.InvalidPayload?
    ensures m == "product id not found" <==> e.ProductIdNotFound?
    ensures m == "Stok habis." <==> e.OutOfStock?
  {
    match e
    case InvalidPayload => "invalid payload"
    case ProductIdNotFound => "product id not found"
    case OutOfStock => "Stok habis."
  }

  /** JavaScript truthiness (`!v` is its negation): the falsy values are `undefined`,
      `null`, `false`, `0` and the empty string. */
  function Truthy(v: JsonValue): (b: bool)
    ensures !b <==> v in {Undefined, Null, Bool(false), Num(0), Str("")}
  {
    match v
    case Undefined => false
    case Null => false
    case Bool(b) => b
    case Num(n) => n != 0
    case Str(s) => s != ""
    case Composite => true
  }

  /** The requests the validation lets through: a non-empty string id and a non-zero
      number quantity. Negative quantities pass. */
  function WellFormed(id: JsonValue, quantity: JsonValue): (b: bool)
    // the same verdict as the four-way test of the handler
    ensures b <==> Truthy(id) && Truthy(quantity) && id.Str? && quantity.Num?
  {
    id.Str? && id.text != "" && quantity.Num? && quantity.n != 0
  }

  /** At most one line per product id. */
  ghost predicate UniqueIds(items: seq<LineItem>)
  {
    forall i, j :: 0 <= i < j < |items| ==> items[i].id != items[j].id
  }

  /** The amounts of `c` are those the add-to-cart handler derives from its lines. */
  ghost predicate AggregatesDerived(c: Cart)
  {
    && c.subtotal == SumTotals(c.items)
    && c.tax == Tax(c.subtotal)
    && c.deliveryFee == DeliveryFee
    && c.total == c.subtotal + c.tax + c.deliveryFee
  }

  /** `items` is `before` with `q` added to the quantity of every line for `id`
      and nothing else changed, the line totals included. */
  ghost predicate MergedInto(before: seq<LineItem>, items: seq<LineItem>, id: string, q: int)
  {
    && |items| == |before|
    && forall i :: 0 <= i < |before| ==>
         items[i] == if before[i].id == id then before[i].(quantity := before[i].quantity + q) else before[i]
  }

  /** `carts.items.find((item) => item.id === id) !== undefined`. */
  function HasLine(items: seq<LineItem>, id: string): (b: bool)
    ensures b <==> exists i :: 0 <= i < |items| && items[i].id == id
  {
    if items == [] then false
    else items[0].id == id || HasLine(items[1..], id)
  }

  /** The reduce over the line `total` fields, starting from 0. */
  function SumTotals(items: seq<LineItem>): (sum: int)
    // each step of the reduce adds the current line's total to the previous sum
    ensures items == [] ==> sum == 0
    ensures items != [] ==> sum == SumTotals(items[..|items| - 1]) + items[|items| - 1].total
  {
    if items == [] then 0
    else
      assert |items| > 1 ==> items[..|items| - 1][1..] == items[1..][..|items| - 2];
      items[0].total + SumTotals(items[1..])
  }

  /** The `map` that adds `q` to the quantity of the lines for `id`, leaving their `total` as it was. */
  function MergeQuantity(items: seq<LineItem>, id: string, q: int): (r: seq<LineItem>)
    ensures MergedInto(items, r, id, q)
  {
    if items == [] then []
    else
      var head := if items[0].id == id then items[0].(quantity := items[0].quantity + q) else items[0];
      [head] + MergeQuantity(items[1..], id, q)
  }

  /** The cart holding `items` with its amounts recomputed. */
  function Recompute(items: seq<LineItem>): (c: Cart)
    ensures c.items == items && AggregatesDerived(c)
  {
    var subtotal := SumTotals(items);
    var tax := Tax(subtotal);
    Cart(items, subtotal, tax, DeliveryFee, subtotal + tax + DeliveryFee)
  }

  /** The line a first add of `q` units of `p` creates: a snapshot of the product with
      line total price × q. */
  function Snapshot(p: Product, q: int): LineItem
  {
    LineItem(p.id, p.name, p.imageUrl, p.price, q, p.price * q, p.stock)
  }

  /** `POST /carts/add-to-cart` with body `{id, quantity}` against `cart`: the new cart or the error. */
  function AddToCart(catalog: seq<Product>, cart: Cart, id: JsonValue, quantity: JsonValue): (r: Result<Cart, CartError>)
    // validation order: payload, then unknown id, then empty stock
    ensures r == Err(InvalidPayload) <==> !WellFormed(id, quantity)
    ensures r == Err(ProductIdNotFound) <==>
      WellFormed(id, quantity) && forall i :: 0 <= i < |catalog| ==> catalog[i].id != id.text
    ensures r == Err(OutOfStock) <==>
      WellFormed(id, quantity) && FindProduct(catalog, id.text).Some? && FindProduct(catalog, id.text).value.stock == 0
    // a new product id appends one snapshot line at the end
    ensures r.Ok? && !HasLine(cart.items, id.text) ==>
      var p := FindProduct(catalog, id.text).value;
      && |r.value.items| == |cart.items| + 1
      && r.value.items[..|cart.items|] == cart.items
      && r.value.items[|cart.items|] == Snapshot(p, quantity.n)
    // a known product id only grows the quantity of its line
    ensures r.Ok? && HasLine(cart.items, id.text) ==> MergedInto(cart.items, r.value.items, id.text, quantity.n)
    // the amounts follow from the lines
    ensures r.Ok? ==> AggregatesDerived(r.value)
  {
    if !Truthy(id) || !Truthy(quantity) || !id.Str? || !quantity.Num? then Err(InvalidPayload)
    else match FindProduct(catalog, id.text)
      case None => Err(ProductIdNotFound)
      case Some(p) =>
        if p.stock == 0 then Err(OutOfStock)
        else
          var lineTotal := p.price * quantity.n;
          var items :=
            if !HasLine(cart.items, id.text) then
              cart.items + [LineItem(id.text, p.name, p.imageUrl, p.price, quantity.n, lineTotal, p.stock)]
            else MergeQuantity(cart.items, id.text, quantity.n);
          Ok(Recompute(items))
  }

  /** What the client receives from the add-to-cart endpoint. */
  datatype Reply = Success | Failure(message: string)

  /** The cart the store holds after a request, and the reply sent. */
  datatype Step = Step(cart: Cart, reply: Reply)

  /** The handler: apply the add, or leave the stored cart untouched and reply with the error. */
  function HandleAddToCart(catalog: seq<Product>, cart: Cart, id: JsonValue, quantity: JsonValue): (s: Step)
    ensures s.reply.Failure? <==> !WellFormed(id, quantity) || FindProduct(catalog, id.text).None?
                                  || FindProduct(catalog, id.text).value.stock == 0
    ensures s.reply.Failure? ==> s.cart == cart
    ensures !WellFormed(id, quantity) ==> s.reply == Failure("invalid payload")
    ensures WellFormed(id, quantity) && FindProduct(catalog, id.text).None? ==> s.reply == Failure("product id not found")
    ensures WellFormed(id, quantity) && FindProduct(catalog, id.text).Some? && FindProduct(catalog, id.text).value.stock == 0
            ==> s.reply == Failure("Stok habis.")
    ensures s.reply.Success? ==> AddToCart(catalog, cart, id, quantity) == Ok(s.cart) && AggregatesDerived(s.cart)
  {
    match AddToCart(catalog, cart, id, quantity)
    case Ok(c) => Step(c, Success)
    case Err(e) => Step(cart, Failure(Message(e)))
  }

  /** `GET /carts/total-items`: the number of lines, whatever their quantities. With one
      line per product that is the number of distinct products in the cart. */
  function TotalItems(cart: Cart): (n: nat)
    ensures n == 0 <==> cart.items == []
    ensures UniqueIds(cart.items) ==> n == |LineIds(cart.items)|
  {
    assert UniqueIds(cart.items) ==> |cart.items| == |LineIds(cart.items)| by {
      if UniqueIds(cart.items) {
        TotalItemsCountsProducts(cart.items);
      }
    }
    |cart.items|
  }

  /** The set of product ids that have a line. */
  function LineIds(items: seq<LineItem>): (ids: set<string>)
    ensures forall id :: id in ids <==> exists i :: 0 <= i < |items| && items[i].id == id
  {
    if items == [] then {} else {items[0].id} + LineIds(items[1..])
  }

  // ---------------------------------------------------------------------------
  // Properties of the add-to-cart transition
  // ---------------------------------------------------------------------------

  /** The sum of the line totals grows by the total of an appended line. */
  lemma {:induction false} SumTotalsAppend(items: seq<LineItem>, line: LineItem)
    ensures SumTotals(items + [line]) == SumTotals(items) + line.total
    decreases |items|
  {
    if items != [] {
      assert (items + [line])[1..] == items[1..] + [line];
      SumTotalsAppend(items[1..], line);
    }
  }

  /** Merging quantities leaves the sum of the line totals as it was. */
  lemma {:induction false} MergeKeepsSumTotals(items: seq<LineItem>, id: string, q: int)
    ensures SumTotals(MergeQuantity(items, id, q)) == SumTotals(items)
    decreases |items|
  {
    if items != [] {
      MergeKeepsSumTotals(items[1..], id, q);
    }
  }

  /** Every add keeps at most one line per product id. */
  lemma AddPreservesUniqueIds(catalog: seq<Product>, cart: Cart, id: JsonValue, quantity: JsonValue)
    requires UniqueIds(cart.items)
    requires AddToCart(catalog, cart, id, quantity).Ok?
    ensures UniqueIds(AddToCart(catalog, cart, id, quantity).value.items)
  {
    var items := AddToCart(catalog, cart, id, quantity).value.items;
    if HasLine(cart.items, id.text) {
      assert forall i :: 0 <= i < |items| ==> items[i].id == cart.items[i].id;
    } else {
      assert forall i :: 0 <= i < |cart.items| ==> items[i] == cart.items[i];
    }
  }

  /** Every add keeps the existing lines at their positions, with the same product ids. */
  lemma AddPreservesOrder(catalog: seq<Product>, cart: Cart, id: JsonValue, quantity: JsonValue)
    requires AddToCart(catalog, cart, id, quantity).Ok?
    ensures var items := AddToCart(catalog, cart, id, quantity).value.items;
      && |items| >= |cart.items|
      && forall i :: 0 <= i < |cart.items| ==> items[i].id == cart.items[i].id
  {
    var items := AddToCart(catalog, cart, id, quantity).value.items;
    assert WellFormed(id, quantity);
    if !HasLine(cart.items, id.text) {
      assert items[..|cart.items|] == cart.items;
      forall i | 0 <= i < |cart.items|
        ensures items[i].id == cart.items[i].id
      {
        assert items[i] == items[..|cart.items|][i];
      }
    } else {
      assert MergedInto(cart.items, items, id.text, quantity.n);
    }
  }

  /** Adding a product already in the cart keeps the number of lines and, because the
      merged line keeps its old total, the subtotal is the sum of the old line totals. */
  lemma AddExistingKeepsSubtotal(catalog: seq<Product>, cart: Cart, id: string, q: int)
    requires AddToCart(catalog, cart, Str(id), Num(q)).Ok?
    requires HasLine(cart.items, id)
    ensures TotalItems(AddToCart(catalog, cart, Str(id), Num(q)).value) == TotalItems(cart)
    ensures AddToCart(catalog, cart, Str(id), Num(q)).value.subtotal == SumTotals(cart.items)
  {
    MergeKeepsSumTotals(cart.items, id, q);
  }

  /** Adding a product not yet in the cart adds one line and its price times quantity to the subtotal. */
  lemma AddNewRaisesSubtotal(catalog: seq<Product>, cart: Cart, id: string, q: int)
    requires AddToCart(catalog, cart, Str(id), Num(q)).Ok?
    requires !HasLine(cart.items, id)
    ensures TotalItems(AddToCart(catalog, cart, Str(id), Num(q)).value) == TotalItems(cart) + 1
    ensures AddToCart(catalog, cart, Str(id), Num(q)).value.subtotal
            == SumTotals(cart.items) + FindProduct(catalog, id).value.price * q
  {
    var p := FindProduct(catalog, id).value;
    SumTotalsAppend(cart.items, LineItem(id, p.name, p.imageUrl, p.price, q, p.price * q, p.stock));
  }

  /** Adding `q1` and then `q2` of a product that has no line yet leaves exactly one line for it,
      with quantity `q1 + q2` but the total of the first add only. */
  lemma AddTwice(catalog: seq<Product>, cart: Cart, id: string, q1: int, q2: int)
    requires id != "" && q1 != 0 && q2 != 0
    requires FindProduct(catalog, id).Some? && FindProduct(catalog, id).value.stock != 0
    requires !HasLine(cart.items, id)
    ensures AddToCart(catalog, cart, Str(id), Num(q1)).Ok?
    ensures var c1 := AddToCart(catalog, cart, Str(id), Num(q1)).value;
      var c2 := AddToCart(catalog, c1, Str(id), Num(q2));
      var p := FindProduct(catalog, id).value;
      && c2.Ok?
      && c2.value.items == cart.items + [Snapshot(p, q1).(quantity := q1 + q2)]
      && c2.value.subtotal == SumTotals(cart.items) + p.price * q1
  {
    var p := FindProduct(catalog, id).value;
    var line := Snapshot(p, q1);
    var twice := line.(quantity := q1 + q2);
    AddResult(catalog, cart, id, q1);
    var c1 := Recompute(cart.items + [line]);
    assert AddToCart(catalog, cart, Str(id), Num(q1)) == Ok(c1);
    assert HasLine(c1.items, id) by { assert c1.items[|cart.items|].id == id; }
    assert c1.items == cart.items + [line] && line.id == id;
    assert line.quantity == q1;
    MergeIntoNewLine(cart.items, line, q2);
    assert line.(quantity := line.quantity + q2) == twice;
    assert MergeQuantity(c1.items, id, q2) == cart.items + [twice];
    AddResult(catalog, c1, id, q2);
    assert AddToCart(catalog, c1, Str(id), Num(q2)) == Ok(Recompute(cart.items + [twice]));
    SumTotalsAppend(cart.items, twice);
  }

  /** A valid add of an in-stock product yields the recomputed cart of the appended or merged lines. */
  lemma AddResult(catalog: seq<Product>, cart: Cart, id: string, q: int)
    requires id != "" && q != 0
    requires FindProduct(catalog, id).Some? && FindProduct(catalog, id).value.stock != 0
    ensures var p := FindProduct(catalog, id).value;
      AddToCart(catalog, cart, Str(id), Num(q))
      == Ok(Recompute(if HasLine(cart.items, id) then MergeQuantity(cart.items, id, q)
                      else cart.items + [Snapshot(p, q)]))
  {
  }

  /** Merging into `items + [line]` for the id of `line`, when no line of `items` has it,
      changes only the quantity of `line`. */
  lemma MergeIntoNewLine(items: seq<LineItem>, line: LineItem, q: int)
    requires !HasLine(items, line.id)
    ensures MergeQuantity(items + [line], line.id, q) == items + [line.(quantity := line.quantity + q)]
  {
    var all := items + [line];
    var m := MergeQuantity(all, line.id, q);
    var expected := items + [line.(quantity := line.quantity + q)];
    forall i | 0 <= i < |all|
      ensures m[i] == expected[i]
    {
      if i < |items| {
        assert all[i] == items[i] && expected[i] == items[i];
        assert items[i].id != line.id;
      }
    }
  }

  /** With one line per product, the item count is the number of distinct products in the cart. */
  lemma {:induction false} TotalItemsCountsProducts(items: seq<LineItem>)
    requires UniqueIds(items)
    ensures |items| == |LineIds(items)|
    decreases |items|
  {
    if items != [] {
      assert UniqueIds(items[1..]) by {
        forall i, j | 0 <= i < j < |items| - 1
          ensures items[1..][i].id != items[1..][j].id
        {
          assert items[1..][i] == items[i + 1] && items[1..][j] == items[j + 1];
        }
      }
      TotalItemsCountsProducts(items[1..]);
      assert items[0].id !in LineIds(items[1..]);
    }
  }

  // ---------------------------------------------------------------------------
  // A run of requests against the store
  // ---------------------------------------------------------------------------

  /** The body of one add-to-cart request. */
  datatype Request = Request(id: JsonValue, quantity: JsonValue)

  /** The cart the store holds after serving `requests` in order. */
  function Replay(catalog: seq<Product>, cart: Cart, requests: seq<Request>): Cart
    decreases |requests|
  {
    if requests == [] then cart
    else Replay(catalog, HandleAddToCart(catalog, cart, requests[0].id, requests[0].quantity).cart, requests[1..])
  }

  /** Any run of requests keeps one line per product and keeps every line where it was. */
  lemma {:induction false} ReplayPreservesInvariants(catalog: seq<Product>, cart: Cart, requests: seq<Request>)
    requires UniqueIds(cart.items)
    ensures var after := Replay(catalog, cart, requests);
      && UniqueIds(after.items)
      && |after.items| >= |cart.items|
      && forall i :: 0 <= i < |cart.items| ==> after.items[i].id == cart.items[i].id
    decreases |requests|
  {
    if requests != [] {
      var r := requests[0];
      var next := HandleAddToCart(catalog, cart, r.id, r.quantity).cart;
      if AddToCart(catalog, cart, r.id, r.quantity).Ok? {
        AddPreservesUniqueIds(catalog, cart, r.id, r.quantity);
        AddPreservesOrder(catalog, cart, r.id, r.quantity);
      }
      ReplayPreservesInvariants(catalog, next, requests[1..]);
    }
  }
}
