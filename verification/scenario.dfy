/**
 Worked runs of the store on a two-product catalog: `p1` priced 10.00 with five
 in stock and `p2` priced 8.00 with none. They cover two adds of the same
 product, the rejections, a negative quantity and three `tags` queries.
 */
module Scenario {
  import opened Results
  import opened Catalog
  import opened CartStore

  const P1: Product := Product("p1", "Kopi", "/img/p1.png", 1000, 5, ["drink"])
  const P2: Product := Product("p2", "Teh", "/img/p2.png", 800, 0, ["drink", "tea"])
  const Shop: seq<Product> := [P1, P2]
  const Empty: Cart := Cart([], 0, 0, 0, 0)

  /** Sum of price times quantity over the lines: what the subtotal would be if merged lines were repriced. */
  function RepricedSubtotal(items: seq<LineItem>): int
  {
    if items == [] then 0 else items[0].price * items[0].quantity + RepricedSubtotal(items[1..])
  }

  /** Adding 2 then 3 of `p1`: one line of quantity 5 whose total, and hence the subtotal,
      still says 20.00; the total is 20.00 + 2.00 + 50.00. */
  lemma MergeRun()
    ensures var c1 := AddToCart(Shop, Empty, Str("p1"), Num(2));
      && c1 == Ok(Cart([LineItem("p1", "Kopi", "/img/p1.png", 1000, 2, 2000, 5)], 2000, 200, 5000, 7200))
      && var c2 := AddToCart(Shop, c1.value, Str("p1"), Num(3));
      && c2 == Ok(Cart([LineItem("p1", "Kopi", "/img/p1.png", 1000, 5, 2000, 5)], 2000, 200, 5000, 7200))
      && TotalItems(c2.value) == 1
      && RepricedSubtotal(c2.value.items) == 5000 != c2.value.subtotal
  {
    var line := LineItem("p1", "Kopi", "/img/p1.png", 1000, 2, 2000, 5);
    assert FindProduct(Shop, "p1") == Some(P1);
    assert SumTotals([line]) == 2000;
    var c1 := Cart([line], 2000, 200, 5000, 7200);
    assert HasLine(c1.items, "p1");
    var merged := line.(quantity := 5);
    assert MergeQuantity(c1.items, "p1", 3) == [merged];
    assert SumTotals([merged]) == 2000;
  }

  /** The rejections, each leaving the cart as it was. */
  lemma Rejections(cart: Cart)
    ensures AddToCart(Shop, cart, Str("unknown"), Num(1)) == Err(ProductIdNotFound)
    ensures AddToCart(Shop, cart, Str("p2"), Num(1)) == Err(OutOfStock)
    ensures AddToCart(Shop, cart, Str("p1"), Num(0)) == Err(InvalidPayload)
    ensures AddToCart(Shop, cart, Str("p1"), Str("1")) == Err(InvalidPayload)
    ensures AddToCart(Shop, cart, Str(""), Num(1)) == Err(InvalidPayload)
    ensures HandleAddToCart(Shop, cart, Str("p2"), Num(1)) == Step(cart, Failure("Stok habis."))
  {
    assert FindProduct(Shop, "unknown") == None;
    assert Shop[0].id != "p2" by { assert Shop[0].id[1] != "p2"[1]; }
    assert Shop[1..] == [P2];
    assert FirstIndex(Shop[1..], "p2") == Some(0);
    assert FirstIndex(Shop, "p2") == Some(1);
  }

  /** A negative quantity passes validation and lowers the line's quantity. */
  lemma NegativeQuantityAccepted()
    ensures var c1 := AddToCart(Shop, Empty, Str("p1"), Num(-3));
      && c1.Ok?
      && c1.value.items == [LineItem("p1", "Kopi", "/img/p1.png", 1000, -3, -3000, 5)]
      && c1.value.subtotal == -3000 && c1.value.tax == -300
  {
    assert FindProduct(Shop, "p1") == Some(P1);
    assert SumTotals([LineItem("p1", "Kopi", "/img/p1.png", 1000, -3, -3000, 5)]) == -3000;
  }

  /** No query, or an empty one, lists the catalog as it is. */
  lemma ListingUnfiltered()
    ensures ListProducts(Shop, None) == Shop
    ensures ListProducts(Shop, Some("")) == Shop
  {
  }

  /** The query "tea" keeps only `p2`. */
  lemma ListingOneTag()
    ensures ListProducts(Shop, Some("tea")) == [P2]
  {
    var wanted := ["tea"];
    assert TagArray(Some("tea")) == wanted by { SplitJoin(wanted); }
    assert !Matches(P1, wanted) by { assert P1.tags == ["drink"]; assert "drink" != "tea"; }
    assert Matches(P2, wanted) by { assert "tea" in P2.tags; }
    assert FilterProducts([P2], wanted) == [P2] by {
      FilterCons(P2, [], wanted);
      assert [P2] + [] == [P2];
    }
    assert FilterProducts(Shop, wanted) == [P2] by {
      assert Shop == [P1] + [P2];
      FilterCons(P1, [P2], wanted);
    }
  }

  /** The query "snack," asks for the tags "snack" and "", which no product has. */
  lemma ListingTrailingComma()
    ensures ListProducts(Shop, Some("snack,")) == []
  {
    var wanted := ["snack", ""];
    SplitTrailingComma();
    NoProductSells(wanted);
    assert Shop == [P1] + [P2] && [P2] == [P2] + [];
    FilterCons(P1, [P2], wanted);
    FilterCons(P2, [], wanted);
  }

  /** "snack," splits into "snack" and the empty tag. */
  lemma SplitTrailingComma()
    ensures TagArray(Some("snack,")) == ["snack", ""]
  {
    var wanted := ["snack", ""];
    assert ',' !in "snack";
    assert JoinTags(wanted) == "snack" + [','] + "";
    assert "snack" + [','] + "" == "snack,";
    SplitJoin(wanted);
  }

  /** Neither product carries the tag "snack" or the empty tag. */
  lemma NoProductSells(wanted: seq<string>)
    requires wanted == ["snack", ""]
    ensures !Matches(P1, wanted) && !Matches(P2, wanted)
  {
    assert "drink" !in wanted by { assert "drink"[0] != "snack"[0]; }
    assert "tea" !in wanted;
    assert MatchingTags(P1.tags, wanted) == [];
    assert P2.tags[1..] == ["tea"] && ["tea"][1..] == [];
    assert MatchingTags(["tea"], wanted) == [];
    assert MatchingTags(P2.tags, wanted) == [];
  }
}
