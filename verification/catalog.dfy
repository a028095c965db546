/**
 The read-only product catalog and its two queries: the tag filter behind
 `GET /products` and the lookup by id behind `GET /products/:id` (the same
 lookup resolves the product of an add-to-cart request).
 */
module Catalog {
  import opened Results

  /** A tag definition. `GET /product-tags` serves the stored list of these as it is,
      so no operation of this module reads it. */
  datatype Tag = Tag(id: string, name: string)

  /** A catalog product. `price` is in cents; `tags` lists tag ids. */
  datatype Product = Product(id: string, name: string, imageUrl: string, price: nat, stock: int, tags: seq<string>)

  // ---------------------------------------------------------------------------
  // Lookup by id
  // ---------------------------------------------------------------------------

  /** Position of the first product whose id is `id`. */
  function FirstIndex(catalog: seq<Product>, id: string): (r: Option<nat>)
    ensures r.None? <==> forall i :: 0 <= i < |catalog| ==> catalog[i].id != id
    ensures r.Some? ==> r.value < |catalog| && catalog[r.value].id == id
    ensures r.Some? ==> forall j :: 0 <= j < r.value ==> catalog[j].id != id
  {
    if catalog == [] then None
    else if catalog[0].id == id then Some(0)
    else match FirstIndex(catalog[1..], id)
      case None => None
      case Some(k) => Some(k + 1)
  }

  /** `products.find((product) => product.id === id)`: the first product carrying `id`,
      or `None` (the "not found" reply) when there is none. */
  function FindProduct(catalog: seq<Product>, id: string): (r: Option<Product>)
    ensures r.None? <==> forall i :: 0 <= i < |catalog| ==> catalog[i].id != id
    ensures r.Some? ==> r.value.id == id
    ensures r.Some? ==> exists i :: 0 <= i < |catalog| && catalog[i] == r.value
                                    && forall j :: 0 <= j < i ==> catalog[j].id != id
  {
    match FirstIndex(catalog, id)
    case None => None
    case Some(k) => Some(catalog[k])
  }

  // ---------------------------------------------------------------------------
  // The `tags` query parameter
  // ---------------------------------------------------------------------------

  /** `s.split(',')`: the pieces between commas, empty pieces included. */
  function SplitTags(s: string): (parts: seq<string>)
    ensures |parts| >= 1
    ensures forall i :: 0 <= i < |parts| ==> ',' !in parts[i]
    decreases |s|
  {
    if s == [] then [""]
    else
      var rest := SplitTags(s[1..]);
      if s[0] == ',' then [""] + rest
      else [[s[0]] + rest[0]] + rest[1..]
  }

  /** `parts.join(',')`, the inverse of `SplitTags`. */
  function JoinTags(parts: seq<string>): (s: string)
    requires |parts| >= 1
  {
    if |parts| == 1 then parts[0] else parts[0] + [','] + JoinTags(parts[1..])
  }

  /** Prepending a character to the first piece prepends it to the joined string. */
  lemma {:induction false} JoinConsHead(c: char, head: string, tail: seq<string>)
    ensures JoinTags([[c] + head] + tail) == [c] + JoinTags([head] + tail)
  {
    var a := [[c] + head] + tail;
    var b := [head] + tail;
    if |tail| > 0 {
      assert a[1..] == tail && b[1..] == tail;
    }
  }

  /** Joining the pieces of a split gives back the query string. */
  lemma {:induction false} JoinSplit(s: string)
    ensures JoinTags(SplitTags(s)) == s
    decreases |s|
  {
    if s != [] {
      var rest := SplitTags(s[1..]);
      JoinSplit(s[1..]);
      if s[0] == ',' {
        assert ([""] + rest)[1..] == rest;
      } else {
        assert rest == [rest[0]] + rest[1..];
        JoinConsHead(s[0], rest[0], rest[1..]);
      }
      assert s == [s[0]] + s[1..];
    }
  }

  /** Splitting `a + t`, where `a` holds no comma, glues `a` to the first piece of `t`. */
  lemma {:induction false} SplitPrefix(a: string, t: string)
    requires ',' !in a
    ensures SplitTags(a + t) == [a + SplitTags(t)[0]] + SplitTags(t)[1..]
    decreases |a|
  {
    if a == [] {
      var parts := SplitTags(t);
      assert a + t == t && a + parts[0] == parts[0];
      assert parts == [parts[0]] + parts[1..];
    } else {
      assert (a + t)[1..] == a[1..] + t;
      assert (a + t)[0] == a[0];
      SplitPrefix(a[1..], t);
      assert [a[0]] + (a[1..] + SplitTags(t)[0]) == a + SplitTags(t)[0];
    }
  }

  /** Splitting a comma-joined list of comma-free pieces gives back the pieces. */
  lemma {:induction false} SplitJoin(parts: seq<string>)
    requires |parts| >= 1
    requires forall i :: 0 <= i < |parts| ==> ',' !in parts[i]
    ensures SplitTags(JoinTags(parts)) == parts
    decreases |parts|
  {
    if |parts| == 1 {
      SplitPrefix(parts[0], "");
      assert parts[0] + "" == parts[0];
    } else {
      var rest := JoinTags(parts[1..]);
      SplitJoin(parts[1..]);
      var t := [','] + rest;
      assert t[1..] == rest && t[0] == ',';
      assert SplitTags(t) == [""] + parts[1..];
      SplitPrefix(parts[0], t);
      assert parts[0] + "" == parts[0];
      assert parts[0] + [','] + rest == parts[0] + t;
      assert parts == [parts[0]] + parts[1..];
    }
  }

  /** `tags ? tags.split(',') : []`: an absent or empty query asks for no filtering. */
  function TagArray(query: Option<string>): (wanted: seq<string>)
    ensures |wanted| == 0 <==> query.None? || query.value == ""
    ensures query.Some? && query.value != "" ==> JoinTags(wanted) == query.value
    ensures forall i :: 0 <= i < |wanted| ==> ',' !in wanted[i]
  {
    match query
    case None => []
    case Some(s) => if s == "" then [] else (JoinSplit(s); SplitTags(s))
  }

  // ---------------------------------------------------------------------------
  // Tag filter
  // ---------------------------------------------------------------------------

  /** `tags.filter((tag) => wanted.includes(tag))`. */
  function MatchingTags(tags: seq<string>, wanted: seq<string>): (r: seq<string>)
    ensures forall t :: t in r <==> t in tags && t in wanted
  {
    if tags == [] then []
    else (if tags[0] in wanted then [tags[0]] else []) + MatchingTags(tags[1..], wanted)
  }

  /** A product passes the filter when at least one of its tags is wanted. */
  function Matches(p: Product, wanted: seq<string>): (b: bool)
    ensures b <==> exists t :: t in p.tags && t in wanted
  {
    var m := MatchingTags(p.tags, wanted);
    assert |m| > 0 ==> m[0] in m;
    |m| > 0
  }

  /** `a` is `b` with some elements removed, the rest kept in order. */
  ghost predicate IsSubsequence<T>(a: seq<T>, b: seq<T>)
    decreases |b|
  {
    if a == [] then true
    else if b == [] then false
    else if a[0] == b[0] then IsSubsequence(a[1..], b[1..])
    else IsSubsequence(a, b[1..])
  }

  /** `products.filter(...)` with the tag test: the matching products in catalog order. */
  function FilterProducts(products: seq<Product>, wanted: seq<string>): (r: seq<Product>)
    ensures forall p :: p in r <==> p in products && Matches(p, wanted)
    ensures forall p :: multiset(r)[p] == if Matches(p, wanted) then multiset(products)[p] else 0
    ensures IsSubsequence(r, products)
  {
    if products == [] then []
    else
      var rest := FilterProducts(products[1..], wanted);
      assert products == [products[0]] + products[1..];
      if Matches(products[0], wanted) then [products[0]] + rest
      else rest
  }

  /** `GET /products`: the whole catalog when the `tags` query is absent or empty,
      otherwise the products sharing a tag with the comma-separated list, in catalog order. */
  function ListProducts(catalog: seq<Product>, query: Option<string>): (r: seq<Product>)
    ensures query.None? || query.value == "" ==> r == catalog
    ensures query.Some? && query.value != "" ==>
      && IsSubsequence(r, catalog)
      && (forall p :: p in r <==> p in catalog && exists t :: t in p.tags && t in SplitTags(query.value))
      && (forall p :: multiset(r)[p] == if Matches(p, SplitTags(query.value)) then multiset(catalog)[p] else 0)
  {
    var wanted := TagArray(query);
    if |wanted| > 0 then FilterProducts(catalog, wanted) else catalog
  }

  /** Filtering an already filtered list changes nothing. */
  lemma {:induction false} FilterIdempotent(products: seq<Product>, wanted: seq<string>)
    ensures FilterProducts(FilterProducts(products, wanted), wanted) == FilterProducts(products, wanted)
    decreases |products|
  {
    if products != [] {
      FilterIdempotent(products[1..], wanted);
      var rest := FilterProducts(products[1..], wanted);
      if Matches(products[0], wanted) {
        assert ([products[0]] + rest)[1..] == rest;
      }
    }
  }

  /** Concatenation is associative. */
  lemma ConcatAssoc<T>(a: seq<T>, b: seq<T>, c: seq<T>)
    ensures a + (b + c) == (a + b) + c
  {
  }

  /** One step of the filter: the first product is kept exactly when it matches. */
  lemma FilterCons(x: Product, rest: seq<Product>, wanted: seq<string>)
    ensures FilterProducts([x] + rest, wanted) == (if Matches(x, wanted) then [x] else []) + FilterProducts(rest, wanted)
  {
    assert ([x] + rest)[1..] == rest;
  }

  /** The filter of a concatenation is the concatenation of the filters. */
  lemma {:induction false} FilterAppend(a: seq<Product>, b: seq<Product>, wanted: seq<string>)
    ensures FilterProducts(a + b, wanted) == FilterProducts(a, wanted) + FilterProducts(b, wanted)
    decreases |a|
  {
    if a == [] {
      assert a + b == b;
    } else {
      var x, a' := a[0], a[1..];
      assert a == [x] + a';
      assert a + b == [x] + (a' + b);
      FilterCons(x, a', wanted);
      FilterCons(x, a' + b, wanted);
      FilterAppend(a', b, wanted);
      var head := if Matches(x, wanted) then [x] else [];
      var fa, fb := FilterProducts(a', wanted), FilterProducts(b, wanted);
      ConcatAssoc(head, fa, fb);
    }
  }
}
