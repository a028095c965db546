# Storefront catalog and cart, modelled in Dafny

This project models the business logic of a small storefront backend. The backend's
only logic file is `app/backend/app.js`. It has two parts:

- **Catalog queries.** `GET /products` filters the product list by a comma-separated
  `tags` query. `GET /products/:id` looks a product up by id.
- **The cart.** `POST /carts/add-to-cart` validates a `{id, quantity}` body. It then
  appends a new line or merges the quantity into the existing line for that product,
  and recomputes the subtotal, the 10% tax, the fixed delivery fee and the total.
  `GET /carts/total-items` reports the number of lines.

Everything is a pure function over immutable values:

- `results.dfy` (`Results`): `Option` and `Result`.
- `money.dfy` (`Money`): amounts in integer cents, the tax rounding rule and the delivery fee (5000 cents).
- `catalog.dfy` (`Catalog`): `Product`, `Tag`, the lookup, the `tags` query split and the filter.
- `cart.dfy` (`CartStore`): `LineItem`, `Cart`, the request body as `JsonValue`, the errors, `AddToCart`, the handler step and a replay of a request sequence.
- `scenario.dfy` (`Scenario`): a concrete catalog and cart run through the handlers.

The product list and the initial cart come from a module `./inMemoryDb`, which is not
part of this model. Both are parameters. Handler side effects become return values.
`HandleAddToCart` returns the cart the store holds afterwards together with the reply.

Behaviour kept exactly as the code has it:

- **Stale line total.** Merging only changes a line's `quantity`. Its `total` keeps the
  value from the first add, and the subtotal is summed from these `total` fields
  (`CartStore.AddExistingKeepsSubtotal`, `Scenario.MergeRun`).
- **Quantity validation.** The check `!quantity` rejects only 0, so a negative quantity
  is accepted (`Scenario.NegativeQuantityAccepted`). Nothing in the code requires a
  line quantity to be positive.
- **Order of checks.** Validation runs in a fixed order: payload, then unknown id, then
  stock 0. The first failure wins, and a failure leaves the cart as it was.
- **Item count.** The total-items count is the number of lines, not the sum of quantities.
- **Stock.** Stock is checked but never decremented.

Rounding: the code rounds with `toFixed(2)`, which rounds the magnitude to the nearest
cent and breaks a tie towards the larger magnitude. In exact cents this affects only the
tax: `Tax(s)` is `s / 10` rounded half away from zero. A line total is price × quantity,
and a subtotal is a sum of such totals. Both are whole cents already.

## Model

| member | source | states |
|---|---|---|
| Money.Tax | app/backend/app.js:105 | the tax is the cent amount nearest to a tenth of the subtotal, a tie going away from zero, and has the sign of the subtotal |
| Money.TaxIsUnique | app/backend/app.js:105 | the rounding rule determines the tax uniquely: any amount inside the rounding window equals `Tax` |
| Catalog.FindProduct | app/backend/app.js:36-48 | lookup finds nothing exactly when no product has the id; otherwise it returns a catalog product with that id and no earlier product has it |
| Catalog.SplitTags | app/backend/app.js:23 | splitting the query yields at least one piece and no piece contains a comma |
| Catalog.JoinSplit | app/backend/app.js:23 | joining the split pieces with commas gives back the query string |
| Catalog.SplitJoin | app/backend/app.js:23 | splitting a comma-joined list of comma-free pieces gives back exactly those pieces |
| Catalog.TagArray | app/backend/app.js:22-23 | the tag list is empty exactly when the query is absent or the empty string; otherwise its pieces are comma-free and joined with commas give back the query, so they are exactly its comma split |
| Catalog.MatchingTags | app/backend/app.js:27 | the inner filter keeps exactly the product tags that occur in the wanted list |
| Catalog.Matches | app/backend/app.js:27-28 | a product passes exactly when at least one of its tags is wanted |
| Catalog.FilterProducts | app/backend/app.js:26-29 | the result holds exactly the matching products, each as often as in the catalog, as an order-preserving subsequence of the catalog |
| Catalog.ListProducts | app/backend/app.js:20-33 | an absent or empty `tags` query returns the catalog unchanged; otherwise exactly the products sharing a tag with the split query, each as often as in the catalog, in catalog order |
| Catalog.FilterIdempotent | app/backend/app.js:26-29 | filtering the filtered list again changes nothing |
| Catalog.FilterAppend | app/backend/app.js:26-29 | the filter distributes over concatenation of product lists |
| CartStore.Message | app/backend/app.js:54-73 | each error kind replies with its own text: "invalid payload", "product id not found" or "Stok habis.", and each text belongs to exactly one kind |
| CartStore.Truthy | app/backend/app.js:53 | `!v` holds exactly for the falsy values undefined, null, false, 0 and the empty string |
| CartStore.WellFormed | app/backend/app.js:53 | a non-empty string id with a non-zero number quantity is exactly what passes the `!id`, `!quantity` and two `typeof` tests |
| CartStore.SumTotals | app/backend/app.js:103 | the reduce starts from 0 and each step adds the current line's `total` to the sum of the lines before it |
| CartStore.Recompute | app/backend/app.js:103-109 | the recomputed cart keeps the lines and has subtotal = sum of line totals, tax = rounded 10% of it, fee 5000 and total = subtotal + tax + fee |
| CartStore.TotalItems | app/backend/app.js:123-127 | the count is zero exactly for an empty cart and, with one line per product, equals the number of distinct products, not the sum of quantities |
| CartStore.HasLine | app/backend/app.js:77 | the in-cart test holds exactly when some line has the product id |
| CartStore.MergeQuantity | app/backend/app.js:96-100 | the merge keeps length and order; lines for the id get quantity + q with every other field, `total` included, unchanged; other lines are unchanged |
| CartStore.AddToCart | app/backend/app.js:51-109 | invalid payload exactly when the id is not a non-empty string or the quantity is not a non-zero number; else not found exactly when no product has the id; else out of stock exactly when the found product's stock is 0; on success a new id appends one snapshot line with total price × q behind the unchanged old lines, a known id merges its quantity, and the amounts are derived from the lines |
| CartStore.HandleAddToCart | app/backend/app.js:51-115 | a request fails exactly on a malformed body, an unknown id or zero stock; a failure leaves the stored cart unchanged and replies "invalid payload", "product id not found" or "Stok habis." for those three cases in that order of precedence; a success stores the cart `AddToCart` computes, with derived amounts |
| CartStore.SumTotalsAppend | app/backend/app.js:103 | appending a line raises the summed subtotal by that line's total |
| CartStore.MergeKeepsSumTotals | app/backend/app.js:96-103 | merging a quantity leaves the sum of the line totals unchanged |
| CartStore.AddPreservesUniqueIds | app/backend/app.js:77-101 | every successful add keeps at most one line per product id |
| CartStore.AddPreservesOrder | app/backend/app.js:79-101 | every successful add keeps the existing lines at their positions with the same ids |
| CartStore.AddExistingKeepsSubtotal | app/backend/app.js:95-104 | adding a product already in the cart keeps the line count and gives the subtotal of the old line totals, because the merged total is stale |
| CartStore.AddNewRaisesSubtotal | app/backend/app.js:79-104 | adding a product not yet in the cart adds one line and raises the subtotal by price × quantity |
| CartStore.AddTwice | app/backend/app.js:76-104 | adding q1 then q2 of a product not yet in the cart gives the old lines followed by one snapshot line of that product with quantity q1 + q2 but total price × q1, and a subtotal raised by price × q1 only |
| CartStore.AddResult | app/backend/app.js:76-109 | once the three checks pass, the add appends a snapshot line for a new id or merges the quantity for a known one, and recomputes the amounts from the lines |
| CartStore.MergeIntoNewLine | app/backend/app.js:96-100 | merging into the cart's only line for the id changes just that line's quantity |
| CartStore.TotalItemsCountsProducts | app/backend/app.js:123-127 | with one line per product, the item count equals the number of distinct products in the cart, not the sum of quantities |
| CartStore.ReplayPreservesInvariants | app/backend/app.js:51-115 | any sequence of add requests keeps one line per product, never shortens the cart and keeps every line's position |
| Scenario.MergeRun | app/backend/app.js:76-109 | 2 then 3 of a 10.00 product: quantity 5, line total and subtotal 20.00, tax 2.00, fee 50.00, total 72.00, one item, although price × quantity is 50.00 |
| Scenario.Rejections | app/backend/app.js:53-74 | an unknown id, a stock-0 product, a zero or string quantity and an empty id are rejected with the matching error, and the cart stays as it was |
| Scenario.NegativeQuantityAccepted | app/backend/app.js:53-94 | a negative quantity passes validation and yields a negative line total, subtotal and tax |
| Scenario.ListingUnfiltered | app/backend/app.js:21-25 | no query or an empty one lists the catalog as it is |
| Scenario.ListingOneTag | app/backend/app.js:23-30 | the query "tea" keeps only the product tagged "tea" |
| Scenario.SplitTrailingComma | app/backend/app.js:23 | the query "snack," splits into the tags "snack" and "" |
| Scenario.ListingTrailingComma | app/backend/app.js:23-30 | the query "snack," looks for the tags "snack" and "", and matches nothing here |

## Left out

- Express wiring: CORS, JSON body parsing, static files, `app.listen` and logging (app/backend/app.js:1-12, 129-131). They are I/O with no logic.
- HTTP status codes. Each `.status(...)` is called after `res.json(...)` has already sent the reply, so they are not reliably observable. Errors are the `CartError` kinds and their messages; a failed lookup is `None`.
- `GET /product-tags` and `GET /carts` (app/backend/app.js:15-17, 118-120). They return the stored tag list and cart as they are. The `Tag` datatype and the `Cart` value stand for those replies.
- `./inMemoryDb` is not part of this model. The catalog and the initial cart are parameters, so the initial cart's amounts need not be derived from its lines.
- IEEE-754 doubles. `Number(...)`, `*` and `toFixed(2)` become exact integer-cent arithmetic. The decimal strings the store keeps, and their parsing and rendering, are not modelled. Prices are cents already, so a non-numeric price string (NaN) cannot arise.
- Money.Tax: rounds the exact decimal tenth of the subtotal. The code multiplies a double by 0.1 first, which can push an exact tie either way; exponent notation above 1e21 is also not modelled.
- Fractional quantities and NaN. `JsonValue` numbers are integers.
- A repeated `tags` parameter. Express then hands an array to `split`, which throws; the model takes the query as an optional string.
- Concurrency. There is none: the event loop runs each handler to completion.
