# QuickCart product service: carts, checkout and stock

This project models the order-fulfilment core of the QuickCart product service
(Laravel): the shopping cart held per signed-in user or per guest session, the
conversion of a cart into an order at checkout, the order totals (8% tax, flat
10.00 shipping unless the subtotal exceeds 100.00), cancellation with stock
restoration, the administrative order-status change, and the product-catalog
operations that touch stock, price and visibility.

The service's tables become the fields of one `Shop.Store` object: products,
carts (one per owner key), cart lines, and orders with their items. Auto-increment
ids become counters on that object. Every controller action is a method of
`Store` that either fails with an `Error` or applies its whole effect. A
failing action changes nothing, with one exception: a failing `UpdateItem` or
`RemoveItem` may leave a new empty cart behind (see below). Checkout and
cancellation are all-or-nothing, as their database transactions are. Every
action keeps the store invariant `Store.Valid()`:

- product ids are taken below the counter;
- prices are non-negative and skus are unique;
- each owner has one cart;
- every cart line and order item names an existing product and holds at least
  one unit;
- a cart never holds two lines for one product;
- every order balances: its subtotal is the sum of its items' amounts, and its
  total is subtotal plus tax plus shipping.

Stock can go negative through the `add` stock operation (see below), so
non-negativity is not part of the invariant. Checkout and cancellation
preserve it instead: when no stock was negative before, none is after.

The pure parts live in their own modules:

- `CartModel`: the cart's derived `total` and `total_quantity`, and the line
  edits the cart actions perform.
- `Pricing`: the checkout totals.
- `Ledger`: the stock effect of checkout and cancellation, stated as
  functions, and the stock pre-check loop.
- `Lifecycle`: order statuses and their timestamps.
- `Catalog`: stock operations, product validation and the active-product
  listing.

Money is exact (`real`), so the model states the totals without rounding drift.

Points where the code does something a reader might not expect, modelled as written:

- Adding an unknown product to a cart fails validation (`InvalidInput`), not
  `NotFound`, because the request rule `exists:products,id` runs first.
- Changing a cart line's quantity does not check whether the product is still
  active.
- Update, remove and clear look up (and if need be create) the caller's cart
  before touching any line. Update first checks that the quantity is at least
  1, and fails without creating a cart when it is not. After that, a failing
  update or remove may still leave a new empty cart behind. `CartsExtended`
  states this.
- The `add` stock operation is not clamped, so a negative quantity can drive
  stock below zero. Stock is therefore not invariantly non-negative.
  `Catalog.AddIsUnclamped` shows the case.
- The status change accepts every status, including `pending` for a cancelled
  order. A cancelled order can therefore be reopened and cancelled again, and
  its stock is restored twice. `Shop.Store.CancelReopenCancel` shows this.
  The action is marked as admin-only, and its only rule is membership in the
  five status names, so the model accepts every transition.

## Model

| member | source | states |
|---|---|---|
| CartModel.Total | product-service/app/Models/Cart.php:38-43 | the cart's `total`: the sum of quantity × captured price over the lines; described by `TotalConcat`, `TotalsAppend`, `TotalRemoveAt`, `TotalUpdateAt`, `TotalsPermutation`, `TotalNonNegative` and, for each line, `TimesIsProduct` |
| CartModel.TotalQuantity | product-service/app/Models/Cart.php:48-51 | the cart's `total_quantity`: the sum of the line quantities; described by `TotalQuantityConcat`, `TotalsAppend`, `TotalQuantityRemoveAt`, `TotalQuantityUpdateAt`, `TotalsPermutation` and `TotalQuantityAtLeastLines` |
| CartModel.TimesIsProduct | product-service/app/Models/Cart.php:41 | the line amount built by repeated addition equals quantity × price |
| CartModel.TimesAdd | product-service/app/Models/Cart.php:41 | a line's amount is additive in its quantity |
| CartModel.TimesNonNegative | product-service/app/Models/Cart.php:41 | a non-negative quantity at a non-negative price gives a non-negative amount |
| CartModel.TotalConcat | product-service/app/Models/Cart.php:38-43 | the cart total of two runs of lines is the sum of their totals |
| CartModel.TotalQuantityConcat | product-service/app/Models/Cart.php:48-51 | the total quantity of two runs of lines is the sum of theirs |
| CartModel.TotalNonNegative | product-service/app/Models/Cart.php:38-43 | lines with non-negative quantities and prices have a non-negative total |
| CartModel.TotalQuantityAtLeastLines | product-service/app/Models/Cart.php:48-51 | when every line holds at least one unit, the total quantity is at least the number of lines |
| CartModel.EmptyCartTotals | product-service/app/Models/Cart.php:38-51 | an empty cart totals 0 and holds 0 units |
| CartModel.TotalsAppend | product-service/app/Models/Cart.php:38-51 | appending a line adds its amount to the total and its quantity to the total quantity |
| CartModel.TotalRemoveAt | product-service/app/Http/Controllers/CartController.php:179-180 | deleting a line lowers the total by exactly that line's amount |
| CartModel.TotalQuantityRemoveAt | product-service/app/Http/Controllers/CartController.php:179-180 | deleting a line lowers the total quantity by exactly that line's quantity |
| CartModel.RemoveAtDropsLine | product-service/app/Http/Controllers/CartController.php:179-180 | deleting a line removes one copy of it and nothing else, and with unique row ids no line with its id remains |
| CartModel.TotalUpdateAt | product-service/app/Http/Controllers/CartController.php:144 | replacing a line swaps its amount in the total |
| CartModel.TotalQuantityUpdateAt | product-service/app/Http/Controllers/CartController.php:144 | replacing a line swaps its quantity in the total quantity |
| CartModel.TotalRequantify | product-service/app/Http/Controllers/CartController.php:144 | changing a line's quantity to n moves the total by (n − old quantity) × its captured price |
| CartModel.TotalsPermutation | product-service/app/Models/Cart.php:38-51 | the total and total quantity do not depend on the order of the lines |
| CartModel.QuantityOfConcat | product-service/app/Http/Controllers/CartController.php:73-77 | the units of a product held by two runs of lines add up |
| CartModel.QuantityOfAbsent | product-service/app/Http/Controllers/CartController.php:73 | lines without the product hold none of it |
| CartModel.QuantityOfUnique | product-service/app/Http/Controllers/CartController.php:73-77 | in a cart with one line per product, the units held are that line's quantity |
| CartModel.QuantityOfUpdateAt | product-service/app/Http/Controllers/CartController.php:144 | replacing one line changes the units held of a product by the difference at that line only |
| CartModel.IndexOfProduct | product-service/app/Http/Controllers/CartController.php:73 | finds the first line for the product, and finds none exactly when no line holds it |
| CartModel.IndexOfItem | product-service/app/Http/Controllers/CartController.php:134 | finds the first line with the row id, and finds none exactly when no line has it |
| CartModel.Added | product-service/app/Http/Controllers/CartController.php:73-94 | the lines after adding units of a product: merged into that product's line, which keeps its captured price, or appended as a new line at the current price; described by `AddedLength`, `AddedUnique`, `AddedTotal`, `AddedTotalQuantity` and `AddedQuantityOf` |
| CartModel.AddedLength | product-service/app/Http/Controllers/CartController.php:75-94 | adding a product the cart holds merges into its line; adding a new product appends exactly one line |
| CartModel.AddedUnique | product-service/app/Http/Controllers/CartController.php:73-94 | adding keeps one line per product |
| CartModel.AddedTotalQuantity | product-service/app/Http/Controllers/CartController.php:77-93 | adding q units raises the total quantity by q |
| CartModel.AddedTotal | product-service/app/Http/Controllers/CartController.php:77-93 | adding q units raises the total by q × the line's captured price, or × the current price for a new line |
| CartModel.AddedQuantityOf | product-service/app/Http/Controllers/CartController.php:77-93 | adding q units of p raises the units held of p by q and of every other product by 0 |
| Pricing.ComputeTotals | product-service/app/Http/Controllers/OrderController.php:127-130 | the total is subtotal + tax + shipping; tax is 8% of the subtotal; shipping is 0 exactly when the subtotal exceeds 100, else the flat 10 |
| Pricing.TotalBounds | product-service/app/Http/Controllers/OrderController.php:127-130 | for a non-negative subtotal the total lies between the subtotal and 1.08 × subtotal + 10 |
| Pricing.ThresholdPaysShipping | product-service/app/Http/Controllers/OrderController.php:129 | a subtotal of exactly 100 still pays shipping: 100 + 8 + 10 = 118 |
| Pricing.BelowThreshold | product-service/app/Http/Controllers/OrderController.php:127-130 | a subtotal of 50 totals 64 |
| Pricing.AboveThreshold | product-service/app/Http/Controllers/OrderController.php:127-130 | a subtotal of 150 ships free and totals 162 |
| Pricing.FreeShippingStep | product-service/app/Http/Controllers/OrderController.php:129 | just above the threshold the total is lower than at the threshold |
| Pricing.TotalIsScaledSubtotal | product-service/app/Http/Controllers/OrderController.php:127-130 | the total is 1.08 × subtotal plus the shipping fee |
| Catalog.ParseStockOp | product-service/app/Http/Controllers/ProductController.php:190 | an operation is accepted exactly when it is add, subtract or set |
| Catalog.ParseStockOpInverse | product-service/app/Http/Controllers/ProductController.php:190 | parsing and naming an operation are inverse |
| Catalog.ApplyStockOp | product-service/app/Http/Controllers/ProductController.php:193-203 | subtract and set never leave negative stock |
| Catalog.AddIsUnclamped | product-service/app/Http/Controllers/ProductController.php:188-196 | add moves stock by exactly the quantity, and a negative quantity beyond the stock makes it negative |
| Catalog.SubtractClamps | product-service/app/Http/Controllers/ProductController.php:198 | subtract takes the quantity off when enough is in stock, and otherwise leaves 0 |
| Catalog.SetIdempotent | product-service/app/Http/Controllers/ProductController.php:201 | set ignores the previous stock and repeating it changes nothing |
| Catalog.SubtractUndoesAdd | product-service/app/Http/Controllers/ProductController.php:195-198 | for non-negative values, subtracting what was added restores the stock |
| Catalog.Created | product-service/app/Http/Controllers/ProductController.php:66-69 | a new product is active unless created inactive |
| Catalog.Patched | product-service/app/Http/Controllers/ProductController.php:134 | an empty patch leaves the product unchanged |
| Catalog.ValidNewProduct | product-service/app/Http/Controllers/ProductController.php:58-67 | creation's rules: price at least 0, stock at least 0, sku unused; `Shop.Store.CreateProduct` succeeds exactly when they hold, and `CreatedBounds` describes the result |
| Catalog.ValidPatch | product-service/app/Http/Controllers/ProductController.php:123-132 | update's rules, for the fields present: price at least 0, stock at least 0, sku unused by any other product; `Shop.Store.UpdateProduct` succeeds exactly when they hold, and `PatchedBounds` describes the result |
| Catalog.CreatedBounds | product-service/app/Http/Controllers/ProductController.php:58-69 | a product created from validated input has a non-negative price and stock |
| Catalog.PatchedBounds | product-service/app/Http/Controllers/ProductController.php:123-134 | a validated patch keeps a non-negative price and stock non-negative |
| Catalog.ActiveProducts | product-service/app/Http/Controllers/ProductController.php:228 | the listing holds exactly the active products, unchanged |
| Ledger.Adjust | product-service/app/Http/Controllers/OrderController.php:160 | moves one product's stock by a signed amount and leaves everything else alone; checkout applies it with minus the line quantity and cancellation (line 259) with plus the item quantity; described through `DecrementedAt` and `RestoredAt` |
| Ledger.Decremented | product-service/app/Http/Controllers/OrderController.php:160 | the checkout stock effect keeps the set of products |
| Ledger.Restored | product-service/app/Http/Controllers/OrderController.php:259 | the cancellation stock effect keeps the set of products |
| Ledger.DecrementedAt | product-service/app/Http/Controllers/OrderController.php:149-161 | after checkout each product's stock is down by the units the cart held of it, and nothing else about it changes |
| Ledger.RestoredAt | product-service/app/Http/Controllers/OrderController.php:258-260 | after cancellation each product's stock is up by the units the order held of it |
| Ledger.Snapshot | product-service/app/Http/Controllers/OrderController.php:150-157 | the order item copied from a cart line: product id, the product's current name and sku, the line's quantity and captured price, and quantity × price as the item total |
| Ledger.IsSnapshot | product-service/app/Http/Controllers/OrderController.php:149-157 | the items are the snapshots of the cart lines, one per line and in order; described by `SnapshotTotal` and `SnapshotQuantities`, and established by `Shop.SnapshotAndDecrement` |
| Ledger.SnapshotTotal | product-service/app/Http/Controllers/OrderController.php:127-157 | the order items' amounts sum to the cart total used as the subtotal |
| Ledger.SnapshotQuantities | product-service/app/Http/Controllers/OrderController.php:149-157 | the order holds as many units of each product as the cart did |
| Ledger.CancelRestoresCheckout | product-service/app/Http/Controllers/OrderController.php:149-160 | restoring an order's items undoes the checkout decrement exactly |
| Ledger.Available | product-service/app/Http/Controllers/OrderController.php:115 | a line passes the stock check when its product's stock is at least the line's quantity; `FindShortLine` and `Shop.Store.Checkout` fail exactly on the first line where it does not hold, and `CheckoutStock` describes the stock left |
| Ledger.CheckoutStock | product-service/app/Http/Controllers/OrderController.php:114-160 | when every line passed the stock check, each product's stock drops by its line's quantity and stays non-negative, and products outside the cart are untouched |
| Ledger.CheckoutKeepsStockNonNegative | product-service/app/Http/Controllers/OrderController.php:114-160 | when every line passed the stock check, a catalog with no negative stock still has none after the checkout decrement |
| Ledger.ItemQuantityNonNegative | product-service/app/Http/Controllers/OrderController.php:258-260 | an order's units of any product are a non-negative count |
| Ledger.CancelKeepsStockNonNegative | product-service/app/Http/Controllers/OrderController.php:258-260 | restoring an order's items to a catalog with no negative stock leaves none negative |
| Ledger.FindShortLine | product-service/app/Http/Controllers/OrderController.php:114-121 | returns the first line whose stock is short, and none exactly when every line is covered |
| Lifecycle.ParseStatus | product-service/app/Http/Controllers/OrderController.php:203 | a status is accepted exactly when it is one of the five names |
| Lifecycle.ParseStatusInverse | product-service/app/Http/Controllers/OrderController.php:203 | parsing and naming a status are inverse |
| Lifecycle.Cancellable | product-service/app/Http/Controllers/OrderController.php:247 | an order may be cancelled only while pending or processing; `Shop.Store.Cancel` succeeds exactly for these, and `Shop.Store.CancelTwice` shows a cancelled order is refused |
| Lifecycle.StampOnce | product-service/app/Http/Controllers/OrderController.php:210-213 | an existing timestamp is kept; a missing one is set to now exactly when the status is entered |
| Lifecycle.StatusUpdated | product-service/app/Http/Controllers/OrderController.php:207-214 | the order takes the new status, stamps shipped_at or delivered_at once, and keeps every other field |
| Lifecycle.StatusUpdateIdempotent | product-service/app/Http/Controllers/OrderController.php:207-214 | repeating a status change, even later, changes nothing |
| Shop.View | product-service/app/Http/Controllers/CartController.php:96-104 | the response carries the cart's lines with their total and total quantity |
| Shop.CartsValidSet | product-service/app/Http/Controllers/CartController.php:229-239 | rewriting one cart's lines keeps one cart per owner |
| Shop.LinesOfSet | product-service/app/Http/Controllers/CartController.php:229-239 | rewriting an owner's cart changes what that owner sees and no one else's cart |
| Shop.LinesOfValid | product-service/app/Http/Controllers/CartController.php:229-239 | whichever cart an owner has, its lines are valid |
| Shop.AllLinesValidSet | product-service/app/Http/Controllers/CartController.php:86-93 | storing valid lines for a cart keeps all carts valid |
| Shop.LinesValidLater | product-service/app/Http/Controllers/CartController.php:89-93 | issuing more row ids keeps lines valid |
| Shop.AllLinesValidLater | product-service/app/Http/Controllers/CartController.php:89-93 | issuing more row ids keeps all carts valid |
| Shop.QuantityOfValid | product-service/app/Http/Controllers/CartController.php:73-77 | a valid cart holds a non-negative number of units of any product |
| Shop.RequantifiedValid | product-service/app/Http/Controllers/CartController.php:144 | setting a line to a positive quantity keeps the cart valid |
| Shop.AppendedValid | product-service/app/Http/Controllers/CartController.php:89-93 | appending a fresh line for a product not yet in the cart keeps it valid |
| Shop.RemovedValid | product-service/app/Http/Controllers/CartController.php:180 | deleting a line keeps the cart valid |
| Shop.CatalogValidStock | product-service/app/Http/Controllers/OrderController.php:258-260 | changing only stock levels keeps the catalog valid |
| Shop.DecrementedStockOnly | product-service/app/Http/Controllers/OrderController.php:160 | checkout changes stock levels and nothing else of a product |
| Shop.RestoredStockOnly | product-service/app/Http/Controllers/OrderController.php:259 | cancellation changes stock levels and nothing else of a product |
| Shop.CatalogGrows | product-service/app/Http/Controllers/ProductController.php:69 | a new product keeps every cart and order valid |
| Shop.SnapshotValid | product-service/app/Http/Controllers/OrderController.php:149-157 | the order written for a valid cart names only catalog products and holds at least one unit per item |
| Shop.SnapshotBalanced | product-service/app/Http/Controllers/OrderController.php:127-157 | an order whose items snapshot the cart and whose subtotal is the cart total balances: subtotal equals the items' sum and total equals subtotal plus tax plus shipping |
| Shop.OrdersBalancedAdd | product-service/app/Http/Controllers/OrderController.php:133-146 | recording a balanced order keeps every order balanced |
| Shop.OrdersBalancedSet | product-service/app/Http/Controllers/OrderController.php:206-207 | replacing an order by one with the same items and money fields keeps every order balanced |
| Shop.PlacedOrder | product-service/app/Http/Controllers/OrderController.php:133-157 | the order checkout writes: the user's, pending and unpaid, unstamped, with the checkout details, snapshot items of the cart and the totals of the cart total; `Shop.DraftOrder` builds it and `Shop.Store.Checkout` records it |
| Shop.DraftOrder | product-service/app/Http/Controllers/OrderController.php:126-157 | builds the pending order for a cart: owner, details, a snapshot of the lines, money fields that are the totals of the cart total, and the catalog decremented by the cart |
| Shop.OrdersValidAdd | product-service/app/Http/Controllers/OrderController.php:133-146 | recording a valid order under a fresh id keeps the orders valid |
| Shop.OrdersValidSet | product-service/app/Http/Controllers/OrderController.php:206-207 | changing an order but not its items or money fields keeps the orders valid |
| Shop.SnapshotAndDecrement | product-service/app/Http/Controllers/OrderController.php:149-161 | the checkout loop writes one snapshot item per cart line, in order, and leaves the catalog decremented by the cart |
| Shop.RestoreStock | product-service/app/Http/Controllers/OrderController.php:258-260 | the cancellation loop leaves the catalog restored by the order's items |
| Shop.CheckoutKeepsValid | product-service/app/Http/Controllers/OrderController.php:133-166 | committing a checkout keeps every table valid and every order balanced, empties the owner's cart and leaves other carts alone |
| Shop.Store.constructor | product-service/database/migrations/2024_01_17_000000_create_products_table.php:16-26 | an empty store satisfies the invariant |
| Shop.Store.GetOrCreateCart | product-service/app/Http/Controllers/CartController.php:229-239 | returns the owner's existing cart and changes nothing, or else creates one empty cart under a fresh id; no one's lines change |
| Shop.Store.AddItem | product-service/app/Http/Controllers/CartController.php:45-94 | unknown product or quantity below 1 is invalid; an inactive product is refused; fails exactly when stock cannot cover what the cart would then hold; on failure nothing changes; on success the cart is the old one with the quantity merged or a new line at the current price |
| Shop.Store.AddToCart | product-service/app/Http/Controllers/CartController.php:73-94 | merges into the product's line or appends a new one, failing with insufficient stock exactly when the merged quantity exceeds the stock |
| Shop.Store.UpdateItem | product-service/app/Http/Controllers/CartController.php:126-144 | a quantity below 1 is invalid and a missing line is not found; fails exactly when stock is below the new quantity; on success only that line's quantity changes |
| Shop.Store.RemoveItem | product-service/app/Http/Controllers/CartController.php:175-182 | fails with not found exactly when no line has the id; on success the cart is the old one without that line |
| Shop.Store.Clear | product-service/app/Http/Controllers/CartController.php:206-210 | the owner's cart is empty afterwards, other carts unchanged, and clearing an empty cart changes nothing |
| Shop.Store.Checkout | product-service/app/Http/Controllers/OrderController.php:103-166 | an empty cart fails; otherwise fails exactly when some line's stock is short, naming the first such line's product, and changes nothing; on success a pending order under a fresh id holds a snapshot of the cart, its money fields are the totals of the cart total, stock is decremented by the cart and stays non-negative if it was, and the cart is emptied |
| Shop.Store.PlaceOrder | product-service/app/Http/Controllers/OrderController.php:123-166 | for a cart whose every line is covered, records the drafted order under the next id, decrements stock by the cart, empties the cart and keeps the invariant |
| Shop.Store.Commit | product-service/app/Http/Controllers/OrderController.php:166 | writing a valid catalog, valid cart lines and valid, balanced orders at once keeps the store invariant |
| Shop.Store.Cancel | product-service/app/Http/Controllers/OrderController.php:242-265 | another user's or a missing order is not found; a status other than pending or processing is an invalid state; on success the order is cancelled and every item's stock is restored, staying non-negative if it was; on failure nothing changes |
| Shop.Store.UpdateStatus | product-service/app/Http/Controllers/OrderController.php:199-214 | an unknown status is invalid and a missing order not found; on success the order is the status update of the old one, and stock and carts are untouched |
| Shop.Store.UpdateStock | product-service/app/Http/Controllers/ProductController.php:183-205 | a missing product is not found and an unknown operation invalid; on success only that product's stock changes, to the result of the operation |
| Shop.Store.CreateProduct | product-service/app/Http/Controllers/ProductController.php:55-69 | succeeds exactly when the price and stock are non-negative and the sku is free, storing the product under a fresh id |
| Shop.Store.UpdateProduct | product-service/app/Http/Controllers/ProductController.php:118-134 | a missing product is not found; succeeds exactly when the patch's price, stock and sku are valid, and stores the patched product |
| Shop.Store.CheckoutThenCancel | product-service/app/Http/Controllers/OrderController.php:149-263 | cancelling right after checkout gives every product its stock back, and the order stays recorded as cancelled |
| Shop.Store.CancelTwice | product-service/app/Http/Controllers/OrderController.php:247-263 | a second cancellation of a cancelled order fails with an invalid state |
| Shop.Store.CancelReopenCancel | product-service/app/Http/Controllers/OrderController.php:203-263 | resetting a cancelled order to pending lets it be cancelled again, restoring its stock a second time |
| Shop.Store.AddBeyondStock | product-service/app/Http/Controllers/CartController.php:63-86 | with 5 in stock at 10.00, adding 3 gives a cart of 30.00 and 3 units, and adding 3 more fails with insufficient stock |

## Left out

- HTTP, JSON responses and status codes are not modelled. A failure is one `Error` value; the response shape of the cart actions is reduced to `Shop.CartView`.
- Field-shape validation is not modelled: string lengths, address fields, the payment-method list, url and category fields. Checkout details are taken as given.
- Authentication and session lookup are not modelled. The caller is an `Owner` parameter: a user id, else the guest's session id.
- The clock is a `now` parameter of the status change.
- The generated order number is not modelled. Orders are keyed by a fresh-id counter.
- Database transactions are modelled only as all-or-nothing methods. Persistence failures and `TransactionFailure` are not modelled.
- Status codes are not modelled. Some named errors of the model are 500 responses in the service: a missing line in update and remove, a missing order in cancel and the status change, and a missing product in product update and in the stock operation all surface as `findOrFail` exceptions caught by the generic handler, and the model reports them as `NotFound`. The stock operation has no validation handler, so its rejected input is also a 500; the model reports it as `InvalidInput`.
- Concurrent requests and row locking are not modelled. Every action runs alone.
- The width of the `stock_quantity` column is not modelled. It is a bounded `integer` column, but the model's stock is an unbounded `int`, so an unclamped `add` that would leave the column's range is not caught.
- Decimal column rounding is not modelled. Money is exact and never rounded, so the totals carry no rounding step.
- Product description, category and image fields are not modelled.
- The cart and order listings, the full product listing with its filters, show actions and product deletion are not modelled. The simple product listing is modelled by `Catalog.ActiveProducts` as the active products keyed by id: its newest-first order and its column projection are not modelled. Products are never deleted, so every cart line and order item always names an existing product.
- Order.php, CartItem.php, OrderItem.php and Product.php are not part of this model beyond the fields the controllers use.
