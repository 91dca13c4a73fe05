# Liquor store: cart, checkout and point-of-sale model

This project models the core of a small Django liquor-store application. It covers:

- the product catalogue;
- one customer's session cart (`carrito`) with its add, update and remove views;
- the customer checkout (`finalizar_compra`), which turns the cart into a sale;
- the point-of-sale form (`venta_crear_view`), where staff record a sale directly;
- the soft delete of a product;
- the role gates on the product, sale, detail, report and dashboard views.

The models file contributes the records `Producto`, `Venta`, `ItemVenta` and `Perfil`. It also gives their choice lists, their column defaults and the `stock_bajo` property.

Modules:

- `Models` (models.dfy): the records as datatypes, the choice lists as enumerations with their stored codes, and the defaults.
- `Access` (access.dfy): one policy `Can(profile, action)` covering every gate. It is proved equal to the gates as each view writes them on the stored role string.
- `Cart` (cart.dfy): the session cart, a map from product id to an entry, plus the insertion order of its keys (Python dictionaries iterate in insertion order). This module also holds the store page's sums and what each cart view does to them.
- `Ledger` (ledger.dfy): sales and line items, and the consistency between a sale's total and its lines. It also holds the sales list and the sale detail.
- `Checkout` (checkout.dfy): the validation loops of both sale paths, as read-only methods, and the line items and stock each path writes, as functions. It also holds the point-of-sale findings and the corrected point-of-sale check.
- `Views` (views.dfy): class `Shop`. Its fields are the product table, the cart, the sales table and the line-item table. Each POST handler is a method that changes them.

Amounts are whole cents, after `DecimalField(max_digits=10, decimal_places=2)`. Stock and quantities are `IntegerField` columns with no sign constraint. So "stock stays non-negative" is proved as a postcondition of the sale paths, not built into the type. The model's integers are unbounded; the column bounds are listed under "Left out".

Points about the code that the model keeps:

- An add always takes exactly one unit, and it refuses once the entry has reached the live stock. It does not clamp a requested quantity.
- Adding a missing product and adding an inactive product both end in a 404.
- Neither sale path looks at `activo`. A deactivated product that is still in a cart, or that is posted to the sale form, is sold.
- At checkout a product missing from the table raises an unhandled `DoesNotExist` before anything is written. The model reports it as `NotFound`, with no change to any table.
- The checkout's sale total and each line's subtotal come from the cart's snapshot. Each line's `precio_unitario` is the product's live price. So no `unit price × quantity = subtotal` claim is made for customer lines. That claim is made only for point-of-sale lines, which are priced live.
- The code has no transaction or lock. The checkout is one sequential method, and nothing is claimed about concurrent requests.

## Model

| member | source | states |
|---|---|---|
| Models.ParseRole | core/models.py:97-106 | decoding a stored role string yields a role exactly when the string is one of the three role codes, and that role's code; the inverse of `RoleCode` |
| Models.ParsePayment | core/models.py:51-55 | a payment method is decoded exactly from `efectivo`, `tarjeta` or `transferencia`; the inverse of `PaymentCode` |
| Models.ParseStatus | core/models.py:57-60 | a sale status is decoded exactly from `completada` or `cancelada`; the inverse of `StatusCode` |
| Models.NewProduct | core/models.py:22-33 | a new product has stock 0 and is active, is therefore low on stock, and keeps the given name, category, description, price and barcode |
| Models.Sold | core/views.py:275-277 | saving a product with a quantity sold subtracts exactly that quantity from its stock and changes no other field; selling 0 is the identity; selling a non-negative quantity never clears the low-stock flag |
| Models.LowStockBoundary | core/models.py:43-46 | `stock_bajo` holds from nine units down and not from ten up, and a product with less stock than a flagged one is flagged too |
| Models.NewSale | core/models.py:62-66 | a new sale has status completada and empty notes, and carries the given user, total and payment method |
| Models.NewLineItem | core/models.py:80-85 | a line item keeps its own copy of the product's name and price at creation, plus the given sale, product, quantity and subtotal |
| Models.NewProfile | core/models.py:105-108 | a new profile has role cliente and an empty phone and address |
| Access.Can | core/views.py:387 | the one access table agrees, action by action and for a missing profile too, with each gate as written on the stored role string: catalog views need admin or cajero (views.py:387, 418, 448); reports need admin (568); the POS form and the dashboard refuse only cliente (306, 479); the full sales list is admin-only (465); another user's sale detail is refused only to a listed non-staff role (554-555) |
| Access.CanIsMonotone | core/views.py:554-555 | whatever a profile may do, every higher-ranked profile may do too (cliente < no profile < cajero < admin) |
| Access.NoProfileAndCustomerGates | core/views.py:479-480 | a user without a profile gets into the POS form, the dashboard and any sale's detail, but not into the catalog views, the reports or the full sales list; a cliente is kept out of all five gated views |
| Access.UnlistedRoleString | core/views.py:554 | a stored role outside the choice list passes the same gates as no profile, except another user's sale detail, which it is refused |
| Cart.NewEntry | core/views.py:166-174 | a first add creates an entry of one unit whose subtotal is the price, with the product's current name, price and stock snapshotted |
| Cart.WithQuantity | core/views.py:196-199 | setting a quantity recomputes the subtotal from the snapshotted price and keeps the snapshot |
| Cart.RemoveKey | core/views.py:193 | deleting a key keeps exactly the other keys, keeps them duplicate-free, and is the identity when the key is absent |
| Cart.RemoveKeyKeepsOrder | core/views.py:193 | deleting the key at position i of a duplicate-free order leaves the keys before it followed by the keys after it, so the other keys keep their order |
| Cart.DistinctAppend | core/views.py:167 | appending a key that is not yet in the cart keeps the key order duplicate-free |
| Cart.SumSnoc | core/views.py:126-127 | a sum over the cart grows by the last key's value |
| Cart.SumFrame | core/views.py:126-127 | a sum over the cart reads only the entries of the keys it sums |
| Cart.SumRemoveKey | core/views.py:193 | deleting a key takes exactly its entry off a sum |
| Cart.SumReplace | core/views.py:158-160 | replacing one entry changes a sum by the difference between new and old |
| Cart.SumExtend | core/views.py:167-174 | appending a new key with its entry adds exactly that entry to a sum |
| Cart.SumOrderIrrelevant | core/views.py:126-127 | the store page's sums do not depend on key order, so summing `values()` and summing `items()` agree |
| Cart.TotalsIgnoreOrder | core/views.py:126-127 | `total_carrito` and `cantidad_items` depend only on the cart's entries: any two duplicate-free listings of its keys give the same subtotal sum and the same quantity sum |
| Cart.IncrementTotals | core/views.py:155-162 | one more unit of an entry keeps the cart well formed, adds its snapshotted price to the cart total and adds one to the item count |
| Cart.AddNewTotals | core/views.py:166-175 | a first add keeps the cart well formed, adds the price to the cart total and one to the item count |
| Cart.SetQuantityTotals | core/views.py:195-199 | setting a quantity of at least one swaps the entry's old subtotal and count for the new ones in the totals |
| Cart.RemoveTotals | core/views.py:192-193 | removing an entry takes exactly its subtotal off the total and its quantity off the count |
| Cart.ItemCountAtLeastEntries | core/views.py:127 | every entry holds at least one unit, so the item count is at least the number of entries |
| Ledger.SaleLinesTotalAppend | core/views.py:265-272 | the per-sale sum of subtotals distributes over appending line items |
| Ledger.SaleLinesTotalOfOthers | core/views.py:265-272 | lines of other sales contribute nothing to a sale's sum |
| Ledger.SaleLinesTotalOfOne | core/views.py:265-272 | when every line belongs to the sale, its sum is the sum of all subtotals |
| Ledger.LedgerAppend | core/views.py:257-272 | recording a sale numbered next, together with only its own lines whose subtotals add up to its total, keeps every sale's total equal to its lines' subtotals |
| Ledger.SalesOf | core/views.py:288-293 | a user's order history holds exactly the sales that user made and is no longer than the ledger; how often each sale occurs is stated by `Ledger.SalesOfCounts` |
| Ledger.SalesOfAppend | core/views.py:288-293 | the history keeps ledger order: the history of a ledger extended by more sales is the old history followed by the new sales' history |
| Ledger.SalesOfCounts | core/views.py:288-293 | the history neither repeats nor drops a sale: each of the user's sales occurs in it as often as in the ledger, and no other user's sale occurs |
| Ledger.VisibleSales | core/views.py:465-468 | the sales list shows every sale to admin and exactly the user's own sales to everyone else, including users without a profile, each as often as in the ledger |
| Ledger.FindSale | core/views.py:551 | the lookup finds a sale with the id when one exists, and fails only when none has it |
| Ledger.SaleDetail | core/views.py:551-560 | a missing sale is a 404, exactly; a found sale is shown when the policy allows it; a refusal happens only to a cliente looking at another user's sale |
| Checkout.PrepareCheckout | core/views.py:236-254 | the validation loop succeeds exactly when every entry's product exists and has at least the entry's quantity in stock; on success the total is the sum of the cart's subtotals and one prepared item per entry carries the live product, the quantity and the snapshot subtotal; on failure it names the first failing entry in cart order, either missing or short of stock |
| Checkout.CheckoutLines | core/views.py:264-272 | the checkout writes one line per entry, in cart order, with the entry's quantity and snapshot subtotal and the live name and price, all belonging to the new sale, adding up to the cart total |
| Checkout.CheckoutStock | core/views.py:274-277 | the checkout's stock update leaves the set of products unchanged |
| Checkout.CheckoutStockAt | core/views.py:274-277 | each product in the cart loses exactly the entry's quantity; every other product keeps its row |
| Checkout.CheckoutKeepsStock | core/views.py:243-277 | because every entry passed the stock check, no product the checkout sold is left with negative stock |
| Checkout.PosItem | core/views.py:503-510 | a point-of-sale item is priced at the live price times the posted quantity |
| Checkout.PosTotalAppend | core/views.py:492-504 | the sale total is accumulated line by line: the total of a form is the total of its first part plus the total of the rest |
| Checkout.PosTotalSingle | core/views.py:503-504 | a single line adds its product's live price times its quantity to the total |
| Checkout.PosLines | core/views.py:519-528 | the form writes one line per posted line, priced live with subtotal = unit price × quantity, all belonging to the new sale and adding up to the sale total |
| Checkout.PreparePosSale | core/views.py:491-510 | as written, each line is checked alone against its product's stock; success happens exactly then, with the live-priced total and one item per line; on failure the first failing line is named |
| Checkout.PosStockAsWritten | core/views.py:530-533 | the as-written commit leaves the set of products unchanged |
| Checkout.PosStockAsWrittenAt | core/views.py:495-533 | as written, a product ends at its fetched stock minus the quantity of the last line naming it |
| Checkout.LastQtyFits | core/views.py:495-501 | every line passed against the stock fetched for it, so the last line naming a product asks for no more than that stock |
| Checkout.AsWrittenKeepsStock | core/views.py:495-533 | as written, a sale can sell more than the stock held, yet no product it names is left with negative stock |
| Checkout.PosStockChecked | core/views.py:530-533 | the corrected commit leaves the set of products unchanged |
| Checkout.PosStockCheckedAt | core/views.py:530-533 | with the corrected commit, a product ends at its stock minus everything its lines asked for |
| Checkout.CheckedKeepsStock | core/views.py:499-533 | after the corrected check, no product the sale names is left with negative stock |
| Checkout.QtyForAbsent | core/views.py:495 | a product no line names is asked for nothing |
| Checkout.LastQtyIsTotalWhenDistinct | core/views.py:495-533 | when no product is named twice, the as-written commit subtracts exactly what was sold |
| Checkout.QtyForSingle | core/views.py:495 | a product named by one line only is asked for that line's quantity |
| Checkout.LastQtyAt | core/views.py:495-533 | when no product is named twice, the last line for a line's product is that line |
| Checkout.RepeatedLineOversells | core/views.py:495-533 | 5 in stock and two lines of 3 for that product: the form accepts them, 6 units are sold, and the stock is left at 2 |
| Checkout.NegativeQuantityRestocks | core/views.py:497-503 | one line of −2 units passes the stock check, the sale total is negative and the stock grows to 7 |
| Checkout.QtyForGrows | core/views.py:495 | with non-negative quantities, what a prefix of the lines asks for a product is at most what all of them ask for |
| Checkout.CumulativeImpliesRunning | core/views.py:495-501 | the cumulative check implies that every line passes when checked against what was asked so far |
| Checkout.RunningImpliesCumulative | core/views.py:495-501 | every line passing the running check implies the cumulative check |
| Checkout.RunningIffCumulative | core/views.py:495-501 | the running line-by-line check accepts exactly the sales the cumulative check accepts |
| Checkout.CheckedAgreesWhenDistinct | core/views.py:495-501 | with distinct products and positive quantities, the corrected check and the as-written check accept the same sales |
| Checkout.PreparePosSaleChecked | core/views.py:491-510 | the corrected validation loop succeeds exactly when every line asks for at least one unit and all lines for a product together fit its stock; on success it gives the live-priced total and one item per line; on failure it names the first line that fails against what was asked so far |
| Checkout.ItemLines | core/views.py:520-528 | the commit loop writes one line per prepared item |
| Checkout.LiveStock | core/views.py:530-533 | saving each item against the current row leaves the set of products unchanged |
| Checkout.CheckoutCommit | core/views.py:264-277 | committing the items the checkout prepared writes exactly the checkout's lines and stock changes |
| Checkout.PosCommit | core/views.py:519-533 | committing the items the form prepared writes exactly its lines; the fetched-row saves give the as-written stock, and the current-row saves give the corrected stock |
| Views.Shop.constructor | core/views.py:152 | a store starts with the given products, an empty cart and empty sales and line-item tables |
| Views.Shop.AddToCart | core/views.py:142-178 | 404 exactly for a missing or inactive product; no stock exactly when stock ≤ 0; +1 exactly when the entry is below live stock, refused at the limit; otherwise a new one-unit entry is appended; only that key changes, every refusal leaves the cart as it was, the entry's quantity stays within stock, and no table is touched |
| Views.Shop.UpdateCart | core/views.py:181-206 | a key not in the cart is ignored and a product gone from the table is a 404; a quantity ≤ 0 removes the key; 0 < quantity ≤ stock sets quantity and subtotal; a larger quantity is refused; only that key changes |
| Views.Shop.RemoveFromCart | core/views.py:209-220 | the key is deleted if present, nothing else changes, and the key is absent afterwards, so a repeat call is a no-op |
| Views.Shop.FinishPurchase | core/views.py:223-285 | an empty cart is refused; otherwise it succeeds exactly when every entry has stock; a failure names the first failing entry in cart order and changes no table and not the cart; a success appends one sale, numbered next and totalling the cart subtotals, and one line per entry, subtracts each entry's quantity from its product, leaves those products with non-negative stock, empties the cart and keeps the ledger consistent |
| Views.Shop.RecordPurchase | core/views.py:256-283 | the writing half of the checkout, once every entry has passed: exactly the sale, the lines and the stock changes above, the cart emptied and the ledger consistent |
| Views.Shop.Commit | core/views.py:512-533 | given the next sale number and items whose subtotals add up to the total: one sale with that total and payment method, one line per item, each fetched product saved minus its quantity, and the ledger kept consistent; the cart is untouched |
| Views.Shop.CommitLive | core/views.py:512-533 | the same commit, with each item's save starting from the row as the earlier items left it |
| Views.Shop.CreatePosSale | core/views.py:476-536 | cliente is refused and an empty form is refused; otherwise the sale succeeds exactly when each line alone fits its stock; a failure names the first failing line in form order and changes nothing; a success appends one live-priced sale and its lines, and leaves each product at the last line's save, as written, never below zero |
| Views.Shop.PosSale | core/views.py:482-536 | behind the gates: success exactly when each line alone fits its stock; a failure names the first failing line and changes nothing; a success records the live-priced sale, its lines and the last-save-wins stock |
| Views.Shop.PosSaleChecked | core/views.py:482-536 | behind the gates, corrected: success exactly under the cumulative check; a failure names the first line that fails against what was asked so far and changes nothing; a success records the sale, its lines and the cumulative stock decrease |
| Views.Shop.CreatePosSaleChecked | core/views.py:476-536 | the corrected sale: the same gates; success exactly under the cumulative check; each product loses all that was sold and no sold product goes negative; the cart is never touched and the ledger stays consistent |
| Views.Shop.SaveItems | core/views.py:519-533 | the commit loop appends one line per item and saves each item's fetched product minus its quantity; the cart and the sales are untouched |
| Views.Shop.SaveItemsLive | core/views.py:530-533 | the corrected commit loop saves each item against the row as the earlier items left it |
| Views.Shop.DeleteProduct | core/views.py:445-457 | without admin or cajero the request is refused; a missing product is a 404; otherwise only that product's active flag is cleared, the row stays, and sales and carts are untouched |

## Left out

- Registration, login, logout and their redirects: framework calls around form checks. The register view stores an unvalidated role string; `Access.UnlistedRoleString` states how such a string fares at the gates.
- The dashboard and report aggregations, and the search and category filters, are ORM query composition (date ranges, aggregates, `icontains` and category lookups). Only their gates are modelled.
- Product create and edit write form strings straight into fields. Only their gates (`Can(_, ManageCatalog)`) and the soft delete are modelled.
- GET branches, `render`, `messages` and redirects. A view's message is modelled as a `CartStatus` or `Failure` value.
- Float and `Decimal` conversions of prices and subtotals: amounts are exact whole cents.
- Form parsing: a non-numeric `cantidad` makes `int()` raise. The model takes the quantity as an integer.
- Column bounds: `stock` and `cantidad` are 32-bit-range `IntegerField` columns and every amount is `DecimalField(max_digits=10, decimal_places=2)`, so amounts of 10^8 or more cannot be stored. In the code such a sale total makes `Venta.objects.create` raise; on the point-of-sale path, an out-of-range stock or subtotal can make `ItemVenta.objects.create` or `producto.save()` raise after the sale row is written. The model's integers are unbounded, so it records such sales as `Ok` and does not model these error paths or the partly written sale they leave.
- Mismatched form lists: when fewer `cantidad` values than `producto_id` values are posted, `cantidades[i]` raises `IndexError` in the point-of-sale view. The model receives the form as one sequence of (product, quantity) pairs, so it cannot express this case; extra `cantidad` values are ignored by the code and by the model alike.
- `Shop.FinishPurchase`, `Shop.CreatePosSale`, `Shop.CreatePosSaleChecked`: the posted `metodo_pago` is not validated in the code; the model takes a `PaymentMethod`, so a sale with a payment string outside the choice list is not modelled.
- The session: one cart in one session. Several users' carts and the session store are not modelled.
- Concurrency, locking and rollback. The code has none, and the model claims no race-freedom.
- Sale cancellation and stock restoration: the code has no path for them.
- `Categoria`, the product image, timestamps, `__str__` and the ordering options. Sale lists are kept in creation order rather than newest first.
- core/urls.py and core/admin.py are not part of this model.
- The point-of-sale form's lookup of a missing product raises `DoesNotExist` before any write. It is modelled as `NotFound`, with no change, like the checkout.
- Neither sale path checks whether a product is active, and the model does not add that check.
- The commit is split into separate methods (`Shop.Commit`, `Shop.CommitLive`, and the loops `Shop.SaveItems`, `Shop.SaveItemsLive`); the point-of-sale handler's body behind its gates is `Shop.PosSale` (corrected: `Shop.PosSaleChecked`). The validation loops are module-level methods over the catalog value (`Checkout.PrepareCheckout`, `Checkout.PreparePosSale`), because they only read.

## Findings

| source | as written | input that shows it | evidently intended | confidence | as-written member | corrected member |
|---|---|---|---|---|---|---|
| core/views.py:495-533 | each posted line is checked alone against a freshly fetched product, and each save writes that fetched row minus its own quantity | product with stock 5 and two lines for it of 3 units each: both pass, 6 units are sold, and the stock is saved as 2 | all lines for a product together fit its stock, and the stock drops by everything sold | not executed | Checkout.RepeatedLineOversells, Views.Shop.CreatePosSale | Views.Shop.CreatePosSaleChecked |
| core/views.py:497-503 | a posted quantity is only compared with the stock, so zero and negative quantities pass | stock 5, one line of −2 units at 10.00: the sale totals −20.00 and the stock becomes 7 | a line asks for at least one unit | not executed | Checkout.NegativeQuantityRestocks, Views.Shop.CreatePosSale | Views.Shop.CreatePosSaleChecked |
