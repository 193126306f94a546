# Pondy Café point of sale, in Dafny

This project models the logic of the Pondy Café point-of-sale system and proves properties of it. The server side is PHP over MySQL; the billing screen is JavaScript. The model covers:

- **The sale transaction** (`api/save_invoice.php`):
  1. validate the request;
  2. upsert the customer by phone;
  3. allocate the next `INV-<year>-NNNN` number;
  4. insert the invoice;
  5. for each cart line, in order: re-read the stock, refuse an unknown product or too little stock, insert the item row, decrement the stock and log a `SALE` ledger entry;
  6. commit everything, or roll everything back.
- **Product administration**:
  - `api/add_product.php`: insert with defaults and an `INITIAL` ledger entry.
  - `api/update_product.php`: partial update, with an `ADJUSTMENT` entry when the stock changes.
  - `api/delete_product.php`: soft delete.
- **The billing screen** (`script.js`):
  - the cart and its four handlers;
  - `updateTotals`;
  - the menu filter;
  - the admin stock clamp and the stock classification;
  - the checkout checks and the request they post.

Modules:

- `Schema`: the tables as values.
  - `Tables` holds the five tables and their auto-increment counters.
  - `Consistent` is the invariant every operation keeps. Its heart is `Reconciled`: each product's stock equals the sum of its ledger changes.
- `Decimal`: PHP's `%d` / `%04d` and MySQL's `CAST(… AS UNSIGNED)`.
- `InvoiceNumber`: the per-year number allocation.
- `Sales`: the sale transaction as a function `Transaction` of the database before the call. The result is either `Saved(receipt, after)` or `Failed(error)`.
- `ProductAdmin`: the three admin endpoints, as functions of the database.
- `Database`: the connection as a class `Store`.
  - It has one mutable field per table and per counter.
  - Each endpoint is a method that writes step by step, in the order the PHP issues its statements.
  - Each method is proved to leave exactly the state its function describes. On failure that is the state before the call: the sale's rollback restores the snapshot taken when the transaction began.
- `Catalog`: the browser's product list and the pure views over it.
- `Cart`:
  - one function per handler (`AddStep`, `UpdateStep`, `RemoveStep`, `ClearStep`) and the invariant `Valid`: unique ids, positive quantities, within stock;
  - the class `ShoppingCart`, whose methods change the global cart in place and are proved against those functions.
- `Checkout`: `checkout()`'s checks and request. It links the screen to the server:
  - a request built by checkout passes the server's validation;
  - a cart within the server's stock is saved;
  - the saved item totals add up to the subtotal the screen showed.

Inputs the code gets from outside are parameters:

- `date('Y')` is `year`.
- `getCategoryIcon` is `categoryIcon`.
- The confirmation dialog's answer is `confirmed`.
- Store writes whose failure the PHP checks are flags:
  - `StoreFaults` for the sale's customer insert, invoice insert and each item insert;
  - `insertFails` / `updateFails` for the admin endpoints.

Points of the code the model keeps as they are:

- The sale handler itself checks the required fields and the empty cart (`save_invoice.php:15-24`).
- The invoice sequence number is read from the 10th character on (`SUBSTRING(invoice_number, 10)`, 1-based).
- Of the customer writes, only the insert's failure is checked; with mysqli reporting errors by return value, a failed update of an existing customer goes unnoticed.
- Stock is not kept non-negative by every operation:
  - `update_product.php` and `add_product.php` accept any stock value;
  - a sale line with a negative quantity raises the stock.

  Only the sale guarantees that the products it sells end at zero or above (`Sales.SavedStock`).

## Model

| member | source | states |
|---|---|---|
| Decimal.CastShowPadded | pondy_cafe/api/save_invoice.php:71-76 | `CAST(… AS UNSIGNED)` of a zero-padded `%d` rendering gives the number back |
| Decimal.LeadingDigits | pondy_cafe/api/save_invoice.php:71 | the digits `CAST AS UNSIGNED` reads are the longest all-digit prefix of the text |
| InvoiceNumber.MaxSequence | pondy_cafe/api/save_invoice.php:71-75 | the year's maximum bounds every sequence number already used in that year, and is 0 when the year has no invoice |
| InvoiceNumber.NextSequence | pondy_cafe/api/save_invoice.php:75 | the allocated sequence number is at least 1 and above every sequence number of the year |
| InvoiceNumber.MaxSequenceAttained | pondy_cafe/api/save_invoice.php:71-74 | a positive maximum is the sequence number of an invoice of that year |
| InvoiceNumber.FormatReadsBack | pondy_cafe/api/save_invoice.php:70-76 | a number formatted for a four-digit year matches that year's `LIKE` pattern, and reading it back from position 10 gives its sequence number |
| InvoiceNumber.FormatOnlyInItsYear | pondy_cafe/api/save_invoice.php:71-76 | a number formatted for one four-digit year never matches another year's pattern |
| InvoiceNumber.AllocatedIsNew | pondy_cafe/api/save_invoice.php:70-76 | the allocated number differs from every number already in the table |
| InvoiceNumber.OtherYearsIgnored | pondy_cafe/api/save_invoice.php:71-72 | invoices of other years stored after the year's own, however many, do not change the allocation |
| InvoiceNumber.EarlierYearsIgnored | pondy_cafe/api/save_invoice.php:71-72 | invoices of other years stored before the year's own, as earlier years' are, do not change the allocation |
| InvoiceNumber.FirstOfTheYear | pondy_cafe/api/save_invoice.php:75-76 | with no invoice yet in the year, the number is that year's sequence 1 |
| InvoiceNumber.NextAfterAllocation | pondy_cafe/api/save_invoice.php:75-76 | once the allocated invoice is stored, the next allocation is exactly one higher |
| InvoiceNumber.GapsAreNotFilled | pondy_cafe/api/save_invoice.php:70-76 | after `INV-2024-0001` and `INV-2024-0007` the next number is `INV-2024-0008` |
| InvoiceNumber.NewYearStartsAtOne | pondy_cafe/api/save_invoice.php:70-76 | the first number of 2025 is `INV-2025-0001` even when 2024 used `INV-2024-0123` |
| InvoiceNumber.InYear | pondy_cafe/api/save_invoice.php:72 | `LIKE 'INV-<year>-%'` as a prefix test; no contract of its own, see `InvoiceNumber.FormatReadsBack` and `InvoiceNumber.FormatOnlyInItsYear` |
| InvoiceNumber.SequenceOf | pondy_cafe/api/save_invoice.php:71 | `CAST(SUBSTRING(invoice_number, 10) AS UNSIGNED)`; no contract of its own, see `InvoiceNumber.FormatReadsBack` |
| InvoiceNumber.Format | pondy_cafe/api/save_invoice.php:76 | `sprintf("INV-%s-%04d", …)`; no contract of its own, see `InvoiceNumber.FormatReadsBack` |
| InvoiceNumber.Allocate | pondy_cafe/api/save_invoice.php:70-76 | the next number of the year; no contract of its own, its properties are `InvoiceNumber.AllocatedIsNew`, `InvoiceNumber.NextAfterAllocation`, `InvoiceNumber.FirstOfTheYear` and the two worked examples |
| Sales.Message | pondy_cafe/api/save_invoice.php:16-146 | the text the handler answers with for each error; no contract of its own, see `Database.Store.SaveInvoice` and `Sales.FailsAtFirstBadLine` |
| Sales.ItemRow | pondy_cafe/api/save_invoice.php:133-144 | the `invoice_items` row of a line, with total price × quantity; no contract of its own, see `Sales.SavedRows` |
| Sales.SaleEntry | pondy_cafe/api/save_invoice.php:154-157 | the SALE ledger entry of a line; no contract of its own, see `Sales.SavedRows` and `Sales.SellLineConsistent` |
| Sales.RejectsIncompleteRequest | pondy_cafe/api/save_invoice.php:15-24 | a request missing a required field fails with "Missing required fields", and one with an empty cart fails with "Cart is empty", before anything is written |
| Sales.OpenInvoiceWrites | pondy_cafe/api/save_invoice.php:31-101 | steps 1 to 3 update the existing customer with this phone (name replaced, one more purchase, total added) or insert a new one (1 purchase, spend = total, email or null); they then append the invoice row with the allocated number and the next id, and touch neither products, items nor ledger |
| Sales.OpenInvoiceConsistent | pondy_cafe/api/save_invoice.php:31-101 | steps 1 to 3 keep the database consistent |
| Sales.SellLinesSucceedsIff | pondy_cafe/api/save_invoice.php:116-158 | the item loop completes exactly when every line's product exists, the stock left after the earlier lines covers its quantity, and its item insert succeeds |
| Sales.SellLinesFirstFailure | pondy_cafe/api/save_invoice.php:123-130 | the first line that fails decides the error: product not found or insufficient stock naming that line's item, or its item-insert error |
| Sales.SellLinesRows | pondy_cafe/api/save_invoice.php:134-157 | the loop appends one item row and one `SALE` entry per line, in line order, and changes neither customers nor invoices |
| Sales.SellLinesStock | pondy_cafe/api/save_invoice.php:150-151 | the loop takes from each product exactly the sum of its lines' quantities and changes nothing else about it |
| Sales.SellLinesNonNegative | pondy_cafe/api/save_invoice.php:128-130 | every product a line names ends with a stock of zero or more |
| Sales.SellLineConsistent | pondy_cafe/api/save_invoice.php:134-157 | one sold line keeps the database consistent, its ledger reconciled included |
| Sales.SellLinesConsistent | pondy_cafe/api/save_invoice.php:116-158 | the whole loop keeps the database consistent |
| Sales.SoldUnmentioned | pondy_cafe/api/save_invoice.php:150 | lines that do not name a product take nothing from it |
| Sales.SavedIff | pondy_cafe/api/save_invoice.php:15-166 | a sale is committed exactly when the request is complete, the cart is not empty, no checked write fails and every line passes its stock check |
| Sales.FailsAtFirstBadLine | pondy_cafe/api/save_invoice.php:123-130 | when line k is the first to fail, the whole sale fails with that line's error |
| Sales.SavedStock | pondy_cafe/api/save_invoice.php:116-151 | a committed sale lowers each product's stock by exactly the sum of its lines' quantities, leaves every sold product at zero or more, and leaves products not on the cart untouched |
| Sales.SavedRows | pondy_cafe/api/save_invoice.php:134-157 | a committed sale appends one item row per line, in cart order, with total = price × quantity, and one `SALE` entry with change −quantity, the invoice id as reference and note "Sold via invoice <number>" |
| Sales.SavedReceipt | pondy_cafe/api/save_invoice.php:79-101 | a committed sale appends exactly one invoice row with the allocated number, and the receipt carries the number, invoice id and customer id that were written |
| Sales.SavedCustomer | pondy_cafe/api/save_invoice.php:36-65 | a committed sale updates exactly the customer with the request's phone, or inserts exactly one new customer |
| Sales.SavedConsistent | pondy_cafe/api/save_invoice.php:116-166 | a committed sale keeps the database consistent: every product's ledger still sums to its stock |
| Sales.ReturningCustomer | pondy_cafe/api/save_invoice.php:36-65 | two sales to a new phone leave one customer row with 2 purchases, the second name, and both totals spent |
| Sales.UpsertCustomer | pondy_cafe/api/save_invoice.php:31-66 | step 1: update the customer with this phone or insert a new one; no contract of its own, its effect is stated by `Sales.OpenInvoiceWrites` and `Sales.SavedCustomer` |
| Sales.OpenInvoice | pondy_cafe/api/save_invoice.php:31-101 | steps 1 to 3 as one function of the database; no contract of its own, its effect is stated by `Sales.OpenInvoiceWrites` and `Sales.OpenInvoiceConsistent` |
| Sales.SellLine | pondy_cafe/api/save_invoice.php:118-157 | one pass of the item loop; no contract of its own, its effect is stated by `Sales.SellLineConsistent` and `Sales.ShiftPastLine` |
| Sales.SellLines | pondy_cafe/api/save_invoice.php:116-158 | the item loop, stopping at the first failing line; no contract of its own, its effect is stated by the `Sales.SellLines*` lemmas |
| Sales.Transaction | pondy_cafe/api/save_invoice.php:15-183 | the whole handler, committed or rolled back; no contract of its own, its effect is stated by `Sales.SavedIff`, `Sales.FailsAtFirstBadLine` and the `Sales.Saved*` lemmas |
| Database.Store.Rollback | pondy_cafe/api/save_invoice.php:176-183 | rolling back restores every table to the snapshot taken at the start of the transaction |
| Database.Store.OpenInvoiceRows | pondy_cafe/api/save_invoice.php:31-101 | the imperative steps 1 to 3 compute exactly `OpenInvoice` and leave the tables it describes |
| Database.Store.SellAllLines | pondy_cafe/api/save_invoice.php:116-158 | the imperative item loop computes exactly `SellLines`: the state after every line, or the first line's error |
| Database.Store.SaveInvoice | pondy_cafe/api/save_invoice.php:15-183 | the handler returns the receipt and leaves the committed state, or answers with the error's message (`Message`) and leaves the database exactly as before; it keeps the database consistent |
| ProductAdmin.NewRow | pondy_cafe/api/add_product.php:20-35 | the inserted product, `minStock` 10 and the category's icon unless given; no contract of its own, see `ProductAdmin.AddInsertsOneProduct` |
| ProductAdmin.InitialEntry | pondy_cafe/api/add_product.php:42-46 | the INITIAL ledger entry of the opening stock; no contract of its own, see `ProductAdmin.AddConsistent` |
| ProductAdmin.AddOutcome | pondy_cafe/api/add_product.php:12-57 | `add_product.php` as a function of the database; no contract of its own, its effect is stated by `ProductAdmin.AddFailsIff` and `ProductAdmin.AddInsertsOneProduct` |
| ProductAdmin.AddFailsIff | pondy_cafe/api/add_product.php:12-15 | an add fails exactly when name, category, price or stock is missing ("Missing required fields") or the insert is rejected |
| ProductAdmin.AddInsertsOneProduct | pondy_cafe/api/add_product.php:20-54 | a successful add inserts exactly one active product under a fresh id (the returned one), using the supplied fields, `minStock` 10 and the category icon by default; it logs exactly one `INITIAL` entry, so the new product's ledger sums to its stock; the product counter moves past the new id and customers, invoices, item rows and the other counters are unchanged |
| ProductAdmin.AddConsistent | pondy_cafe/api/add_product.php:39-48 | a successful add keeps the database consistent |
| Database.Store.AddProduct | pondy_cafe/api/add_product.php:12-54 | the imperative insert computes exactly `AddOutcome` and keeps the database consistent |
| ProductAdmin.AdjustmentEntry | pondy_cafe/api/update_product.php:90-97 | the ADJUSTMENT ledger entry of new − old stock; no contract of its own, see `ProductAdmin.UpdateLedger` |
| ProductAdmin.Patched | pondy_cafe/api/update_product.php:40-86 | the product with every field the request sets replaced; no contract of its own, see `ProductAdmin.UpdateChangesOnlyRequested` |
| ProductAdmin.UpdateOutcome | pondy_cafe/api/update_product.php:12-108 | `update_product.php` as a function of the database; no contract of its own, its effect is stated by `ProductAdmin.UpdateFailsIff`, `ProductAdmin.UpdateChangesOnlyRequested` and `ProductAdmin.UpdateLedger` |
| ProductAdmin.UpdateFailsIff | pondy_cafe/api/update_product.php:12-79 | an update fails, in this order, with "Product ID required", "Product not found", "No fields to update" or the write's failure, and only then |
| ProductAdmin.UpdateChangesOnlyRequested | pondy_cafe/api/update_product.php:40-86 | a successful update sets exactly the fields the request supplies on the requested product, and leaves every other field, product, table and id counter unchanged |
| ProductAdmin.UpdateLedger | pondy_cafe/api/update_product.php:90-100 | a stock set to a new value appends exactly one `ADJUSTMENT` entry of new − old, with no invoice reference, noted "Stock added" or "Stock removed"; otherwise the ledger is unchanged; either way the product's ledger still sums to its stock |
| ProductAdmin.UpdateConsistent | pondy_cafe/api/update_product.php:84-100 | a successful update keeps the database consistent |
| Database.Store.UpdateProduct | pondy_cafe/api/update_product.php:12-100 | the imperative update, which collects the `SET` clauses, computes exactly `UpdateOutcome` and keeps the database consistent |
| ProductAdmin.DeleteOutcome | pondy_cafe/api/delete_product.php:12-31 | `delete_product.php` as a function of the database; no contract of its own, its effect is stated by `ProductAdmin.DeleteFailsIff`, `ProductAdmin.DeleteOnlyDeactivates` and `ProductAdmin.DeleteIdempotent` |
| ProductAdmin.DeleteFailsIff | pondy_cafe/api/delete_product.php:12-31 | a delete fails with "Product ID required" when the id is missing, or with "Failed to delete product", and only then |
| ProductAdmin.DeleteOnlyDeactivates | pondy_cafe/api/delete_product.php:20-28 | a delete keeps every row and id counter and changes only the active flag of the product with that id; an unknown id reports success and changes nothing |
| ProductAdmin.DeleteIdempotent | pondy_cafe/api/delete_product.php:21 | deleting twice leaves the same database as deleting once |
| ProductAdmin.DeleteConsistent | pondy_cafe/api/delete_product.php:21 | a delete keeps the database consistent |
| Database.Store.DeleteProduct | pondy_cafe/api/delete_product.php:12-28 | the imperative soft delete computes exactly `DeleteOutcome` and keeps the database consistent |
| Catalog.FirstIndexOf | pondy_cafe/script.js:175 | `find` by id returns the first element with that id, and nothing exactly when no element has it |
| Catalog.FindProduct | pondy_cafe/script.js:175 | the product found is in the list and has the id, and it is the first such (`Catalog.FirstIndexOf`); none is found exactly when no product has it |
| Catalog.Filter | pondy_cafe/script.js:137 | `filter` keeps exactly the elements satisfying the predicate, and never more elements than it was given |
| Catalog.Lower | pondy_cafe/script.js:142 | the model's `toLowerCase` lower-cases each ASCII letter, leaves every other character alone and keeps the length |
| Catalog.MenuItems | pondy_cafe/script.js:134-144 | the menu `renderMenu` draws; no contract of its own, see `Catalog.MenuShowsExactlyMatches` and `Catalog.MenuIsOneFilter` |
| Catalog.MenuShowsExactlyMatches | pondy_cafe/script.js:134-144 | a product is on the menu exactly when it is in the list, matches the selected category (unless "all") and its lower-cased name contains the search term |
| Catalog.FilterAppend | pondy_cafe/script.js:137 | filtering a concatenation filters each part |
| Catalog.FilterTwice | pondy_cafe/script.js:136-144 | filtering by one predicate and then another is filtering once by both |
| Catalog.MenuIsOneFilter | pondy_cafe/script.js:134-144 | the two-stage menu is the product list filtered once by the combined predicate: same products, same order |
| Catalog.AdjustedStock | pondy_cafe/script.js:528 | the stock the admin buttons request is never negative, and is the adjusted stock whenever that is positive |
| Catalog.AdjustRequest | pondy_cafe/script.js:524-535 | the request `adjustStock` sends; no contract of its own, see `Catalog.AdjustmentNeverNegative` |
| Catalog.AdjustmentNeverNegative | pondy_cafe/script.js:524-535 | the server applies an admin adjustment by setting the clamped, non-negative stock and logging the difference from the stock it held |
| Catalog.LowStockProducts | pondy_cafe/script.js:449 | `products.filter(p => p.stock < p.minStock)`; no contract of its own, see `Catalog.AlertListsAreRowFilters` |
| Catalog.OutOfStockProducts | pondy_cafe/script.js:450 | `products.filter(p => p.stock === 0)`; no contract of its own, see `Catalog.AlertListsAreRowFilters` |
| Catalog.Classify | pondy_cafe/script.js:493 | the admin row class: out of stock at 0, otherwise low below the minimum; no contract of its own, see `Catalog.AlertsMatchRows` |
| Catalog.AlertsMatchRows | pondy_cafe/script.js:449-493 | a listed product is in the out-of-stock alert exactly when its row is out of stock, and in the low-stock alert exactly when its row is low or it is out of stock with a positive minimum |
| Catalog.AlertListsAreRowFilters | pondy_cafe/script.js:449-493 | each alert list is the table's rows picked by class, in order, so its length is the count the alert shows: out-of-stock rows for the one, low-stock rows plus out-of-stock rows with a positive minimum for the other |
| Cart.AddStep | pondy_cafe/script.js:174-200 | `addToCart` as a function of the cart; no contract of its own, its effect is stated by `Cart.AddSucceedsIff`, `Cart.AddCountsOne`, `Cart.AddKeepsValid` and `Cart.AddRaisesSubtotal` |
| Cart.UpdateStep | pondy_cafe/script.js:247-262 | `updateQuantity` as a function of the cart; no contract of its own, its effect is stated by `Cart.UpdateEffect` and `Cart.UpdateKeepsValid` |
| Cart.RemoveStep | pondy_cafe/script.js:266-270 | `removeFromCart` as a function of the cart; no contract of its own, its effect is stated by `Cart.RemoveKeepsOrder` and `Cart.RemoveKeepsValid` |
| Cart.ClearStep | pondy_cafe/script.js:274-280 | `clearCart` as a function of the cart; no contract of its own, see `Cart.ClearEmpties` |
| Cart.Subtotal | pondy_cafe/script.js:285 | the `reduce` of price × quantity; no contract of its own, see `Cart.SubtotalConcat`, `Cart.AddRaisesSubtotal` and `Cart.RemoveLowersSubtotal` |
| Cart.QuantityOfUnique | pondy_cafe/script.js:187-197 | with unique ids, the cart's quantity of a product is that of its one line |
| Cart.AddSucceedsIff | pondy_cafe/script.js:174-197 | an add succeeds exactly when the product is listed, in stock and the cart holds fewer of it than its stock; a refused add changes nothing |
| Cart.AddCountsOne | pondy_cafe/script.js:187-197 | a successful add puts exactly one more of the product on the cart and no more of any other; an existing line grows by one in its place and keeps its product, otherwise a line of one of the listed product is appended at the end; every line of another product stays where it was |
| Cart.AddKeepsValid | pondy_cafe/script.js:187-197 | adding keeps ids unique, quantities positive and each line within its product's stock |
| Cart.UpdateEffect | pondy_cafe/script.js:247-260 | a positive change is refused exactly when the line already holds the product's stock; otherwise the quantity becomes old + change and the line is removed exactly when that is not positive; every other line stays as it was and where it was (the changed line keeps its place; a removed line is spliced out) |
| Cart.UpdateKeepsOtherLines | pondy_cafe/script.js:247-260 | a change that goes through replaces the indexed line's quantity in place, or splices that line out when the new quantity is not positive; every other line is unchanged and in its order |
| Cart.UpdateKeepsValid | pondy_cafe/script.js:247-260 | the quantity buttons keep the cart valid |
| Cart.RemoveKeepsOrder | pondy_cafe/script.js:266-270 | removing takes out exactly the line at the index and keeps the rest in order |
| Cart.RemoveKeepsValid | pondy_cafe/script.js:266-270 | removing keeps the cart valid |
| Cart.ClearEmpties | pondy_cafe/script.js:274-280 | a confirmed clear of a non-empty cart empties it; otherwise nothing changes |
| Cart.CartTotals | pondy_cafe/script.js:284-287 | `updateTotals`: the subtotal, 8% tax on it and their sum; no contract of its own, see `Cart.TotalsConcat`, `Checkout.RequestPassesServerValidation` and `Checkout.RowsTotalIsSubtotal` |
| Cart.SubtotalConcat | pondy_cafe/script.js:285 | the subtotal of two carts joined is the sum of their subtotals |
| Cart.TotalsConcat | pondy_cafe/script.js:284-287 | the subtotal, the tax and the total of two carts joined are each the sum of the two carts' |
| Cart.AddRaisesSubtotal | pondy_cafe/script.js:187-197 | a successful add raises the subtotal by exactly one unit price |
| Cart.RemoveLowersSubtotal | pondy_cafe/script.js:266-270 | removing a line lowers the subtotal by exactly that line's total |
| Cart.ShoppingCart.AddToCart | pondy_cafe/script.js:174-201 | the in-place add leaves the cart and toast `AddStep` describes and, for a product list with no negative stock, keeps the cart valid |
| Cart.ShoppingCart.UpdateQuantity | pondy_cafe/script.js:247-263 | the in-place quantity change leaves the cart `UpdateStep` describes and keeps it valid for the ±1 buttons |
| Cart.ShoppingCart.RemoveFromCart | pondy_cafe/script.js:266-271 | the in-place `splice` leaves the cart and toast `RemoveStep` describes |
| Cart.ShoppingCart.ClearCart | pondy_cafe/script.js:274-281 | clearing leaves the cart `ClearStep` describes |
| Checkout.ToSaleLine | pondy_cafe/script.js:326 | a cart line as posted; no contract of its own, see `Checkout.RequestPassesServerValidation` |
| Checkout.SaleLines | pondy_cafe/script.js:326 | the posted items, one per cart line in order; no contract of its own, see `Checkout.RequestPassesServerValidation` and `Checkout.RowsTotalIsSubtotal` |
| Checkout.Problem | pondy_cafe/script.js:300-315 | the first failing form check; no contract of its own, see `Checkout.CheckoutValidationOrder` |
| Checkout.InvoiceRequest | pondy_cafe/script.js:317-330 | the `invoiceData` object; no contract of its own, see `Checkout.RequestPassesServerValidation` |
| Checkout.CheckoutOutcome | pondy_cafe/script.js:296-330 | the refusal toast or the posted request; no contract of its own, see `Checkout.CheckoutValidationOrder` and `Checkout.RequestPassesServerValidation` |
| Checkout.CheckoutValidationOrder | pondy_cafe/script.js:300-315 | checkout posts exactly when name, phone, cart and payment method are all there; otherwise it reports the first missing one, in that order, with its own message ("Please enter customer name", "Please enter phone number", "Cart is empty", "Please select payment method") |
| Checkout.RequestPassesServerValidation | pondy_cafe/script.js:321-330 | a posted request has every field the server requires and a non-empty cart; its items are exactly the cart's lines in order; it carries the form's name, phone and payment method, sends an empty email as null, and carries the screen's subtotal, 8% tax and total |
| Checkout.RowsTotalIsSubtotal | pondy_cafe/api/save_invoice.php:134 | the server's per-line totals add up to the screen's subtotal |
| Checkout.SavedItemsMatchSubtotal | pondy_cafe/api/save_invoice.php:134-144 | the item rows a saved checkout writes have totals that add up to the subtotal the request carried |
| Checkout.CartWithinServerStockIsSaved | pondy_cafe/api/save_invoice.php:116-131 | a checkout whose cart has one line per product, each within the server's current stock, is saved when no write fails |

## Left out

- HTTP method checks, JSON decoding and encoding, and the SQL text: the tables are maps and sequences.
- `getConnection`, `validateInput` and `getCategoryIcon` from `config.php`. `config.php` is not part of this model. `validateInput` is taken to mean "every listed key is present and not null"; `getCategoryIcon` is the parameter `categoryIcon`.
- `NOW()`, `last_visit` and `created_at`: timestamps are not modelled. `date('Y')` is the parameter `year`.
- Concurrency: two sales racing for the last unit of stock or for the same `max + 1` number. This is the database's isolation level, not sequential logic.
- Auto-increment values used up by a rolled-back insert: the rollback restores the counters as well.
- The model assumes mysqli reports a failed query by its return value and does not throw; `config.php`, which opens the connection, is not part of this model. Under the default of PHP 8.1 and later, a failed write throws `mysqli_sql_exception`: the `catch` of `save_invoice.php:176-183` then rolls back and answers with the driver's message rather than the `Failed to …` text, and a failed customer or stock `UPDATE` also rolls the sale back.
- Writes whose failure the PHP does not check (the existing customer's `UPDATE`, the stock `UPDATE`, every ledger `INSERT`) are taken to succeed.
- MySQL's case-insensitive collation in `LIKE 'INV-<year>-%'`: the model matches the prefix exactly.
- `CAST(… AS UNSIGNED)` with leading spaces or a value beyond 64 bits: the model reads the leading digits as an unbounded natural number.
- InvoiceNumber.FormatReadsBack: proved only for four-digit years, the only ones `date('Y')` gives in practice.
- InvoiceNumber.FormatOnlyInItsYear: proved only for four-digit years, for the same reason.
- InvoiceNumber.AllocatedIsNew: proved only for four-digit years, for the same reason.
- InvoiceNumber.NextAfterAllocation: proved only for four-digit years, for the same reason.
- The JavaScript doubles are `real`s: `toFixed(2)` and the `parseFloat` of the rendered totals are not modelled, so the posted totals are the exact ones.
- `trim()` on the form fields: the form is taken as already trimmed.
- Catalog.Lower lower-cases only the ASCII letters. JavaScript's `toLowerCase` folds every Unicode letter and can change the length of the string; the model's search covers ASCII names only.
- `get_products.php`, `get_customers.php` and `get_dashboard.php`, which only read and list.
- All DOM rendering, toasts, `fetch`, `printInvoice`, `resetForm`, modals and event wiring.
- The server never checks that a quantity is positive (`save_invoice.php:128` compares it only with the stock). A line with quantity 0 passes whenever the stock is not negative and leaves the stock unchanged; a line with a negative quantity passes when the stock is at least that quantity and raises the stock. The model keeps this behaviour.
- Soft-deleted products can still be sold and updated through the modelled write endpoints, none of which reads `is_active`. The billing screen never offers them, because `get_products.php` lists only active products; that read endpoint is not part of this model.
- `is_active` of a new product is taken to default to true. The table definitions are not part of this model.
- A `TypeError` thrown by `updateQuantity` or `removeFromCart` (an index outside the cart, or a positive change for a product no longer listed) is modelled as a call that changes nothing.
- Database.Store.UpdateProduct: the collected `SET` clauses are applied as one write of the patched row, not column by column.
- Cart.AddSucceedsIff: stated for a product list with no negative stock. For a product with negative stock, a first add still appends a line of quantity 1, above that stock, because the code compares against the stock only for a line already on the cart.
- Cart.AddKeepsValid: requires a product list with no negative stock, for the same reason.
- Cart.UpdateKeepsValid: proved for changes of at most +1, the only positive change the screen's buttons make. A larger change can overshoot the stock, because the code only checks that the quantity is below the stock.
