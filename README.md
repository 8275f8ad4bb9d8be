# Honey & Oak boutique server — business rules in Dafny

This project models the business rules inside the Express routes of the Honey & Oak boutique server.

- **Cart line-item store:** add-or-merge by product, size and colour; removal by index; the in-place edit of a line; the discount-code table.
- **Checkout pricing:**
  - cart charge with the 100-cent minimum;
  - side-cart preview;
  - direct purchase with its ±2-cent tamper check.
- **Gift cards:** issuing a card and the redemption state machine.
- **Payment webhook:** turns a paid cart into an order, appends the order to the customer and deletes the cart.
- **Request validators.**
- **Reports:**
  - reporting windows;
  - headline metrics;
  - revenue per day and per category;
  - stock reports;
  - the admin sales and low-stock reports and the order-status update.
- **Catalogue helpers:**
  - the listing query;
  - inventory generation per colour × size;
  - image add and remove;
  - the point-of-sale customer search and sort;
  - the catalogue-variation → product mapping.
- **Google sign-in:** creating a customer and linking to an existing account.
- **Search:** query normalisation and the suggestion lists.

Conventions:
- Money is an exact `real`. `Math.round` is `floor(x + 1/2)`. Dates are integer milliseconds.
- JavaScript truthiness of an optional string is `Given`, and `x || 0` is `OrZero`.
- Stored documents that the routes change in place are classes:
  - `Cart`, `GiftCard` and `Customer`;
  - the webhook's `Db`;
  - the product `Catalog`.
- Each route handler is a method that receives the document its lookup found. `null` stands for a lookup miss.
- Handlers that only compute are functions.
- The payment processor's answers, the clock, random parts and generated ids are parameters.

Modules, one per source file:

| module | source |
|---|---|
| `Common` | shared helpers |
| `Models` | `src/models` |
| `CartRoutes` | cart.js |
| `Checkout` | checkout.js |
| `GiftCards` | giftCards.js |
| `StripeWebhook` | stripeWebhook.js |
| `Validators` | validators.js |
| `Reports` | reports.js |
| `Admin` | admin.js |
| `Products` | products.js |
| `SquareRoutes` | square.js |
| `OAuth` | oauth.js |
| `Search` | search.js |

## Model

| member | source | states |
|---|---|---|
| Models.SubtotalAppend | src/routes/cart.js:100 | Appending a line raises the reduce-subtotal by exactly that line's price × quantity |
| Models.StoredLines | src/models/Order.js:10-22 | An order keeps every line of the cart, in order, with only the undeclared `image` dropped |
| Models.StoredLinesSubtotal | src/models/Order.js:10-22 | Dropping the images leaves the lines' subtotal unchanged |
| Models.SubtotalUpdate | src/routes/cart.js:100 | Replacing one line changes the subtotal by exactly the difference between the old and new line totals |
| Models.Cart.constructor | src/models/Cart.js:3-40 | A new cart is empty, with subtotal, discount and gift-card amount 0, and satisfies the quantity validator |
| Models.GiftCard.constructor | src/routes/giftCards.js:25-33 | A new card's balance equals its amount, it is active with no redemption time, and it keeps recipient, sender and message |
| Models.Customer.constructor | src/models/Customer.js:10-46 | A new customer stores its email lower-cased (the schema's `lowercase: true`) and has the schema defaults: role "customer", both subscriptions false, gift-card balance 0, no orders |
| CartRoutes.FindLine | src/routes/cart.js:81-83 | Returns the first line with the same product, size and colour; None exactly when no line matches |
| CartRoutes.AddLineShape | src/routes/cart.js:81-97 | With a matching line, the length is unchanged and only the first matching line (the one `find` returns) has its quantity raised by the added amount. Otherwise exactly one line is appended, priced at the non-zero sale price or else the list price, with the first image |
| CartRoutes.AddLineQuantities | src/routes/cart.js:81-97 | The added item's total quantity rises by exactly the added quantity and every other item's total is unchanged |
| CartRoutes.SubtotalMerge | src/routes/cart.js:85-86 | Merging into a line raises the subtotal by that line's price × added quantity |
| CartRoutes.AddLineSubtotalMerged | src/routes/cart.js:81-100 | When line k already holds the item, the recomputed subtotal grows by exactly the added quantity times line k's stored price |
| CartRoutes.AddLineSubtotalAppended | src/routes/cart.js:87-100 | When no line holds the item, the recomputed subtotal grows by exactly the added quantity times the captured (sale or list) price |
| CartRoutes.AddItem | src/routes/cart.js:71-106 | Checks the product before the cart (404 for each). The stored cart becomes the merged lines with the subtotal recomputed, or stays unchanged when the schema's quantity minimum rejects the save |
| CartRoutes.SpliceStart | src/routes/cart.js:116 | The start index of `splice`: a negative index counts from the end and is clamped at 0; a large index is clamped to the length |
| CartRoutes.RemoveAt | src/routes/cart.js:116 | Removes at most one line, exactly the one at the normalised index. The list is unchanged iff it is empty or the index is at or past its end |
| CartRoutes.RemoveAtKeepsValid | src/routes/cart.js:116-117 | Removing a line never breaks the quantity ≥ 1 validator |
| CartRoutes.RemoveItem | src/routes/cart.js:109-125 | A missing cart is not found. Otherwise the lines become RemoveAt of the old lines and every other field, the subtotal included, is unchanged |
| CartRoutes.EditLine | src/routes/cart.js:144-167 | A given size the product does not offer is rejected first, then a given colour it lacks. Otherwise size and colour are replaced when given, quantity becomes max(1, q) when given, and nothing else on the line changes |
| CartRoutes.UpdateItem | src/routes/cart.js:129-177 | The 404s come in order: cart, item (index out of range), product. A rejected edit leaves the cart unchanged; an accepted one replaces exactly that line and leaves the subtotal as it was |
| CartRoutes.DiscountRate | src/routes/cart.js:188-193 | Only WELCOME10 (0.1) and SALE20 (0.2) have a rate, and every rate is strictly between 0 and 1 |
| CartRoutes.ApplyDiscount | src/routes/cart.js:181-202 | An unknown code is rejected with no change. A known code sets discountCode and discountAmount = stored subtotal × rate and nothing else |
| CartRoutes.DiscountWithinSubtotal | src/routes/cart.js:195-196 | An accepted code never discounts more than a non-negative subtotal, nor below 0 |
| Checkout.ShippingFor | src/routes/checkout.js:110 | Shipping is 0 exactly when the subtotal is above 100, otherwise 10 |
| Checkout.ChargeCents | src/routes/checkout.js:50-53 | The amount sent is at least 100 cents, is within half a cent of total × 100 unless clamped, and equals round(total × 100) when that is at least 100 |
| Checkout.CartChargeTotals | src/routes/checkout.js:43-47 | The subtotal is Σ price × quantity, tax is 7.75 % of it, shipping is the client's value or 0, and total = subtotal + tax + shipping |
| Checkout.CartCharge | src/routes/checkout.js:25-86 | Checks in order: missing cartId, missing payment token, unknown cart. A charge happens iff all three pass, for ChargeCents(total) ≥ 100, and it is paid iff the processor answers |
| Checkout.PreviewTotals | src/routes/checkout.js:106-111 | Tax is 7 % of Σ price × quantity, shipping follows the free-above-100 rule, and total is their sum |
| Checkout.CartPreview | src/routes/checkout.js:92-124 | Missing cartId, then unknown cart. Otherwise the preview totals with totalCents = round(total × 100), and no payment in the result |
| Checkout.CartChargeExample | src/routes/checkout.js:43-53 | Lines 10 × 2 and 5 × 1 with 10 shipping charge 3694 cents (total 36.9375) |
| Checkout.DirectTotals | src/routes/checkout.js:163-167 | itemTotal = price × quantity, 7 % tax, the shipping rule, total = itemTotal + shipping + tax |
| Checkout.DirectPurchase | src/routes/checkout.js:130-228 | Missing token, missing productId, unknown product, then price mismatch (more than 2 cents off), all before any charge. Any charge is the server's cents and lies within 2 of the client's amount. A paid order has one line at the catalogue price, subtotal = price × quantity, tax 7 % of it, shipping by the free-above-100 rule, total = subtotal + shipping + tax, a charge of round(total × 100) cents, the processor's payment, and status "paid". The line keeps the product's id and name; the buyer's email, the payment id and the line image, which the Order schema does not declare, are not stored |
| Checkout.DirectOrderRejected | src/routes/checkout.js:203 | The order a paid direct purchase builds is refused by the Order schema, because "paid" is not a declared status |
| Checkout.DirectPurchaseCorrected | src/routes/checkout.js:179-205 | Has the same outcome as the route, with the paid order's status set to "processing" |
| Checkout.CorrectedDirectOrderSaves | src/models/Order.js:5-38 | A corrected paid order of a signed-in customer with a declared payment method passes the Order schema |
| GiftCards.Decimal | src/routes/giftCards.js:23 | The printed timestamp is a non-empty run of decimal digits that denotes exactly the timestamp, with no leading zero unless it is 0 |
| GiftCards.IssueCode | src/routes/giftCards.js:23 | The code is "HO-" + the decimal time + "-" + the random part |
| GiftCards.CreateGiftCard | src/routes/giftCards.js:19-43 | No card when the amount is missing or below the schema minimum 10. Otherwise a fresh active card whose balance equals its amount, with the issued code |
| GiftCards.NegativeRedeemRaisesBalance | src/routes/giftCards.js:64-66 | As written, redeeming a negative amount from an active card succeeds and raises its balance |
| GiftCards.NegativeRedeemExample | src/routes/giftCards.js:64-66 | As written, a 50.00 card redeemed for -20.00 holds 70.00 |
| GiftCards.Debit | src/routes/giftCards.js:63-70 | The corrected debit (see Findings): refuses a non-active card, then a negative amount, which the source does not check, then an amount above the balance. Otherwise the balance falls by exactly the amount, and the card is redeemed with the time recorded exactly when the new balance is 0 |
| GiftCards.DebitKeepsInvariant | src/models/GiftCard.js:5-37 | A debit keeps 0 ≤ balance ≤ face amount, with active ⇒ balance > 0 and redeemed ⇒ balance = 0 |
| GiftCards.DebitWholeOrPart | src/routes/giftCards.js:66-70 | Redeeming the whole balance gives balance 0, redeemed, at `now`. Redeeming part leaves the card active with the rest |
| GiftCards.Redeem | src/routes/giftCards.js:57-84 | Over the corrected debit: an unknown card is not found. A refused debit changes neither document. A successful one stores the debited card and credits the customer the same amount only when the customer exists |
| StripeWebhook.OrderTotal | src/routes/stripeWebhook.js:44-49 | total + discount + gift-card amount = subtotal + (tax or 0) + (shipping or 0) |
| StripeWebhook.OrderFor | src/routes/stripeWebhook.js:37-57 | The order copies the cart's lines less their undeclared image, with the same line subtotal, and the cart's subtotal, discount and gift-card fields, uses the computed total, has status "processing" and no payment id (the session id goes to an undeclared field) |
| StripeWebhook.WebhookOrderRejected | src/routes/stripeWebhook.js:53 | As written, every webhook order is refused by the schema, because "stripe" is not a declared payment method |
| StripeWebhook.ResponseAsWritten | src/routes/stripeWebhook.js:25-67 | As written: a bad signature gives 400; a completed session whose cart and customer exist gets no answer, because its order is refused by the schema; anything else gives 200; nothing is written on any path |
| StripeWebhook.WebhookOrderAccepted | src/routes/stripeWebhook.js:37-57 | The corrected order, recorded under "card", always passes the Order schema |
| StripeWebhook.Db.constructor | src/routes/stripeWebhook.js:32-35 | Starts from the given carts and customers with no orders |
| StripeWebhook.Db.HandleEvent | src/routes/stripeWebhook.js:17-67 | The corrected handler, with the order recorded under "card" (see Findings). A bad signature gives 400 with nothing written. Another event type, or a missing cart or customer, gives 200 with nothing written. A completed session appends exactly one order and appends its id to the customer's orders, deletes exactly that cart, and changes nothing else on the customer |
| StripeWebhook.DeliverTwice | src/routes/stripeWebhook.js:32-35 | Over the corrected handler: delivering the same event twice acknowledges both deliveries, adds at most one order (the first), and leaves the cart deleted |
| Validators.IndexOf | src/utils/validators.js:3 | The first position of a character, None exactly when it is absent |
| Validators.AllEmailChars | src/utils/validators.js:3 | True iff every character is admitted by `[^\s@]` |
| Validators.IsValidEmailIff | src/utils/validators.js:2-5 | The scan holds iff the string is a non-empty `[^\s@]` run, then "@", then a run containing a "." with a character on each side, with no white space and no second "@" |
| Validators.EmailAccepted | src/utils/validators.js:3 | "a@b.co" is a valid address |
| Validators.EmailRejected | src/utils/validators.js:3 | "a@.co" is not a valid address: the domain needs a character before its dot |
| Validators.AllPhoneChars | src/utils/validators.js:9 | True iff every character is a digit, white space, "-", "+" or "$" |
| Validators.IsValidPhone | src/utils/validators.js:8-11 | True iff the length is at least 10 and every character is in the phone class |
| Validators.ValidateProduct | src/utils/validators.js:14-19 | Invalid, with its message, iff the name or description is missing or empty or the price is negative (a missing price passes) |
| Validators.ValidateOrder | src/utils/validators.js:22-30 | Missing or empty items are reported before the total. Valid iff items are non-empty and the total is present and positive |
| Reports.PeriodDays | src/routes/reports.js:17-32 | last-7 → 7, last-90 → 90, anything else (last-30 included) → 30 |
| Reports.PeriodRange | src/routes/reports.js:13-35 | The window ends now. "year" starts one year earlier; any other period starts that many days earlier |
| Reports.CurrentRange | src/routes/reports.js:38-45 | Both dates together replace the period window; one date alone is ignored |
| Reports.PreviousRange | src/routes/reports.js:55-60 | The previous window is as long as the current one and ends exactly at its start |
| Reports.BoundaryInBothWindows | src/routes/reports.js:47-67 | An order at the shared boundary falls in both inclusive windows |
| Reports.OrdersIn | src/routes/reports.js:47-52 | The selected orders are exactly those created inside the window |
| Reports.Refunded | src/routes/reports.js:75 | Exactly the orders with status "refunded" |
| Reports.CalcMetrics | src/routes/reports.js:70-85 | Revenue = Σ total and count = length. Over an empty list the average and the refund rate are 0; otherwise the average is the rounded mean and the rate is refunded / count × 100, within 0..100 |
| Reports.RefundRateOfStoredOrders | src/routes/reports.js:75-77 | Over orders saved through the schema's validators, the refund rate is always 0 |
| Reports.TallyAdd | src/routes/reports.js:95 | Adding under a key keeps an existing key's place and puts a new key last |
| Reports.TallyAddSum | src/routes/reports.js:95 | Adding v under any key raises the sum of the tally by v |
| Reports.TallyAddGet | src/routes/reports.js:111-112 | Adding v under k raises k's entry by v and leaves every other entry as it was |
| Reports.SalesByDay | src/routes/reports.js:91-101 | The loop builds the per-day fold of the orders |
| Reports.DayTallyTotals | src/routes/reports.js:91-101 | Every day appears once, and the days' sums add up to the total revenue |
| Reports.DayTallyGet | src/routes/reports.js:93-96 | A day's entry is the revenue of exactly the orders created that day |
| Reports.CategoryOf | src/routes/reports.js:108 | A missing product or an empty category reads "unknown"; otherwise the product's category |
| Reports.SalesByCategory | src/routes/reports.js:104-114 | The nested loops build the per-category fold over every line of every order |
| Reports.CategoryTallyTotals | src/routes/reports.js:104-114 | Every category appears once, and the categories add up to Σ price × quantity over all lines |
| Reports.ItemsIntoGet | src/routes/reports.js:106-112 | The inner loop adds to a category's entry exactly Σ price × quantity over the order's lines in that category |
| Reports.CategoryTallyGet | src/routes/reports.js:104-114 | A category's entry is Σ price × quantity over exactly the lines, of every order, whose product is in that category |
| Reports.CategoryAbsentNoRevenue | src/routes/reports.js:104-114 | A category with no entry has no revenue in any order |
| Reports.CategoryKeysNamed | src/routes/reports.js:108 | No category key is empty |
| Reports.StockOf | src/routes/reports.js:142 | A size's stock, or 0 when missing |
| Reports.TotalStockConcat | src/routes/reports.js:142 | The stock total splits over any division of the sizes |
| Reports.StockReport | src/routes/reports.js:137-145 | One row per product with its stock total. The low-stock rows are exactly the rows with total below 10 |
| Admin.SalesFilter | src/routes/admin.js:66-73 | The date clause is absent iff neither date is given, and each bound is present iff its date is |
| Admin.SalesFilterMeaning | src/routes/admin.js:66-75 | With no dates every order matches. With both, exactly the orders in the inclusive range match. With only a start, those at or after it; with only an end, those at or before it |
| Admin.SalesReport | src/routes/admin.js:75-78 | Revenue = Σ total and count = length. The average is undefined (NaN) iff there are no orders, and otherwise average × count = revenue |
| Admin.RevenueCons | src/routes/admin.js:76 | One more order adds exactly its total to the revenue |
| Admin.UpdateStatus | src/routes/admin.js:30-40 | An unknown id is not found. Otherwise only that order's status changes, to exactly the requested value |
| Admin.AnyTransitionAccepted | src/routes/admin.js:33 | Any status, including one the schema does not declare, is accepted from any status, and setting the old one back restores the store |
| Admin.InventoryReport | src/routes/admin.js:92-100 | The low-stock records are exactly those with quantity below their restock threshold, and totalItems is the record count |
| Admin.InventoryReportConcat | src/routes/admin.js:95 | The low-stock filter splits over any division of the records, in order |
| Products.SortFor | src/routes/products.js:16-19 | price-low → price ascending, price-high → price descending, newest → newest first, anything else → no sort |
| Products.ListingQuery | src/routes/products.js:6-21 | The category clause is present iff a category is given, the search clause iff a search is given, and the cap is 100 |
| Products.ListingQuerySelects | src/routes/products.js:11-14 | With neither category nor search every product is selected; a category never selects another category's product |
| Products.InventoryRecordFor | src/routes/products.js:69-77 | Each record carries the colour, size and sku, quantity = stock or 0, reserved 0, restock threshold 10 |
| Products.InventoryForIndex | src/routes/products.js:66-79 | There are exactly |colors| × |sizes| records, and record c·|sizes| + s is the one for colour c and size s |
| Products.GenerateInventory | src/routes/products.js:64-79 | The nested loop produces exactly the colour-major list of records |
| Products.DropImage | src/routes/products.js:162 | Keeps exactly the images with another id, and is never longer |
| Products.DropImageKeepsOrder | src/routes/products.js:162 | Removal distributes over concatenation and keeps a single image exactly when its id differs, so the kept images stay in order |
| Products.DropImageChanges | src/routes/products.js:156-162 | The list is unchanged iff no image has the id; otherwise it strictly shrinks |
| Products.Catalog.constructor | src/routes/products.js:120 | The catalogue holds the given products |
| Products.Catalog.AddImage | src/routes/products.js:112-143 | A missing url is refused before the lookup, then an unknown product. Otherwise exactly one image is appended to that product and nothing else changes |
| Products.Catalog.RemoveImage | src/routes/products.js:146-174 | An unknown product, then an absent image id, is not found with no change. Otherwise that product's images become DropImage of them |
| SquareRoutes.SearchCustomers | src/routes/square.js:19-26 | A customer is kept iff the lowercased search occurs in the lowercased given name, family name or email; absent fields never match |
| SquareRoutes.EmptySearchKeeps | src/routes/square.js:19-26 | With the empty search, exactly the customers with at least one of the three fields are kept |
| SquareRoutes.SorterFor | src/routes/square.js:29-36 | Z-A, NEWEST and OLDEST select their orders; any other key falls back to A-Z |
| SquareRoutes.LexLeTotal | src/routes/square.js:30-31 | The name order is total |
| SquareRoutes.PrecedesTrans | src/routes/square.js:29-34 | Every sort order is transitive |
| SquareRoutes.SortCustomers | src/routes/square.js:36 | Sorting in place leaves the array ordered by the chosen comparator and a permutation of the input |
| SquareRoutes.InsertAt | src/routes/square.js:36 | One insertion step extends the sorted prefix by one element and permutes the array |
| SquareRoutes.PriceOf | src/routes/square.js:195-198 | The price is the amount in cents divided by 100, or 0 when the amount is missing; it is 0 exactly when the amount is missing or 0 |
| SquareRoutes.PayloadOf | src/routes/square.js:191-224 | A variation is skipped iff it has no sku or a zero price. A payload carries the sku, amount / 100, category "dresses", no colours, the description or the "Imported from Square" default, and one size (name or "Default") with stock 0 if inventory is tracked and 999 otherwise |
| SquareRoutes.SyncProducts | src/routes/square.js:178-257 | The loop with `continue` produces exactly the payloads of the ITEM objects that have variations, item by item |
| SquareRoutes.SyncAllWellFormed | src/routes/square.js:182-218 | Every synced payload has a sku, a non-zero price and one size whose stock is 0 or 999 |
| OAuth.Fill | src/routes/oauth.js:125-129 | A present field is kept; an empty one takes the incoming value only when that is present |
| OAuth.LinkedProvider | src/routes/oauth.js:120-122 | A missing, empty or "local" provider becomes "local+google"; any other is kept |
| OAuth.LinkedKeeps | src/routes/oauth.js:113-133 | Linking never overwrites a Google id, a non-local provider or a filled name or point-of-sale id, and leaves email, password, role, balance and orders unchanged |
| OAuth.LinkedIdempotent | src/routes/oauth.js:113-133 | After linking with a checked profile, the account has a Google id and a provider, and linking again changes nothing |
| OAuth.LinkIdentity | src/routes/oauth.js:115-122 | The Google id is set only when none is stored; the provider becomes LinkedProvider of the old one; no other field changes |
| OAuth.FillProfile | src/routes/oauth.js:124-129 | First name, last name and point-of-sale id each follow the Fill rule; no other field changes |
| OAuth.LinkGoogle | src/routes/oauth.js:113-133 | The existing-customer branch leaves the customer equal to Linked of its old fields |
| OAuth.NewGoogleCustomer | src/routes/oauth.js:96-110 | A fresh customer with the profile's email lower-cased, provider "google", no password, role "customer", both subscriptions off, balance 0, no orders, and the profile's names |
| OAuth.Callback | src/routes/oauth.js:31-133 | A missing code is refused, then a profile without email or Google id redirects, with nothing written. Otherwise a customer is created, or the existing one is linked; when the saved document would have no point-of-sale id (the lookup found a customer without one and none is stored), the required-field check fails the save and the route answers 500 with nothing written |
| Search.SuggestionQueryIdempotent | src/routes/search.js:6 | Normalising an already normalised query changes nothing |
| Search.QueriesAgree | src/routes/search.js:6-44 | Lower-then-trim (suggestions) and trim-then-lower (products) give the same text |
| Search.SuggestionsFor | src/routes/search.js:5-41 | An empty query gives the fixed four suggestions, four categories and no products. Otherwise the three derived suggestions, the matching categories and at most 5 products, in order |
| Search.Derived | src/routes/search.js:18-22 | Exactly "q outfit ideas", "q styles" and "best q for women" |
| Search.DerivedContainQuery | src/routes/search.js:18-22 | Every derived suggestion contains the query |
| Search.ProductsFilterFor | src/routes/search.js:43-62 | The category clause is present iff the normalised category is non-empty, the name clause iff the normalised query is; each carries that text |
| Search.BlankParameterIgnored | src/routes/search.js:44-57 | A query of white space only adds no name clause |

## Left out

- I/O of every kind is not modelled:
  - MongoDB reads and writes (except as maps and sequences passed in or held by a class);
  - the Square and Stripe SDK calls;
  - Google token exchange and profile requests;
  - email, Express error handling and HTTP response bodies.
  A thrown error (a 500) is not modelled except where a schema validator decides the outcome.
- Concurrency is not modelled. Concurrent requests interleaving their read-modify-write of carts and gift cards have no locking in the source.
- Floating-point arithmetic is replaced by exact `real`s. `toFixed` formatting is left out.
- The schema's type casts are not modelled. Examples: a quantity sent as a string, `Number(quantity)` of non-numeric text, and `splice` with a non-numeric index. The model takes integers.
- CartRoutes.AddItem: the subtotal is recomputed only here. RemoveItem and UpdateItem keep the stored subtotal, as the source does.
- Checkout.CartCharge, CartPreview: a cart's `tax` and `shipping` fields are not in the Cart schema, so they read as absent and count as 0 (in the webhook, too).
- Checkout.DirectPurchase:
  - A missing client amount compares as NaN and so passes the tamper check.
  - An order without a customer id is also refused by the schema's required customerId. That is stated for the corrected member only as a precondition.
- GiftCards.CreateGiftCard: the random part of the code (`Math.random` in base 36) is an input.
- GiftCards.Redeem: the customer lookup by id is an input (`null` when absent). A non-numeric amount is not modelled.
- Reports.PeriodRange:
  - Calendar-day arithmetic (`setDate`) is N × 24 h, which ignores daylight-saving shifts.
  - "One year earlier" (`setFullYear`) is an input instant.
- Reports.DayOf: the ISO date string key is the UTC day number. The JSON shape of the day and category lists is not modelled.
- Reports.SalesByCategory: the populated product category is a map from product id to category.
- Admin.SalesReport: the average over no orders is NaN, which JSON renders as null. The model gives None.
- Admin.UpdateStatus: `findByIdAndUpdate` runs no validators. The model therefore accepts any status, as the route does.
- Products.Selects: MongoDB's `$regex` with the `i` option is modelled as a case-insensitive literal substring. Regular-expression metacharacters in the search are not interpreted.
- Products.GenerateInventory: the insert into the inventory collection and the transaction are not modelled, because the source refers to an undefined `Inventory` model and `session`. Only the list of records is modelled. The sku is read from each size entry, although the Product schema does not declare it.
- Products.Catalog.AddImage: the generated image id is an input.
- SquareRoutes.SortCustomers:
  - `localeCompare` is modelled as lexicographic order of character codes.
  - An absent given name on the right of the comparison reads as "undefined". The TypeError thrown when it is on the left is not modelled.
  - Array.prototype.sort's own algorithm is replaced by insertion sort. Only the sorted-permutation result is promised.
- SquareRoutes.SyncProducts: the route as written never syncs anything. `squareService.js` defines neither `getItems` nor `getImageUrl`, and `square.js` does not import `Product`, so every POST /sync-products throws at src/routes/square.js:180 and answers 500. The model states the mapping the route evidently intends: the product upsert and the image-url lookup are left out, and the payload keeps the variation's image ids.
- Search.SuggestionsFor: the category and product matches of the store (`$regex` queries) are inputs. Only the cap of 5 and the order are modelled.
- OAuth.Callback:
  - The point-of-sale customer search and creation is an input id.
  - The JWT cookie and the redirect after sign-in are not modelled.
  - The Customer schema does not declare `googleId` or `authProvider`. Strict mode would drop those two fields on save. The model follows the route's assignments.
  - The email lookup is an input (`existing`). Whether MongoDB matches a mixed-case profile email against the stored lower-cased one is not modelled.
- OAuth.NewGoogleCustomer: requires a present email, which the callback has checked.
- GiftCards.Debit: the corrected debit. It refuses a negative amount with InvalidAmount; the source does not (DebitAsWritten and the Findings table give the source's behaviour).
- GiftCards.Redeem: built on the corrected Debit. As written, a 50.00 active card redeemed for -20.00 stores 70.00, and the customer's gift-card balance falls by 20.00.
- StripeWebhook.Db.HandleEvent: the corrected handler, with the order recorded under "card". As written the save throws, so no order is stored, the customer is not updated, the cart is kept and no answer is sent; ResponseAsWritten states that.
- StripeWebhook.DeliverTwice: built on the corrected handler. As written both deliveries fail the same way and the cart stays.
- Common.LowerChar: lowers A-Z only. JavaScript's `toLowerCase` lowers every Unicode letter, so a search such as "ZOË" matches "Zoë" in the source and not in the model.
- SquareRoutes.SearchCustomers: the search and the fields are lowered by LowerChar, so only ASCII letters are folded.
- Search.SuggestionsFor: the query is lowered by LowerChar, so only ASCII letters are folded.
- Search.ProductsFilterFor: the query and the category are lowered by LowerChar, so only ASCII letters are folded.
- SquareRoutes.SorterFor: a sort key naming an inherited object property ("constructor", "toString") makes `sorters[sort]` a non-comparator in the source; its NaN results count as 0 and the filtered order is kept. The model sorts A-Z.
- CartRoutes.DiscountRate: a code naming an inherited object property ("constructor") has a truthy rate in the source; the product is NaN, the save fails and the route answers 500. The model rejects the code with 400.
- CartRoutes.ApplyDiscount: follows DiscountRate, so the 500 for an inherited-property code is not modelled.
- Validators.IsValidPhone: the pattern `[\d\s\-+$$$$]` admits "$" as well. The model keeps that.

## Findings

| source | as written | input that shows it | evidently intended | confidence | as-written member | corrected member |
|---|---|---|---|---|---|---|
| src/routes/checkout.js:203 | A paid direct purchase builds its order with status "paid", which the Order schema's enum (src/models/Order.js:34-38) does not declare, so `order.save()` throws after the card was charged | any direct purchase the processor accepts | record the paid order as "processing" | high (not executed) | Checkout.DirectOrderRejected | Checkout.CorrectedDirectOrderSaves |
| src/routes/stripeWebhook.js:53 | The webhook's order has paymentMethod "stripe", which the enum (src/models/Order.js:30-33) does not declare, so the save throws before the customer is updated or the cart deleted | any completed session whose cart and customer exist | record the card payment as "card" | high (not executed) | StripeWebhook.WebhookOrderRejected | StripeWebhook.WebhookOrderAccepted |
| src/routes/giftCards.js:64-66 | Only `balance < amount` is checked, so a negative amount passes and raises the balance | a 50.00 active card redeemed for -20.00 ends at 70.00 | refuse a negative amount | high (not executed) | GiftCards.NegativeRedeemExample | GiftCards.DebitKeepsInvariant |
