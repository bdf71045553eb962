# Ark shop: a verified model

A model of the shop back end: orders, digital inventory (keys and accounts), payments and
provider webhooks, coupons, the wallet, refresh tokens and the CSV catalogue import. The
database tables are maps in a mutable `Database`; repositories and services are classes whose
methods have the branches and loops of the original. Every method is proved against a
relation or function on table values (`Fulfilment`, `Pricing`, `Csv`, `Price`, `Sheet`), and the
properties of whole runs are proved about those.

Run `dafny verify dfyconfig.toml`.

## How it fits together

- `Store` holds the tables as values (`State`) and as the mutable `Database`. A failed
  transaction is a `Rollback` to the state at its start; `None` or `false` is a thrown error.
- `Fulfilment` says what each operation does. Row choice without an `ORDER BY`
  (`findFirst`) is left open, so delivery is a relation: any AVAILABLE unit may be taken.
- `Invariants`, `OrderInvariants` and `PaymentInvariants` prove one inductive invariant through
  all eighteen steps of `Runs`. Three operations are split: an administrator's delivery reads
  the item list in one step and runs its transaction in another, a cart with a coupon is priced
  and checked before the order transaction starts, and a refund reads the payment before it calls
  the provider and writes. What was read may be stale by then. Provider events are handled to
  completion in one step.
- The schema's unique indexes matter. `Key.orderItemId` and `Account.orderItemId` are unique
  (`prisma/schema.prisma`), so a delivery also fails when some row already names the item; a key
  reserved for an item through `reserveKey` therefore blocks that item's delivery.
  `CanDeliver` has this clause.
- `Sessions` splits every call into its single statements and lets any number of callers
  interleave. `PixCharges` states the fifteen-minute spacing over whole runs of the shop, so other
  operations may come between two PIX requests.
- `OrderTotals`, `PaymentLife` and `Refunds` state what orders cost, what a payment's status rules out
  and when money goes back, over the same runs.
  `UnitRules` relates the inventory operations to one another. `SplitApproval` looks at what an
  approval and its delivery keep when something comes in between.
- `Csv`, `Price`, `Sheet` and `SheetRoundTrip` give the parser and the printers it inverts.
- `ReceiptRules`, `RequestRules`, `OrderRules`, `UnitRules`, `SheetRules` and `Regions` state in plain
  numbers, words and rows what the definitions in `Fulfilment` and `Sheet` come to.

Fixed assumptions of `Runs`: product types do not change; key rows are imported into KEY products
only (the original checks the matching condition for accounts alone); administrators do not edit the
status of single keys or accounts; coupon limits are not edited while an order is in flight.
The spacing in `PixCharges` is about one order, whatever other orders' requests do: it assumes that
each charge for that order comes after its own request was read, and that the provider does not hand
out for it a transaction id that another order's payment carries. `PixCharges.ChargeOpens` shows that
with such an id, and only then, the charge is made and no row records it.

Where code and documentation differ, the code is followed. `WalletService.getTransactions`
takes a page number but never passes a cursor, so page numbers reach the whole history exactly when
it fits on one page (`Wallet.PageNumbersReachAll`). The price parser's comment promises Brazilian
amounts, yet a grouped whole amount without decimals (`1.234`) is read as a decimal number: it is
read exactly if and only if it is below 1000 (`Price.BrazilianWhole`). An order's
discount is computed from one reading of the prices and its items from a later one, so a total can
be negative: it is not negative exactly when the checked discount is at most the later sum
(`OrderTotals.OrderTotal`, with a run to -90.00 in `OrderTotals.TotalBelowZero`). With equal prices
at both reads it never is, and it stays at or below the subtotal exactly when the coupon's value is
not negative or it is a percentage of nothing (`OrderTotals.CheckedOrder`); only the request DTO
rules out negative values. A refunded payment does not stay refunded under every event: a late
receipt approves it again unless its order is PAID, and a cancellation rejects it
(`Refunds.RefundedStep`). Two refunds that overlap both reach the provider (`Refunds.PaidBackTwice`).
`RefundRun` is a run from the empty shop that shows both, and the state in which a refund between an
approval and its delivery frees a delivered unit. When delivery fails after an approval, the log says
that the order stays PAID for a manual retry; in fact it is parked in PROCESSING, which has no way back
to PAID while the payment stays APPROVED (`PaymentLife.ParkedUnserved`).

## Model

| member | source | states |
|---|---|---|
| Runs.NextKeeps | src/modules/orders/orders.repository.ts:305-376 | every operation, also one acting on stale reads, keeps the shop's invariant and leaves delivered units and filled items alone |
| Runs.NoUnitShared | src/modules/orders/orders.repository.ts:538-562 | in no reachable state do two items name one unit, and no item has both a key and an account |
| Runs.OneUnitForLife | src/modules/orders/orders.repository.ts:505-565 | an item that has a unit keeps that very unit for ever, delivered and naming the item |
| Runs.DeliveredForEver | src/modules/orders/orders.repository.ts:341-353 | a delivered row never changes again, in particular never becomes AVAILABLE; at most it disappears with its product |
| Runs.ReleaseNeverFires | src/modules/orders/orders.repository.ts:334-358 | in a reachable state an allowed cancellation or refund changes the order's status and nothing else |
| Runs.CacheAgrees | src/modules/orders/orders.repository.ts:41-69 | in every reachable state a product with inventory rows has its count of AVAILABLE rows as stock |
| Runs.OnlyEditsActivate | src/modules/orders/orders.repository.ts:62-68 | no operation except an administrator's product edit switches a product on |
| Runs.PaymentAndOrderAgree | src/modules/payments/payments.repository.ts:195-265 | a REJECTED payment's order is CANCELLED, and an APPROVED payment's order is past PENDING and AWAITING_PAYMENT |
| Runs.CouponQuota | src/modules/orders/orders.service.ts:60-88 | usedCount is the number of committed orders carrying the coupon and stays within maxUses, whatever checks and orders interleave |
| OrderInvariants.CommittedKeeps | src/modules/orders/orders.repository.ts:488-593 | a committed delivery keeps the invariant, also from the state an approval leaves behind |
| OrderInvariants.ReadOkKept | src/modules/orders/orders.service.ts:134-147 | an item list read for delivery never claims a unit the items do not have, however the shop moves on |
| OrderInvariants.PlaceOrderKeeps | src/modules/orders/orders.repository.ts:122-166 | placing an order keeps links, stock cache and coupon count |
| OrderInvariants.ReleaseFreesNothing | src/modules/orders/orders.repository.ts:334-358 | an order that may still change status holds no unit, so the release branch is the identity |
| Invariants.DeleteProductKeeps | src/modules/products/products.service.ts:50-60 | deleting a product with its rows never takes a unit an item holds |
| PaymentInvariants.ReceivesKeeps | src/modules/payments/payments.service.ts:287-352 | approval with its delivery, or with parking in PROCESSING, keeps the invariant although it writes PAID over any status |
| SplitApproval.SecondUnitRefused | src/modules/orders/orders.repository.ts:548-562 | wherever every unit an item names is delivered and names it back, also between an approval and its delivery as long as no refund has come in between, no stale list gives a filled item a second unit |
| SplitApproval.RefundBetween | src/modules/payments/payments.repository.ts:195-231 | a refund between an approval and its delivery leaves the inventory alone exactly when no item of the order is filled |
| SplitApproval.RefundFrees | src/modules/orders/orders.repository.ts:334-358 | otherwise each delivered unit of the order goes back on sale while its item still names it |
| RefundRun.SoldKeyFreed | src/modules/orders/orders.repository.ts:334-358 | a reached state, with a payment that is not APPROVED and an order that is not PAID, in which this happens to a delivered key |
| PaymentInvariants.FilledDelivers | src/modules/orders/orders.repository.ts:497-566 | a PAID order whose items are all filled is always delivered again |
| Orders.OrdersRepository.DeliverOrderAtomic | src/modules/orders/orders.repository.ts:488-593 | commits exactly when the order is PAID, every line is one unit, no wanting line is already named, and no product lacks units; then each wanting line has its own unit and each product lost exactly its demand; otherwise nothing changed |
| OrderRules.DeliverableExactly | src/modules/orders/orders.repository.ts:497-551 | a delivery goes through exactly when the order is PAID, every line is one unit, no unit names a line that still asks, and each product has an AVAILABLE unit for each such line |
| OrderRules.DeliveredExactly | src/modules/orders/orders.repository.ts:553-590 | it leaves the order DELIVERED, each such line with a unit that was on sale, other items alone, and the products served recounted and switched off when nothing is left |
| Orders.SnapshotsAgree | src/modules/orders/orders.service.ts:134-147 | whether an order can be delivered does not depend on the order of its item list |
| Orders.DemandIsCount | src/modules/orders/orders.repository.ts:497-566 | the demand for a product is the number of distinct items still asking for it |
| Orders.OrdersRepository.Create | src/modules/orders/orders.repository.ts:71-170 | commits exactly when all products exist, are active and have enough cached stock; then order, items and synchronised stock are as specified |
| OrderRules.OrderFitsStock | src/modules/orders/orders.repository.ts:122-137 | in any run, an order that commits takes no more units of a product with inventory than are AVAILABLE |
| OrderRules.EnoughCommits | src/modules/orders/orders.repository.ts:122-137 | and a purchase of products on sale, with units enough and a use of its coupon left, does commit |
| OrderRules.OrderFitsCache | src/modules/orders/orders.repository.ts:122-137 | nor does it take more than the stock says, for any product of the cart |
| OrderRules.PlacedExactly | src/modules/orders/orders.repository.ts:139-166 | a purchase leaves the new order and its one-unit items at the prices read, the products recounted and switched off when nothing is left, and the coupon counted once |
| Orders.OrdersRepository.UpdateStatus | src/modules/orders/orders.repository.ts:305-376 | succeeds exactly on the allowed transitions and has the whole specified effect, release included |
| OrderRules.StatusChange | src/modules/orders/orders.repository.ts:320-332 | in every step an order's status changes only by one of the nine transitions, by its own delivery from PAID, or by a receipt or cancellation |
| OrderRules.PaidOnlyAfterAwaiting | src/modules/orders/orders.repository.ts:320-332 | in any run, an order is PAID after a step only if it was AWAITING_PAYMENT before, AWAITING_PAYMENT only if it was PENDING, and never PENDING again |
| UnitRules.ReleaseExactly | src/modules/orders/orders.repository.ts:334-358 | a release frees exactly the units that the order's items name |
| Orders.OrdersRepository.Cancel | src/modules/orders/orders.repository.ts:378-380 | succeeds exactly for orders that are PENDING, AWAITING_PAYMENT or PROCESSING |
| Orders.OrdersRepository.SyncAll | src/modules/orders/orders.repository.ts:355-357 | the loop synchronises exactly the given products |
| Orders.OrdersRepository.ReadItems | src/modules/orders/orders.repository.ts:187-240 | returns every item of the order once, as stored |
| Orders.OrdersService.CheckCart | src/modules/orders/orders.service.ts:31-46 | accepts exactly a cart that can be priced with a valid coupon, and returns the capped discount |
| OrderRules.ChecksExactly | src/modules/orders/orders.service.ts:31-46 | a cart passes the check exactly when all of it is on sale and the coupon is accepted for its price |
| Orders.OrdersService.Create | src/modules/orders/orders.service.ts:60-91 | order and coupon count commit together or not at all |
| Orders.OrdersService.DeliverOrder | src/modules/orders/orders.service.ts:134-147 | delivers what was read, exactly when the order can be delivered |
| Allocation.ProgressTake | src/modules/orders/orders.repository.ts:538-564 | taking one AVAILABLE unit for one line extends the allocation and keeps the stock balance |
| Allocation.OutOfUnits | src/modules/orders/orders.repository.ts:542-546 | a line that finds no unit shows that the whole order asks for more than there was |
| Allocation.NamedFromStart | src/modules/orders/orders.repository.ts:548-551 | the unique index refuses a line in the middle of the loop exactly when it would have at the start |
| Webhooks.HandledTwice | src/modules/payments/webhooks/asaas-webhook.handler.ts:87-176 | handling an event right after it was handled changes nothing and gives the same answer |
| Webhooks.Stuttering | src/modules/payments/webhooks/asaas-webhook.handler.ts:102-144 | a run over any event list reaches the same states as over the list without adjacent repetitions |
| Payments.AsaasWebhookHandler.HandleEvent | src/modules/payments/webhooks/asaas-webhook.handler.ts:87-144 | has exactly the specified effect and answer for each event, and the invariant holds afterwards |
| ReceiptRules.ApprovedByReceipt | src/modules/payments/payments.service.ts:287-314 | in every step a payment becomes APPROVED only by a receipt that names its transaction, carries no amount or one within 0.01 of what is due, and finds its order not PAID |
| ReceiptRules.ReceiptDecides | src/modules/payments/payments.service.ts:295-318 | such a receipt approves the payment and leaves its order DELIVERED with all items filled or PROCESSING with none; with any other amount it changes nothing and is not processed |
| ReceiptRules.ReceiptSkipped | src/modules/payments/payments.service.ts:306-310 | a receipt for an APPROVED payment, or one whose order is PAID, changes nothing |
| ReceiptRules.EnoughDelivers | src/modules/payments/payments.service.ts:253-273 | with units enough for the items that ask, the order is delivered and not parked |
| ReceiptRules.RefundEventMarks | src/modules/payments/payments.service.ts:378-391 | a refund event marks exactly the payment it names |
| ReceiptRules.CancellationMarks | src/modules/payments/payments.repository.ts:235-265 | a cancellation rejects exactly the payment it names and cancels exactly its order |
| ReceiptRules.EventUnknown | src/modules/payments/webhooks/asaas-webhook.handler.ts:140-176 | an event that names no stored payment changes nothing, and what the provider is told |
| ReceiptRules.EventQuiet | src/modules/payments/webhooks/asaas-webhook.handler.ts:107-131 | overdue and unknown events change nothing, and an authorisation request is granted exactly when it carries data |
| Payments.PaymentsService.DeliverOrderByPayment | src/modules/payments/payments.service.ts:253-273 | delivers the order, or leaves it in PROCESSING with nothing else changed |
| Payments.PaymentsService.ApproveByTx | src/modules/payments/payments.service.ts:287-319 | refuses a wrong amount, skips what is already approved, otherwise approves and delivers |
| Payments.PaymentsService.CreatePayment | src/modules/payments/payments.service.ts:24-164 | answers from the stored payment, re-issues an expired PIX, creates a first payment, or refuses |
| RequestRules.NotPayable | src/modules/payments/payments.service.ts:34-45 | a request for somebody else's order, or off its total by more than 0.01, is refused without a charge |
| RequestRules.FirstPixCharged | src/modules/payments/payments.service.ts:108-153 | a first PIX request is charged and stored as PENDING, open for 900000 milliseconds |
| RequestRules.ExpiredReissued | src/modules/payments/payments.service.ts:94-143 | a request that finds the PENDING PIX expired is charged again: the payment carries the new transaction and is open for another 900000 milliseconds |
| RequestRules.OpenAnswered | src/modules/payments/payments.service.ts:102-107 | a PIX that is still open, or never expires, is the answer and nothing changes |
| RequestRules.SettledRefused | src/modules/payments/payments.service.ts:94-100 | a PIX request for a payment that has left PENDING is refused without a charge |
| RequestRules.FirstOtherStored | src/modules/payments/payments.service.ts:155-164 | a first request by another method stores a PENDING payment and charges nothing |
| RequestRules.OtherAnswered | src/modules/payments/payments.service.ts:61-90 | by another method an existing payment is the answer exactly when it is PENDING or APPROVED, of the same amount and method, and no two keys disagree |
| PixCharges.PayWhileOpen | src/modules/payments/payments.service.ts:94-143 | while an order's payment is open its order is not charged, and no request of any order shortens its time |
| Refunds.RefundedStep | src/modules/payments/payments.service.ts:287-318 | a refunded payment stays refunded under every operation except exactly a cancellation event for it, or an accepted receipt for it while its order is not PAID |
| Refunds.RefundedOnce | src/modules/payments/payments.service.ts:184-207 | in any run without a reviving event in between, a payment is paid back a second time only by a caller that had read it before the first refund was written |
| UnitRules.RefundExactly | src/modules/payments/payments.service.ts:184-207 | a refund starts exactly for an APPROVED payment that the provider knows, and writes exactly that payment |
| Refunds.PaidBackTwice | src/modules/payments/payments.service.ts:184-207 | for a caller with no other refund in between that is exact: it pays back again if and only if it had read before |
| RefundRun.RefundedTwiceAndRevived | src/modules/payments/payments.service.ts:184-207 | a run from the empty shop in which one payment is paid back twice, and a late receipt then approves it again |
| PaymentLife.NeverChargedAgain | src/modules/payments/payments.service.ts:94-125 | in any run, once an order's payment has left PENDING the order is never charged again |
| PaymentLife.ParkedUnserved | src/modules/payments/payments.service.ts:253-318 | in any run, an order parked in PROCESSING is not PAID again and none of its items gets a unit while its payment stays APPROVED |
| PixCharges.ChargesSpaced | src/modules/payments/payments.service.ts:94-153 | in any run in which an order's charges come after their requests and carry no other order's transaction, two charges for that order are at least fifteen minutes apart, whatever other orders do |
| PixCharges.ChargeOpens | src/modules/payments/payments.service.ts:126-153 | a charge keeps the order's payment open for fifteen minutes, except that a transaction id already stored for another order makes the charge go unrecorded |
| PixCharges.ChargesInWindow | src/modules/payments/payments.service.ts:126-153 | in the same runs a window of a given length sees at most one charge for the order per fifteen minutes, plus one |
| PixCharges.SupersededIgnored | src/modules/payments/payments.service.ts:287-292 | in any run, once a re-issue has replaced a transaction no payment carries it, and an event naming it changes nothing however late it comes, unless the provider hands the same id out again |
| Pricing.FlatCounts | src/modules/orders/orders.repository.ts:112-118 | the flattened items contain each product exactly as often as it was requested |
| Pricing.FlatSums | src/modules/orders/orders.repository.ts:94-118 | the flattened items cost what the request costs |
| Pricing.CalculateSubtotal | src/modules/orders/orders.service.ts:93-112 | fails exactly on a missing or inactive product, otherwise returns the subtotal |
| Pricing.GroupByProduct | src/modules/orders/orders.repository.ts:78-85 | the map holds each product's total requested quantity |
| Pricing.ValidateAndCalculate | src/modules/coupons/coupons.service.ts:62-95 | accepts exactly the valid coupons and returns the capped discount |
| Pricing.AcceptedExactly | src/modules/coupons/coupons.repository.ts:119-151 | a coupon is accepted exactly while it is active, within its dates, with a use left and on its minimum, all limits included |
| Pricing.DiscountsAdd | src/modules/coupons/coupons.service.ts:65-79 | percentage discounts add up in the value, and one hundred percent makes the total zero |
| Pricing.DiscountExactly | src/modules/coupons/coupons.service.ts:65-79 | a fixed coupon takes off its value, a percentage its hundredth parts, and neither more than there is |
| OrderTotals.OrderTotal | src/modules/orders/orders.repository.ts:94-147 | in every reachable state an order's total is the sum of its items' prices less its discount, and is not negative exactly when the discount is at most that sum |
| OrderTotals.CheckedOrder | src/modules/orders/orders.service.ts:31-81 | over any run from coupon check to purchase: the total is the new sum less the discount of the old one, and not negative exactly when that discount is at most the new sum; with the same non-negative prices it is not negative, and at most the subtotal exactly for coupons of non-negative effect |
| OrderTotals.TotalBelowZero | src/modules/orders/orders.service.ts:31-68 | a run in which the price falls after the coupon check commits an order with total -90.00 |
| Inventory.AccountsRepository.CreateBatch | src/modules/accounts/accounts.repository.ts:122-173 | imported and failed add up to the lines, one message per failure, exactly `imported` new AVAILABLE rows, stock synchronised whenever a line parsed, on the bulk and on the fallback path |
| Inventory.KeysRepository.CreateBatch | src/modules/keys/keys.repository.ts:61-117 | the same accounting for keys; a transaction that no longer takes statements after a failed bulk insert stores nothing |
| UnitRules.ReservedOnce | src/modules/keys/keys.repository.ts:180-213 | a reserved key is off sale, can be neither reserved again nor deleted, its item can reserve no other key, and an order whose item still asks for a key can no longer be delivered |
| UnitRules.ReserveExactly | src/modules/keys/keys.repository.ts:180-213 | exactly an AVAILABLE key can be reserved, for an item that no key names |
| UnitRules.ImportThenDelete | src/modules/keys/keys.repository.ts:318-340 | deleting a row that was just imported puts the table back, with the stock synchronised |
| UnitRules.ImportExactly | src/modules/keys/keys.repository.ts:85-114 | an import brings in exactly so many new rows, AVAILABLE and naming no item, and leaves the old ones |
| UnitRules.SyncExactly | src/modules/keys/keys.repository.ts:23-39 | the inventory sync counts the product's AVAILABLE rows and changes nothing else, not even whether it is on sale |
| UnitRules.DeletedOnce | src/modules/accounts/accounts.repository.ts:299-315 | a deletion takes exactly one unit off sale, once |
| UnitRules.HandedOver | src/modules/keys/keys.repository.ts:243-257 | a unit handed over is off sale for good: it can be neither reserved nor deleted, and handing it over again changes nothing |
| UnitRules.HandOverExactly | src/modules/keys/keys.repository.ts:243-257 | any row can be handed over, whatever its status, and keeps the item it names |
| Inventory.UnitTable.InsertEach | src/modules/accounts/accounts.repository.ts:157-168 | stores one row per successful insert and counts the rest |
| UnitRules.UpdatedHonestly | src/modules/products/products.repository.ts:151-187 | no update leaves a product on sale without a unit of its own type to sell; stock is the count of such units whenever rows exist; repeating the update changes nothing |
| UnitRules.UpdateExactly | src/modules/products/products.repository.ts:151-187 | an update is refused exactly when it would leave the product on sale with no unit of its type; otherwise price and sale are as asked, and the stock given counts only without rows |
| UnitRules.CreateExactly | src/modules/products/products.repository.ts:54-75 | a product may start on sale exactly when some unit of its type, of any product, is AVAILABLE |
| UnitRules.DropExactly | src/modules/products/products.service.ts:50-60 | a product that no item names can be dropped, and exactly its own rows go with it |
| UnitRules.CouponExactly | src/modules/coupons/coupons.repository.ts:12-30 | a new coupon starts unused, with the rest as given |
| Inventory.AccountLineRoundTrip | src/modules/accounts/accounts.repository.ts:19-58 | a printed `email:password` line is read back |
| Inventory.AccountMetadataRoundTrip | src/modules/accounts/accounts.repository.ts:37-51 | metadata is read back whole, colons included, exactly when it parses |
| Inventory.TwoParts | src/modules/accounts/accounts.repository.ts:24-57 | of any line with one colon both trimmed parts are needed |
| Inventory.ThreeParts | src/modules/accounts/accounts.repository.ts:24-57 | of any line with more, the metadata must parse and then both other parts are needed |
| Inventory.NoColonRefused | src/modules/accounts/accounts.repository.ts:24-32 | a line without a colon is refused as having the wrong format |
| Inventory.CommentRefused | src/modules/accounts/accounts.repository.ts:24-27 | blank lines and comments are refused as such |
| Csv.ParseCsvLine | src/modules/products/services/csv-parser.service.ts:100-127 | the loop that skips inside its body computes the fields of the line |
| Csv.CsvRoundTrip | src/modules/products/services/csv-parser.service.ts:100-127 | any cells, quoted with doubled quotes or bare where allowed, are read back trimmed |
| Csv.PlainLine | src/modules/products/services/csv-parser.service.ts:106-125 | on a line without quotes the loop is split-on-comma, then trim |
| Csv.BalancedLine | src/modules/products/services/csv-parser.service.ts:106-125 | a line with balanced quotes, wherever they stand in its fields, is read as the trimmed texts of its fields |
| Csv.Unclosed | src/modules/products/services/csv-parser.service.ts:109-125 | a quote that is never closed takes the rest of the line |
| Text.TrimExactly | src/modules/products/services/csv-parser.service.ts:78-80 | trimming takes white space off both ends, all of it, and nothing else |
| Text.SpaceExactly | src/modules/products/services/csv-parser.service.ts:78-80 | the code points that count as white space |
| Price.PriceRoundTrip | src/modules/products/services/csv-parser.service.ts:207-255 | every amount of cents, in Brazilian or US form, grouped or not, with any currency signs around it, is read exactly |
| Price.AmericanWhole | src/modules/products/services/csv-parser.service.ts:237-246 | a whole amount grouped the US way is read exactly |
| Price.BrazilianWhole | src/modules/products/services/csv-parser.service.ts:225-248 | a whole amount grouped the Brazilian way is read exactly if and only if it is below 1000 |
| Price.CommaRead | src/modules/products/services/csv-parser.service.ts:237-246 | a lone comma is the decimal mark with at most two digits after it, and groups with three or more |
| Price.DottedRead | src/modules/products/services/csv-parser.service.ts:247-249 | with a dot the amount is the literal itself, however many decimals there are |
| Price.ExponentRead | src/modules/products/services/csv-parser.service.ts:249-250 | scientific notation is scaled by its power of ten |
| Price.LeadingDot | src/modules/products/services/csv-parser.service.ts:249-250 | digits before the dot may be missing |
| Price.NegativeRead | src/modules/products/services/csv-parser.service.ts:249-250 | a minus sign makes the amount negative |
| Price.FirstCommaOnly | src/modules/products/services/csv-parser.service.ts:239-242 | of several commas only the first is taken for a decimal mark |
| Price.UnreadableIsZero | src/modules/products/services/csv-parser.service.ts:249-253 | what cannot be the beginning of a number is zero |
| Price.DecorationExactly | src/modules/products/services/csv-parser.service.ts:214-215 | R, dollar, euro and pound signs and white space are dropped, nothing else |
| Price.ParsePrice | src/modules/products/services/csv-parser.service.ts:207-255 | the step-by-step rewriting computes the specified price |
| Sheet.ExtractPlatforms | src/modules/products/services/csv-parser.service.ts:137-202 | the n-th name sits at the n-th time stamp column, or the default positions are used; columns strictly increase |
| Sheet.AssignColumns | src/modules/products/services/csv-parser.service.ts:178-188 | the loop with its own name index pairs names and time stamp columns in order |
| Sheet.Parse | src/modules/products/services/csv-parser.service.ts:19-95 | answers each malformed input with its error, otherwise exactly the products of the rows, all safe to store, with a known region or none |
| Sheet.StoredNameSafe | src/modules/products/services/csv-parser.service.ts:300-320 | a stored name has at most 500 characters, none of them dangerous, even after parenthesised groups are dropped |
| Regions.RegionExactly | src/modules/products/services/csv-parser.service.ts:261-296 | the region is the first one that a spelling of occurs, letter by letter in any case, and absent exactly when none occurs |
| Regions.Brazilian | src/modules/products/services/csv-parser.service.ts:266-272 | whatever surrounds it, a Brazilian spelling in any case gives `br` |
| SheetRoundTrip.GroupInCell | src/modules/products/services/csv-parser.service.ts:261-305 | whatever stands before and after a group, the group goes with the space around it and decides the region |
| SheetRules.PlatformExactly | src/modules/products/services/csv-parser.service.ts:152-161 | a header names a platform exactly when it begins with one of the six words, in any case |
| SheetRules.HeaderExactly | src/modules/products/services/csv-parser.service.ts:152-161 | which header cells name a platform: filled in, without the title, and beginning with one of those words |
| SheetRules.TitleExactly | src/modules/products/services/csv-parser.service.ts:152-188 | the title of a time stamp column, and when a cell contains it |
| SheetRules.DefaultNames | src/modules/products/services/csv-parser.service.ts:163-176 | without names in the header the default names go to the title columns in order, four at most |
| SheetRules.DefaultsExactly | src/modules/products/services/csv-parser.service.ts:189-200 | without a title column the four default platforms are taken, three columns apart |
| SheetRules.LimitsExactly | src/modules/products/services/csv-parser.service.ts:19-49 | which sizes are refused, and how |
| SheetRules.TagGone | src/modules/products/services/csv-parser.service.ts:308-315 | a tag goes with everything in it |
| SheetRules.HarmlessCut | src/modules/products/services/csv-parser.service.ts:306-320 | text without tags or dangerous characters is only cut to 500 characters |
| SheetRules.SafeExactly | src/modules/products/services/csv-parser.service.ts:306-320 | which characters no stored text contains, and how long it may be |
| SheetRules.ProductExactly | src/modules/products/services/csv-parser.service.ts:60-87 | three cells give a product exactly when name and price are filled in and the price is positive |
| SheetRoundTrip.SheetRoundTrip | src/modules/products/services/csv-parser.service.ts:19-202 | a whole printed sheet, any platforms and rows, names with or without a group after them, comes back as exactly its products and their regions |
| Sessions.TokenConsumedOnce | src/auth/auth.service.ts:194-231 | under any interleaving no token is consumed by two refreshes, and a consumed token is not live |
| Sessions.SessionsConserved | src/auth/auth.service.ts:219-230 | live tokens plus rotations in progress are logins minus logouts, revocations and abandoned rotations |
| Sessions.ChainKeepsChoice | src/auth/auth.service.ts:213-228 | a live token has the user and remember-me choice of the login it descends from |
| Sessions.LoginExactly | src/auth/auth.service.ts:118-153 | a login issues one token, of its user and choice, at the head of a chain of its own |
| Sessions.RevokedExactly | src/auth/auth.service.ts:331-335 | revoking a user's sessions removes exactly that user's tokens, and counts them |
| Sessions.UninterruptedRefresh | src/auth/auth.service.ts:194-231 | the three statements of a refresh, run alone, replace one token by another of the same user and choice |
| Sessions.UninterruptedLogout | src/auth/auth.service.ts:337-350 | the two statements of a logout, run alone, remove its token and nothing else |
| Sessions.AuthService.RefreshTokens | src/auth/auth.service.ts:194-231 | succeeds exactly for the owner of a stored token and swaps it for the new one |
| Wallet.LedgerAgrees | src/modules/wallet/wallet.repository.ts:59-221 | over any run balances and cashback are what the records add up to |
| Wallet.NeverOverdrawn | src/modules/wallet/wallet.repository.ts:133-143 | no balance goes below zero while nothing negative is credited |
| Wallet.WalletRepository.DeductBalance | src/modules/wallet/wallet.repository.ts:114-167 | a refused debit changes nothing and leaves no record |
| Wallet.DebitExactly | src/modules/wallet/wallet.repository.ts:129-143 | a debit goes through exactly for a wallet that holds at least the amount, down to nothing |
| Wallet.CreditThenDebit | src/modules/wallet/wallet.repository.ts:59-167 | a credit and a debit of the same amount leave every wallet as it was, and two records |
| Wallet.CreditExactly | src/modules/wallet/wallet.repository.ts:59-221 | credits and cashback need a wallet only, and each goes to its own column with its record |
| Wallet.OpenExactly | src/modules/wallet/wallet.repository.ts:43-53 | opening a wallet twice changes nothing, and a new one is empty |
| Wallet.PagesCoverList | src/modules/wallet/wallet.repository.ts:238-272 | following the cursors ends after the right number of pages and shows every row exactly once |
| Wallet.PageCountIsCeiling | src/modules/wallet/wallet.repository.ts:262-270 | that number is the ceiling of rows over limit, and one for an empty list |
| Wallet.UnknownCursor | src/modules/wallet/wallet.repository.ts:243-254 | a cursor that is not in the list shows nothing and leads nowhere |
| Wallet.PageNumbersReachAll | src/modules/wallet/wallet.service.ts:161-168 | without a cursor, page numbers reach everything if and only if it fits on one page |

## Left out

- Runs that interleave the statements inside one provider event: approval writes PAID over any
  status, and `SplitApproval` shows what a refund before the delivery then does and what survives.
- Charging at the provider between the read and the write of a payment request, and the statements of
  an order's status change, which the original does not run in a transaction: each of these operations
  is one step.
- Product type changes, hand edits of key or account status, coupon edits, demo data and user deletion.
- Helpers without a caller that skip the stock sync or the release rules (`reserveAvailableKeyAtomic`, the
  reserve and deliver helpers of `OrdersRepository`, `processPayment`, `updateBalance`).
- Database isolation below "a transaction is atomic".
- Rounding of floating-point numbers and of decimal columns: amounts are exact.
- Encryption, hashing, JSON parsing, the provider, e-mail and the antifraud decision: parameters or absent.
- Descriptive columns of a product, seller notifications and list endpoints.
- String length is counted in characters, not in UTF-16 units, and only ASCII letters change case.
- Inventory.UnitTable: the key and account repositories repeat the same statements; the model shares them.
- Inventory.KeysRepository.CreateBatch: which statements fail is a parameter, one flag per encrypted key and
  one for whether the transaction survives a failed bulk insert (in PostgreSQL it does only if the failure
  arose before the statement was sent).
- Sessions.AuthService.RefreshTokens: the expiry of a stored token is checked by the guard before the call, not here.
