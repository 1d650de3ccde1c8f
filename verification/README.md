# Rental marketplace business rules in Dafny

This project models the business layer of a Django rental marketplace. Vendors list products. Customers fill a cart, check out into a rental order with an invoice, and pay. The back office confirms, picks up and takes back the goods, charges late and damage fees, and records payments.

The database is one immutable `Store` value:
- Tables looked up by key (products, variants, orders) are maps.
- Tables read in primary-key order are sequences, so a filtered `.first()` is the first matching element.

Every request handler and every `save()` with side effects is a pure function from the old store to the new one. A request that may fail returns `Result<Store>`, whose `Err` names the failure: the sign-in redirect of an anonymous user, the same redirect for a signed-in user who fails the back-office test (`Forbidden`), 404, multiple rows, integrity error, empty cart or form errors.

Representation choices:
- Times are whole seconds.
- Money is an exact `real`.
- The current time and fresh primary keys are parameters.

The modules follow the program:

| module | what it models |
|---|---|
| `Basics` | options, results, failures, validation messages, `.first()` |
| `Accounts` | roles and the back-office guard (accounts/models.py, rental/views.py) |
| `Model` | the records of rental/models.py and the store |
| `Lines` | line selections and sums (`lines.all()`, `get_total`) |
| `Catalog` | availability, tiered pricing, variant rate fallback, line validators |
| `Orders` | quotation/order totals, return alerts, the two stock-restoring signal receivers |
| `Billing` | `Invoice.save`, balance, `Payment.save`, the late fee |
| `Coupons` | coupon validity and per-user usage (website/models.py) |
| `Forms` | `AddToCartForm` and `PaymentForm` (rental/forms.py) |
| `Shop` | add to cart, cart removal and totals, checkout, simulated payment (website/views.py) |
| `Backoffice` | status updates, pickup, return, invoice creation, recorded payments, dashboard revenue (rental/views.py) |
| `CartContext` | the cart badge (rental/context_processors.py) |
| `VendorSplit` | the vendor-wise order splitting of test_vendor_splitting.py |

Some behaviours of the source show up as proved properties rather than as corrections:
- Reopening a cancelled order and cancelling it again gives its stock back twice (`Backoffice.ReopenThenCancelRestoresTwice`).
- Checkout takes stock with no floor, so it can drive stock negative (`Shop.CheckoutCanOversell`).
- A paid invoice charged a late fee stays marked paid while its balance grows (`Backoffice.LateFeeLeavesPaidStatus`).
- `QuotationLine.clean` clamps availability at zero and counts no line as "itself". `OrderLine.clean` does not clamp and leaves its own stored copy out. For a new line of at least one unit the two agree (`Catalog.CleanersAgreeOnNewLine`).

Three details of the code that are easy to misread, and that the model follows:
- The payment status is decided against the invoice total as it stood before the payment's save.
- The simulated payment confirms the order without stamping `confirmed_at`.
- The vendor-split script passes a quantized tax to `Invoice.objects.create`, but `save()` overwrites it with the unquantized figure. The model stores what `save()` writes (`VendorSplit.SplitInvoice`).

## Model

| member | source | states |
|---|---|---|
| Basics.FindFirst | main/website/views.py:94-97 | the position found is the first element passing the filter; None means no element passes |
| Accounts.IsCustomer | main/accounts/models.py:26-27 | the user's role is customer (`Accounts.CustomerAndVendorExclusive` shows the roles exclusive and exhaustive) |
| Accounts.IsVendor | main/accounts/models.py:29-30 | the user's role is vendor |
| Accounts.IsAdminUser | main/accounts/models.py:32-33 | the user's role is admin, or the user is a superuser whatever the role (`Accounts.SuperuserCustomerIsBoth`) |
| Accounts.IsVendorOrAdmin | main/rental/views.py:17-19 | the guard passes exactly for a signed-in user whose role is vendor or admin or who is a superuser |
| Accounts.CustomerAndVendorExclusive | main/accounts/models.py:26-30 | no user is both customer and vendor, and every user is one of customer, vendor, admin |
| Accounts.SuperuserCustomerIsBoth | main/accounts/models.py:26-33 | a superuser with the customer role counts as a customer and as an admin, never as a vendor |
| Accounts.SignedInVendorPassesGuard | main/accounts/models.py:29-30 | a signed-in vendor always passes the back-office guard |
| Accounts.PlainCustomerFailsGuard | main/rental/views.py:17-19 | anonymous users and customers who are not superusers never pass the guard |
| Model.LineTotal | main/rental/models.py:320-321 | a line's `get_total()`: unit price times quantity, the same for quotation and order lines |
| Lines.LinesTotal | main/rental/models.py:174-175 | the sum of the lines' totals, 0 for no lines; additive by `Lines.LinesTotalConcat` |
| Lines.QuantityTotal | main/rental/context_processors.py:16-17 | the sum of the lines' quantities, 0 for no lines; additive by `Lines.QuantityTotalConcat` |
| Lines.QuantityOfProduct | main/rental/models.py:535-537 | the units of one product among the lines, one line at a time as the receiver restores them; additive by `Lines.QuantityOfProductConcat` |
| Lines.LinesOf | main/rental/models.py:256-257 | the selection holds exactly the table's lines whose parent is the given quotation or order, and no more lines than the table |
| Lines.LinesOfConcat | main/rental/models.py:256-257 | selecting from two appended tables is appending the two selections |
| Lines.LinesTotalConcat | main/rental/models.py:174-175 | the money total of appended line lists is the sum of their totals |
| Lines.QuantityTotalConcat | main/rental/context_processors.py:16-17 | the quantity count of appended line lists is the sum of their counts |
| Lines.QuantityOfProductConcat | main/rental/models.py:535-537 | the units of one product in appended line lists are the sum of each list's units |
| Lines.LinesOfAbsent | main/rental/models.py:256-257 | a parent none of whose lines are stored has no lines |
| Lines.LinesOfAll | main/rental/models.py:256-257 | lines that all belong to a parent are selected whole and in order |
| Lines.SameGoodsSums | main/website/views.py:143-156 | copies of lines with the same products, quantities and prices move the same stock, count and money |
| Catalog.ReservedQuantity | main/rental/models.py:94-101 | the reserved sum is never negative when no quantity is, and is 0 when no line reserves the product in the window |
| Catalog.ReservedSingle | main/rental/models.py:94-101 | one line contributes its quantity exactly when it reserves the product in the window and is not the excluded line; with ReservedConcat this fixes the sum for every table |
| Catalog.ReservedConcat | main/rental/models.py:94-101 | the reserved sum over an appended line table is the sum over each part |
| Catalog.AvailableQuantity | main/rental/models.py:88-102 | with a date missing it is the stock on hand; with both it is never negative and equals stock minus reserved unless that is negative, when it is 0 |
| Catalog.NonReservingLineLeavesAvailability | main/rental/models.py:94-102 | storing, at any position, a line that does not reserve the product in the window leaves availability unchanged |
| Catalog.NonReservingCases | main/rental/models.py:96-98 | lines of pending, returned or cancelled orders, and lines whose window only touches, never reserve |
| Catalog.ReservingLineNeverIncreasesAvailability | main/rental/models.py:94-102 | storing a reserving line makes availability max(0, on hand − reserved − its quantity): it never rises and falls by at most the line's quantity |
| Catalog.WeeksFromDays | main/rental/models.py:111-112 | whole weeks counted from whole days equal whole weeks of the duration |
| Catalog.TierFor | main/rental/models.py:114-122 | week rate iff at least a whole week and a week rate; else day rate iff at least a whole day and a day rate; else hour rate iff a positive duration and an hour rate; else flat |
| Catalog.DurationPrice | main/rental/models.py:109-122 | the week tier charges whole weeks, the day tier whole days, the hour tier fractional hours, and the flat tier the sales price |
| Catalog.RentalPrice | main/rental/models.py:104-122 | a missing date prices the rental at 0; otherwise the price is that of the duration end minus start |
| Catalog.TenDaysChargedAsOneWeek | main/rental/models.py:115-116 | ten days at day rate 3000 and week rate 18000 cost 18000 |
| Catalog.LeftoverDaysAreFree | main/rental/models.py:112-116 | in the week tier, less than a week on top of whole weeks costs nothing extra |
| Catalog.WeeksPrice | main/rental/models.py:115-116 | at least one whole week with a week rate is charged as week rate times whole weeks |
| Catalog.LeftoverHoursAreFree | main/rental/models.py:117-118 | one to six whole days with a day rate cost day rate times days, whatever the leftover hours |
| Catalog.WeekPriceMonotone | main/rental/models.py:115-116 | within the week tier a longer rental never costs less |
| Catalog.DayPriceMonotone | main/rental/models.py:117-118 | within the day tier a longer rental never costs less |
| Catalog.HourPriceMonotone | main/rental/models.py:119-120 | within the hour tier a longer rental never costs less |
| Catalog.PriceMonotoneWithinTier | main/rental/models.py:114-122 | two durations priced in the same tier are priced in the same order as their lengths |
| Catalog.VariantPricePerHour | main/rental/models.py:145-146 | the variant's own hour rate when set and non-zero, else the product's |
| Catalog.VariantPricePerDay | main/rental/models.py:148-149 | the variant's own day rate when set and non-zero, else the product's |
| Catalog.VariantPricePerWeek | main/rental/models.py:151-152 | the variant's own week rate when set and non-zero, else the product's |
| Catalog.CleanQuotationLine | main/rental/models.py:202-209 | an empty or reversed window gets the date error; the line passes iff its window is non-empty and its quantity is within the clamped availability |
| Catalog.CleanOrderLine | main/rental/models.py:323-340 | an empty or reversed window gets the date error; the line passes iff its quantity plus what other lines reserve fits the stock on hand |
| Catalog.ExcludeAbsentId | main/rental/models.py:329-334 | leaving out an id that no stored line carries changes the reserved sum by nothing |
| Catalog.CleanersAgreeOnNewLine | main/rental/models.py:323-340 | for an unstored line of at least one unit, the two validators accept exactly the same lines |
| Catalog.OrderLineIgnoresItself | main/rental/models.py:328-334 | re-validating a stored order line gives the same verdict as before it was stored |
| Orders.ParentTotals | main/rental/models.py:256-264 | the subtotal is the money sum of the parent's lines, the tax is 18% of it, and the grand total is their sum |
| Orders.TotalsIgnoreOtherParents | main/rental/models.py:174-183 | lines of other quotations or orders never change a parent's totals |
| Orders.AddedLineRaisesSubtotal | main/rental/models.py:174-175 | adding a line raises its parent's subtotal by exactly that line's total |
| Orders.LatestReturnDate | main/rental/models.py:266-268 | None iff the order has no lines; otherwise an end date of some line and no earlier than any line's end date |
| Orders.OutOnRental | main/rental/models.py:272-273 | the goods are out with the customer: the order is picked up or rented |
| Orders.IsReturnOverdue | main/rental/models.py:285-294 | overdue iff picked up or rented, with lines, and every line's end date has passed |
| Orders.HasApproachingReturn | main/rental/models.py:270-283 | approaching iff picked up or rented, with lines, no end date beyond 24 hours from now and some end date not yet passed |
| Orders.ReturnStatus | main/rental/models.py:296-304 | returned iff the order is returned; overdue and approaching exactly as the two checks decide them, in that order |
| Orders.ReturnAlertScenarios | main/test_return_alerts.py:185-212 | rented orders ending 2 hours ago, in 12 hours and in 2 days are overdue, approaching and normal; a returned order is returned |
| Orders.OnlyRentalsRaiseAlerts | main/rental/models.py:272-273 | an order that is neither out on rental nor returned is normal whatever its dates |
| Orders.AdjustStock | main/rental/models.py:535-537 | the same products remain, and each product's stock moves by exactly its units over the lines, up or down |
| Orders.TakeThenRestoreIsIdentity | main/rental/models.py:535-537 | taking a set of lines' stock and giving it back leaves every product as it was |
| Orders.SaveOrder | main/rental/models.py:526-539 | the order is stored; stock rises by the order's units per product exactly when a stored live order enters cancelled or returned; nothing else changes |
| Orders.TerminalOrderRestoresNothing | main/rental/models.py:533 | re-saving a cancelled or returned order leaves all stock alone |
| Orders.NonTerminalSaveKeepsStock | main/rental/models.py:533 | saving into a live status leaves all stock alone |
| Orders.DeleteOrderLine | main/rental/models.py:541-546 | the line goes, and its quantity returns to its product unless its order is cancelled or returned; nothing else changes |
| Orders.DeleteGivesBackWhatLineTook | main/rental/models.py:541-546 | deleting a line of a live order gives back exactly the stock that line took: taking it and then deleting it leaves every product as it was |
| Billing.SaveInvoice | main/rental/models.py:425-439 | the subtotal is re-read from the order's lines, the tax is charged after the discount, the total adds deposit and late fee, and no other field changes |
| Billing.SaveInvoiceIdempotent | main/rental/models.py:430-437 | saving an invoice a second time changes nothing |
| Billing.RaisedLateFee | main/rental/models.py:437 | raising a current invoice's late fee raises its total by the difference and leaves status and amount paid |
| Billing.IsFullyPaid | main/rental/models.py:444-445 | the amount paid has reached the total (`Billing.FullyPaidIffNothingOwed`: iff the balance is at most 0) |
| Billing.Balance | main/rental/models.py:441-442 | amount paid plus balance is the total |
| Billing.FullyPaidIffNothingOwed | main/rental/models.py:441-445 | an invoice is fully paid iff its balance is at most 0 |
| Billing.NewInvoice | main/rental/views.py:328-335 | a created invoice is a draft at 18% tax with no discount or late fee and a 1000 deposit, billing the order's lines |
| Billing.NewInvoiceCurrent | main/rental/models.py:425-439 | `save()` on a created invoice writes back exactly what was created |
| Billing.PaymentsTotal | main/rental/models.py:475 | the sum of the amounts of the ledger's payments for one invoice; its properties are `PaymentsTotalAbsent`, `PaymentsTotalConcat`, `PaymentsTotalWithout` and `PaymentsTotalPermutation` |
| Billing.PaymentsTotalAbsent | main/rental/models.py:475 | an invoice without payments has paid 0 |
| Billing.PaymentsTotalConcat | main/rental/models.py:475 | an invoice's payment sum over appended ledgers is the sum over each part |
| Billing.PaymentsTotalWithout | main/rental/models.py:475 | removing one payment takes exactly its amount off its own invoice's sum |
| Billing.PaymentsTotalPermutation | main/rental/models.py:475 | the amount paid does not depend on the order in which payments were stored |
| Billing.RecordPaid | main/rental/models.py:476-483 | paid when the sum reaches the total, with the time; partially paid when positive and short; otherwise status unchanged; only these fields change |
| Billing.SavePayment | main/rental/models.py:471-485 | the payment is stored; the invoice's amount paid is its whole ledger sum; status follows the pre-save total; totals are current; no other invoice or field changes |
| Billing.PayingBalanceSettles | main/rental/models.py:479-481 | paying exactly the balance of a reconciled invoice leaves it fully paid, marked paid, and still reconciled |
| Billing.SavePaymentReconciles | main/rental/models.py:471-485 | after any payment the invoice's amount paid equals its ledger and its totals are current |
| Billing.PaymentWithinBalance | main/rental/models.py:471-485 | a payment within the balance of a reconciled invoice never takes the amount paid past the unchanged total |
| Billing.TotalsAgree | main/rental/models.py:432-437 | two current invoices of one order with the same discount, rate, deposit and late fee have the same total |
| Billing.LineLateDays | main/rental/models.py:376-380 | 0 iff returned less than a day after the line's end; otherwise the whole days elapsed since the end |
| Billing.LateDays | main/rental/models.py:374-380 | 0 when no line is a day late, and never less than any one line's late days |
| Billing.LateFee | main/rental/models.py:372-382 | a multiple of the daily rate, not negative for a non-negative rate, and 0 when every line is returned by its end date |
| Billing.LateDaysConcat | main/rental/models.py:374-380 | the late days of two line tables together are the sum of each table's |
| Billing.LateDaysSingle | main/rental/models.py:374-380 | a single line's table is late by exactly that line's whole late days |
| Billing.LateFeeConcat | main/rental/models.py:372-382 | the fee over two line tables together is the sum of their fees, so an order's fee is the daily rate times the late days summed over its lines |
| Billing.LateFeeSingle | main/rental/models.py:372-382 | the fee for one line is the daily rate times its whole late days |
| Billing.LateByWholeDays | main/rental/models.py:376-382 | a line returned k whole days and under a day more after its end costs k times the daily rate |
| Coupons.NewCoupon | main/website/models.py:9-22 | a new coupon is active, uncapped, unused, 10% off and never expires |
| Coupons.Exhausted | main/website/models.py:42 | a capped coupon (`max_uses > 0`) whose uses have reached the cap; `Coupons.UnlimitedNeverExhausts` and `Coupons.CapDecidesWhenDatesPass` relate it to validity |
| Coupons.IsValid | main/website/models.py:30-45 | valid iff active, started, not expired and not used up; the first failing check names the message |
| Coupons.UnlimitedNeverExhausts | main/website/models.py:42 | a cap of 0 never trips: validity depends on activity and dates alone |
| Coupons.CapDecidesWhenDatesPass | main/website/models.py:42-43 | with a positive cap and the earlier checks passed, the coupon fails iff used up, with the usage-limit message |
| Coupons.WindowBoundariesInclusive | main/website/models.py:36-40 | the first and last instants of the window are valid, and a coupon without an end date never expires |
| Coupons.ThreeOfThreeUsedIsRefused | main/website/models.py:42-43 | a coupon capped at 3 and used 3 times is refused for its usage limit |
| Coupons.UsedBy | main/website/models.py:55-56 | some usage row pairs the coupon with the user |
| Coupons.CanBeUsedBy | main/website/models.py:47-58 | an invalid coupon's verdict passes through unchanged; a valid one is usable iff the user has no usage of it |
| Coupons.OneUsagePerUser | main/website/models.py:78 | no two usage rows share both coupon and user; `Coupons.RecordUsage` keeps it |
| Coupons.RecordUsage | main/website/models.py:64-78 | a second usage row for the same coupon and user is refused; any other row is appended and uniqueness is kept |
| Coupons.RecordedUserIsRefused | main/website/models.py:55-56 | once a user's usage is recorded, that user is refused the coupon |
| Forms.FieldErrors | main/rental/forms.py:44-57 | no field error iff quantity is at least 1, both dates are given, and any variant is one of the product's |
| Forms.CleanCart | main/rental/forms.py:75-91 | no date or availability error with a date missing; otherwise the window must be non-empty and the quantity within availability |
| Forms.ValidateCart | main/rental/forms.py:42-91 | the form is valid iff every field and cross-field rule passes, and the cleaned data are the posted values |
| Forms.AvailabilityBoundary | main/rental/forms.py:86-89 | exactly the available quantity is accepted, and one more is refused with the available count |
| Forms.ReversedWindowMessage | main/rental/forms.py:81-83 | an empty or reversed window is refused with the date message alone |
| Forms.InitialAmount | main/rental/forms.py:186-195 | the amount field starts at the invoice's balance |
| Forms.CleanAmount | main/rental/forms.py:201-205 | the amount is accepted iff it does not exceed the balance, else refused with the balance |
| Forms.InitialAmountAccepted | main/rental/forms.py:191-205 | the pre-filled balance always passes, and paying it leaves the invoice fully paid |
| Shop.DraftCount | main/website/views.py:57-60 | zero iff the user has no draft quotation |
| Shop.FirstDraft | main/website/views.py:94-97 | None iff the user has no draft; otherwise the first of the user's drafts in table order |
| Shop.AddToCart | main/website/views.py:49-80 | unpublished or unknown products are 404; success iff signed in, valid form and at most one draft; exactly one line priced by the product is appended to the draft, created if missing |
| Shop.AddToCartRaisesSubtotal | main/website/views.py:63-77 | a successful add appends one line priced at the rental price of the window for the requested quantity, and the cart's subtotal rises by exactly that line's total |
| Shop.AddedCartLine | main/website/views.py:63-77 | a successful add appends exactly one line, to the user's cart, carrying the requested quantity and the window's rental price |
| Shop.RemoveLine | main/website/views.py:104-106 | exactly the matching line of that cart goes, and every other parent's lines are untouched |
| Shop.RemoveCartLine | main/website/views.py:92-108 | removal needs a signed-in user with a draft cart, deletes only that cart's matching line, and changes nothing else |
| Shop.CartSummary | main/website/views.py:110-115 | the cart's subtotal is its lines' money sum, tax is 18% of it, and the grand total is their sum |
| Shop.CopyLines | main/website/views.py:143-152 | each order line copies its cart line with a fresh id and the new order as parent |
| Shop.PlacedLines | main/website/views.py:143-152 | the appended copies are exactly the new order's lines and are worth what the cart was |
| Shop.PlaceOrder | main/website/views.py:136-171 | one pending order, the copied lines, the cart confirmed and an invoice over the order's lines; cart lines, payments and documents untouched |
| Shop.PlacedOrderTakesCart | main/website/views.py:143-156 | the order holds exactly the cart's copies and each product's stock falls by the cart's units of it |
| Shop.PlacedInvoiceBillsCart | main/website/views.py:164-171 | the invoice bills the cart's subtotal plus 18% and the 1000 deposit |
| Shop.Checkout | main/website/views.py:120-171 | no cart is 404, several are an error, an empty cart or a bad form changes nothing; otherwise the order is placed from the user's own cart |
| Shop.CheckoutLinesBelongToOrder | main/website/views.py:143-152 | copies appended for a fresh order are exactly that order's lines |
| Shop.CancelGivesBack | main/rental/models.py:526-539 | cancelling a live order adds back what taking its goods removed |
| Shop.CheckoutThenCancelRestoresStock | main/website/views.py:154-156 | cancelling straight after checkout returns every product's stock to what it was |
| Shop.PlacedThenCancelled | main/website/views.py:154-156 | cancelling a just-placed order returns every product's stock to what it was |
| Shop.CheckoutCanOversell | main/website/views.py:154-156 | a cart asking more than the stock drives that stock negative |
| Shop.CheckoutInvoiceReconciled | main/website/views.py:164-171 | the checkout's invoice starts with nothing paid and current totals |
| Shop.PayInvoice | main/website/views.py:396-427 | an anonymous user is sent to sign in; for a signed-in user the payment succeeds iff the invoice exists and its order is theirs, else it is not found; its balance is paid through the payment save, and the order is saved confirmed if that leaves it fully paid |
| Shop.PaymentSettlesAndConfirms | main/website/views.py:403-425 | on a reconciled invoice the payment settles it, marks it paid, confirms the order without a confirmation stamp and leaves stock alone |
| Backoffice.Guard | main/rental/views.py:22-23 | the view runs iff the guard passes; an anonymous user is redirected to sign in by the first decorator, and a signed-in user who is neither vendor nor admin is redirected to the sign-in page too, by the second (reported as Forbidden) |
| Backoffice.InvoiceOf | main/rental/views.py:324-326 | None iff no invoice belongs to the order; otherwise an invoice of that order |
| Backoffice.UpdateOrderStatus | main/rental/views.py:225-242 | any posted status is stored; `confirmed_at` is stamped iff the order newly becomes confirmed; no other order or table changes |
| Backoffice.ConfirmStampsOnce | main/rental/views.py:234-235 | confirming twice keeps the first confirmation time |
| Backoffice.ReopenThenCancelRestoresTwice | main/rental/models.py:526-539 | cancel, reopen, cancel gives the order's stock back twice |
| Backoffice.StatusStep | main/rental/views.py:229-237 | a status change keeps the lines and moves one product's stock only when entering cancelled or returned from a live status |
| Backoffice.StatusChangeStock | main/rental/models.py:526-539 | a status change restores every product's units exactly when a live order enters cancelled or returned |
| Backoffice.RecordPickup | main/rental/views.py:247-275 | a valid pickup stores one pickup document and marks the order picked up, leaving stock alone; a second pickup is an integrity error |
| Backoffice.SecondPickupRefused | main/rental/models.py:345 | an order gets at most one pickup |
| Backoffice.ReturnLateFee | main/rental/views.py:290 | the late fee of the order's lines at the default rate of 100 per day (`Billing.LateFeeConcat` and `Billing.LateFeeSingle` give its value) |
| Backoffice.FileReturn | main/rental/views.py:286-304 | the return document carries the late fee at 100 per late day, the order is returned, and late plus damage fee go on the order's invoice |
| Backoffice.ReturnRestocks | main/rental/views.py:294-296 | a return on a live order gives back its lines' stock; on a cancelled order it gives nothing |
| Backoffice.MarkReturned | main/rental/views.py:287-296 | the document is stored and the order saved as returned, restoring stock iff it was live |
| Backoffice.RecordReturn | main/rental/views.py:280-315 | success iff the guard, lookup and form pass and no return exists yet; a second return is an integrity error |
| Backoffice.ChargeFees | main/rental/views.py:298-304 | only the order's invoice changes, getting the fees as late fee and totals that are current for the order's lines; no invoice means no change |
| Backoffice.OnTimeReturnChargesNoLateFee | main/rental/views.py:290-302 | returning by every end date stores no late fee and charges only the damage fee |
| Backoffice.LateFeeLeavesPaidStatus | main/rental/views.py:298-302 | a paid invoice charged a higher fee stays marked paid while its total and balance rise |
| Backoffice.ChargedPaidInvoiceStaysPaid | main/rental/views.py:298-302 | charging a higher fee on a paid invoice whose totals are current keeps it paid and raises its total and balance |
| Backoffice.SecondReturnRefused | main/rental/models.py:359 | an order gets at most one return |
| Backoffice.InvoiceManage | main/rental/views.py:320-342 | an existing invoice is shown unchanged; otherwise one is created; afterwards the order has an invoice |
| Backoffice.InvoiceManageIdempotent | main/rental/views.py:324-335 | opening the invoice page twice creates one invoice |
| Backoffice.CreatedInvoiceReconciled | main/rental/views.py:328-335 | a created invoice has nothing paid and current totals |
| Backoffice.RecordPayment | main/rental/views.py:347-367 | a payment is stored iff the guard passes, the invoice exists, the other fields are valid and the amount is within the balance; it is stored through the payment save (amount paid, status and totals reconciled); a refused form reports the other fields' errors and the balance error |
| Backoffice.RecordedPaymentsNeverOverpay | main/rental/views.py:352-356 | on a reconciled invoice a recorded payment never takes the amount paid past the total, and the invoice stays reconciled |
| Backoffice.InScope | main/rental/views.py:25-31 | the orders a viewer sees: every stored order for an admin; for a vendor, the orders with at least one line of one of their products |
| Backoffice.PaidIn | main/rental/views.py:40-41 | the sum of amount paid over the invoices whose order is in scope; `Backoffice.NonNegativeSums` and `Backoffice.NarrowerScopeSumsLess` bound it |
| Backoffice.PendingIn | main/rental/views.py:40-44 | the sum of the totals of draft or sent invoices whose order is in scope; bounded by the same two lemmas |
| Backoffice.DashboardRevenue | main/rental/views.py:25-44 | shown iff the guard passes; an admin sees paid and pending sums over all orders, a vendor over the orders with a line for one of their products; both are non-negative when amounts are |
| Backoffice.NonNegativeSums | main/rental/views.py:41-44 | revenue sums are non-negative when the amounts are |
| Backoffice.NarrowerScopeSumsLess | main/rental/views.py:27-44 | narrowing the set of orders never raises either sum |
| Backoffice.VendorRevenueWithinAdmin | main/rental/views.py:27-44 | a vendor's dashboard never shows more revenue than an admin's |
| CartContext.CartProcessor | main/rental/context_processors.py:4-22 | only a signed-in customer with a draft has a cart: the first draft, counted by its lines' quantities; otherwise no cart and 0 |
| CartContext.CountPositive | main/rental/context_processors.py:16-17 | a cart whose lines all have positive quantity counts at least one per line |
| CartContext.FirstDraftOfAppended | main/rental/context_processors.py:11-14 | a draft appended for a user without one becomes their first draft |
| CartContext.AddToCartRaisesCount | main/website/views.py:57-77 | adding to the cart raises the badge by exactly the quantity added, on the cart the add landed on |
| VendorSplit.OfVendor | main/test_vendor_splitting.py:145-147 | a vendor's lines are exactly the cart lines whose product that vendor sells |
| VendorSplit.OfVendorAbsent | main/test_vendor_splitting.py:145-147 | a vendor absent from the cart has no lines |
| VendorSplit.VendorSetMembers | main/test_vendor_splitting.py:145-149 | a vendor is in the cart's vendor set iff one of the cart's lines is theirs |
| VendorSplit.GroupByVendor | main/test_vendor_splitting.py:145-147 | one group per distinct vendor of the cart, each holding exactly that vendor's lines in cart order |
| VendorSplit.GroupStep | main/test_vendor_splitting.py:146-147 | appending one line to its vendor's group keeps the grouping exact |
| VendorSplit.GroupSubtotalsSumToCart | main/test_vendor_splitting.py:163-175 | the vendor subtotals add up to the cart total |
| VendorSplit.Quantize2 | main/test_vendor_splitting.py:178 | the result is a whole number of cents within half a cent of the input |
| VendorSplit.QuantizeExamples | main/test_vendor_splitting.py:178 | whole cents are unchanged and ties go to the even cent |
| VendorSplit.SplitInvoice | main/test_vendor_splitting.py:178-190 | a draft invoice of the order, unpaid, with subtotal from its lines, 18% tax, the 500 deposit, and current totals |
| VendorSplit.StoredTotalsWithinHalfCent | main/test_vendor_splitting.py:178-190 | the stored tax and total differ from the script's quantized figures by at most half a cent |
| VendorSplit.SplitOrdersMakesOrders | main/test_vendor_splitting.py:151-161 | the loop adds one pending order per group with consecutive ids and keeps every earlier order |
| VendorSplit.SplitOrdersAppendsLines | main/test_vendor_splitting.py:164-174 | the loop only appends line copies to the line table |
| VendorSplit.SplitOrdersKeepLines | main/test_vendor_splitting.py:164-174 | earlier orders keep their lines |
| VendorSplit.SplitOrdersLines | main/test_vendor_splitting.py:164-174 | the k-th new order holds copies of the k-th group's goods |
| VendorSplit.SplitInvoicesBill | main/test_vendor_splitting.py:178-190 | invoice k belongs to order k and bills group k's goods at 18% plus the deposit |
| VendorSplit.SubtotalSumMatchesGroups | main/test_vendor_splitting.py:163-175 | invoices billing the groups one by one add up to the groups' total |
| VendorSplit.SplitCheckout | main/test_vendor_splitting.py:145-192 | the whole split: group the cart's lines by vendor, then per group one pending order with copies of its lines and one invoice; its effect is stated by `SplitCheckoutOrders`, `SplitCheckoutLines`, `SplitCheckoutInvoices` and `SplitOrdersAreSingleVendor` |
| VendorSplit.SplitCheckoutOrders | main/test_vendor_splitting.py:211-216 | as many orders are created as there are vendors in the cart; earlier orders, stock and cart are untouched |
| VendorSplit.SplitCheckoutLines | main/test_vendor_splitting.py:151-175 | the order made for a vendor holds that vendor's cart goods and only those |
| VendorSplit.SplitCheckoutInvoices | main/test_vendor_splitting.py:233-242 | every new order gets exactly one invoice, in order, and their subtotals add up to the cart total |
| VendorSplit.SplitOrdersAreSingleVendor | main/test_vendor_splitting.py:218-226 | every line of a split order comes from its group's vendor |

## Left out

- PDF invoices, email delivery, admin registrations, URL routing, templates and messages: presentation and foreign libraries.
- Sign-up, login and profile views and forms: framework authentication plumbing.
- Seed, image-update and inspection scripts: they only print database contents.
- Order and invoice numbers: random strings, so each record is identified by an opaque fresh key passed in as a parameter.
- Category slugs: a library call.
- The wall clock: `now` is a parameter.
- Floating-point intermediates and the database's rounding to two decimals on save: amounts are exact reals.
- Concurrency: the draft-cart race in `get_or_create`, overselling between simultaneous checkouts, partial writes without a transaction.
- Coupon allocation at checkout: no shown view applies a coupon, and checkout creates its invoice with no discount.
- Variant rates in pricing: the views price every line by the product's rates; the variant getters are modelled on their own.
- Delivery fields of the checkout form, the pickup/return form fields other than the dates and the damage fee, and the payment form's `payment_method`, reference and notes (and the amount's decimal format): stored text with no effect on the rules; their validity is a parameter (`formErrors`).
- The dashboard's product, order and active-rental counts, its most-rented table and recent orders: display only.
- Product create/edit/delete views and the order and product listing pages: plain CRUD and display.
- GET requests: they render forms and change nothing. The one exception is `invoice_manage`, which creates a missing invoice on any request method; `Backoffice.InvoiceManage` models it for every method.
- Keyed stores: that each keyed row carries its own key (`Model.Keyed`) is a precondition of the back-office updates rather than something the model derives.
- Backoffice.UpdateOrderStatus: a posted status outside the six choices is not modelled; the model takes one of the six.
- VendorSplit.SplitCheckout: its invoices are computed over the final line table; each invoice reads only its own order's lines, which later passes never extend, so the result is the same.
- VendorSplit.SplitInvoice: stores the tax and total that `save()` recomputes, unquantized, not the script's quantized arguments (StoredTotalsWithinHalfCent bounds the difference).
- Shop.Checkout: the fresh order, invoice and line ids are required to be unused rather than drawn by the database.
