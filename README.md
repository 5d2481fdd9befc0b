# libookin-auto-payments: royalty ledger and payout batches, modelled in Dafny

This project models the bookkeeping core of the libookin-auto-payments WordPress plugin for a book marketplace:

- **Royalty accrual.** On each completed order, every order item's tax-exclusive price is reduced by the product's promo if one is active. A royalty percent is read from five price brackets (50 / 75 / 80 / 70 / 50). One `pending` row per item is appended to the royalty ledger.
- **Ledger settlement and processor answers.** `get_vendor_pending_royalties` sums a vendor's pending rows. `mark_royalties_as_paid` turns a vendor's pending rows into paid rows carrying the payout id. Also modelled: the account verification classifier, the local guards and cents conversion of `create_payout`, and the EUR pick of `get_account_balance`.
- **The payout scheduler.** It covers:
  - the payout-day rule and the next payout date;
  - the eligibility filter;
  - the batch lifecycle: absent → scheduled → processing → completed, or scheduled → cancelled.

  The three WordPress options (pending, completed and cancelled batch) are the fields of the class `PayoutScheduler.Scheduler`. Vendors are paid one after another, and successes and failures are counted.
- **Vendor dashboard helpers.** The navigation and query-variable filters, the €15 eligibility notice, the bank arrival estimate and the requirement-key formatter.
- **functions.php.** The minimum product price check, and the admin royalty summary: VAT, card fee and net margin per ledger row, plus totals and monthly buckets.

Modelling conventions:

- **Money.** All amounts are integer euro cents, because the ledger columns are `DECIMAL(10,2)`. PHP's `round(x, 2)` and MySQL's storage of a longer decimal are both round half away from zero (`Money.RoundHalfAway`). `intval` is truncation toward zero (`Money.TruncDiv`).
- **Exact prices.** The post-promo price is kept exactly in sub-cents (hundredths of a cent). The exact royalty is price × percent, which is in millionths of a euro.
- **Calendar.** A day is its day of the month and its ISO weekday (1 = Monday … 7 = Sunday). A month is given by the weekday of its 1st. Timestamps are integer seconds.
- **Outside world as parameters.** The Stripe SDK, the database's success on an insert, the clock, `strtotime` and `dokan_get_navigation_url` are function or value parameters:
  - account retrieval: `string -> Result<Account, string>`;
  - payout creation: `PayoutCall -> Result<RemotePayout, string>`;
  - payout-row insert: `PayoutRow -> bool`;
  - timestamp to year-month: `int -> int`.
- **Loops against functions.** `process_royalties_immediate`, `get_account_balance`, `mark_royalties_as_paid`, `get_eligible_vendors`, `process_scheduled_payouts` and the summary page loop are methods with loops. Each is proved equal to a function that builds the same result. The properties are lemmas about those functions.
- **Filters as functions.** The dashboard filters receive a PHP array by value and return the edited copy, so each is a function from the old map to the new one.

Behaviour of the code that the model keeps as written:

- **No single-flight.** `schedule_payout_batch` overwrites the pending slot unconditionally; `PayoutScheduler.RescheduleOverwrites` states this.
- **Success without a durable record.** `process_vendor_payout` reports success even when the payout row could not be written; the ledger then stays pending (`PayoutScheduler.SuccessWithoutPayoutRow`).
- **A payout clears more than it pays.** The payout amount is the snapshot's `total_pending`, which sums the vendor's pending rows created up to the query's cutoff. `mark_royalties_as_paid` then clears every pending row of the vendor, whatever its date, and ignores its period arguments. A row newer than the cutoff, or one written during the six-hour review delay, is marked paid without being paid (`PayoutScheduler.PayoutClearsMoreThanItPays`). See Findings.
- **Eligibility query.** The query text is malformed: the alias `um` is never joined, and three arguments are bound to two placeholders. The model states what the query is evidently meant to return as a predicate on its answer (`PayoutScheduler.IsEligibilityQueryAnswer`): pending rows up to a cutoff, one summary per vendor, at least €15 pending, a non-empty account id, oldest first. The filter loop after the query is modelled as written.
- **Payout day.** `is_payout_day` only ever accepts a weekday 1st, so `PayoutScheduler.Scheduler.CheckAndProcessPayouts` never schedules a batch in a month that begins on a weekend. The code's own comments say what was meant: a weekend 1st should "move to next Monday" (includes/class-payout-scheduler.php:95), and `get_next_payout_date` (lines 446-457) moves a weekend 1st to the Monday after it. The comments at lines 102 and 109 pair the 2nd with a Saturday 1st and the 3rd with a Sunday 1st, but of those days only the Monday after the weekend can be tested for. The corrected rule, `PayoutScheduler.IsPayoutDayCorrected`, accepts exactly the date `get_next_payout_date` announces; `PayoutScheduler.Scheduler.CheckAndProcessPayoutsCorrected` is the cron check using it. See Findings.

Some lemmas are arithmetic or bookkeeping helpers for the others rather than properties of the plugin: the `Money` division and multiplication facts (`DivBounds`, `MulStrict`, `RoundScaled`, `DivCancel`, `DivUnique`, `MulNonneg`, `MulPos`), the `Calendar` wrap-around steps (`ShiftWeekdayNoWrap`, `ShiftWeekdayWrapOnce`, `ModShift`), and the step and append lemmas behind the loops (`RoyaltySummary.SummarizeStep`, `SumBucketsAbsent`, `SumBucketsPresent`, `PayoutScheduler.PayoutCountAppend`, `SumPendingAppend`). The single-input lemmas (`TierFollowsDiscountedPrice`, `March2025Missed`, `FiguresExample`, `CorrectedPayoutDayCases`, `FormatKnownRequirement`) are worked examples of the general statements next to them. `PayoutScheduler.SuccessCount` and `PayoutScheduler.RunResults` are small counting facts about a run.

## Model

| member | source | states |
|---|---|---|
| Money.RoundHalfAwayBounds | includes/class-libookin-auto-payments.php:418-420 | a value stored to the cent lies within half a cent of the exact value and keeps its sign |
| Money.TruncDivBounds | includes/class-stripe-connect-manager.php:274 | intval of a quotient is the largest multiple toward zero: within one unit of the exact value, on the side of zero |
| Money.RoundExact | includes/class-libookin-auto-payments.php:418-420 | storing an amount that is already whole cents loses nothing |
| Money.TruncExact | includes/class-stripe-connect-manager.php:274 | intval of a whole number of cents times 100 over 100 gives back the cents |
| Money.RoundMonotone | functions.php:91-94 | rounding to the cent never reverses the order of two amounts |
| Calendar.ShiftWeekdayAdd | includes/class-payout-scheduler.php:104-113 | counting a days and then b days lands on the weekday of a + b days |
| Calendar.ShiftWeekdayInverse | includes/class-payout-scheduler.php:104-113 | going k days back from k days ahead returns to the same weekday |
| Calendar.DayInMonthAddDays | includes/class-payout-scheduler.php:451-453 | adding k days to day dom of a month gives that month's day dom + k with the right weekday |
| Calendar.DateOfAddDays | includes/class-vendor-dashboard.php:716-720 | a timestamp k whole days later falls on the calendar date k days later |
| Ledger.Database.constructor | includes/class-libookin-auto-payments.php:406-454 | both tables start empty |
| Ledger.Database.InsertRoyalty | includes/class-libookin-auto-payments.php:265-278 | the row is appended at the end of the royalty ledger; the payout table is unchanged |
| Ledger.Database.InsertPayout | includes/class-payout-scheduler.php:306-319 | the payout row is appended exactly when the database accepts it, and the result reports which; the royalty ledger is unchanged |
| AutoPayments.DiscountedPrice | includes/class-libookin-auto-payments.php:251-257 | without an active promo the price is the list price; with one, the price plus the discount taken off (list price times discount percent) is the list price |
| AutoPayments.RoyaltyPercentage | includes/class-libookin-auto-payments.php:289-302 | the percent is always one of 50, 70, 75, 80 |
| AutoPayments.PercentageIsBracketPercent | includes/class-libookin-auto-payments.php:289-302 | every price lies in exactly one of the five half-open brackets, and the percent is that bracket's |
| AutoPayments.TierBoundaries | includes/class-libookin-auto-payments.php:291-300 | each bound (2.83, 4.73, 9.47, 14.21) belongs to the bracket starting at it; one sub-cent below, and one cent below, fall in the previous bracket |
| AutoPayments.HalfRoyaltyIff | includes/class-libookin-auto-payments.php:291-301 | the percent is 50 exactly when the price is below 2.83 or at least 14.21 |
| AutoPayments.InactivePromoKeepsPrice | includes/class-libookin-auto-payments.php:255-257 | without a positive discount, a set end date and today on or before it, the price is unchanged |
| AutoPayments.DiscountBounds | includes/class-libookin-auto-payments.php:256 | for a discount in 0..100 (the range the promo field allows, functions.php line 154) the discounted price lies between 0 and the list price |
| AutoPayments.DiscountLowersIff | includes/class-libookin-auto-payments.php:255-257 | for a positive price, the discounted price is below the list price if and only if the promo is active |
| AutoPayments.ZeroDiscountIsNoPromo | includes/class-libookin-auto-payments.php:251-257 | a zero or negative discount writes the same row as no promo at all, whatever the end date |
| AutoPayments.TierFollowsDiscountedPrice | includes/class-libookin-auto-payments.php:255-260 | the tier is read from the discounted price: a 3.00 book at 10 percent off is stored at 2.70 with 50 percent, not 75 |
| AutoPayments.RoyaltyWithinPrice | includes/class-libookin-auto-payments.php:261 | for a non-negative price the royalty lies between 0 and the price, exactly and after rounding to the cent |
| AutoPayments.RowRoyaltyWithinPrice | includes/class-libookin-auto-payments.php:255-278 | a written row's royalty lies between 0 and its stored price, and its percent is one of the four |
| AutoPayments.RoyaltyRowFor | includes/class-libookin-auto-payments.php:255-278 | the row is pending, unpaid, stamped now, for the item's order, product and vendor, with the percent of the discounted price's bracket (one of the four) |
| AutoPayments.RowsPerItem | includes/class-libookin-auto-payments.php:245-278 | row k of an order is item k's row: pending, for the item's vendor, with the item's computed price, percent and amount |
| AutoPayments.RowsLength | includes/class-libookin-auto-payments.php:245-278 | exactly one row per order item |
| AutoPayments.ProcessRoyaltiesImmediate | includes/class-libookin-auto-payments.php:237-280 | a missing order writes nothing; otherwise the ledger gains exactly the order's rows, in item order; the payout table is unchanged |
| StripeConnect.VerificationStatus | includes/class-stripe-connect-manager.php:301-315 | each label holds if and only if its own condition holds and no earlier one does: verified, then pending verification, then requires information, then created |
| StripeConnect.RequirementsMatterOnlyBeforeSubmission | includes/class-stripe-connect-manager.php:301-315 | once details are submitted (or charges and payouts are enabled) the outstanding requirements no longer change the label |
| StripeConnect.GetAccountStatus | includes/class-stripe-connect-manager.php:175-200 | no key: not configured; a processor error: that message; otherwise the account's charges, payouts and details-submitted flags, its currently-due list and its verification label |
| StripeConnect.FirstEurAmountUnique | includes/class-stripe-connect-manager.php:220-239 | the first-EUR rule determines one amount per list |
| StripeConnect.GetAccountBalance | includes/class-stripe-connect-manager.php:209-251 | no key or a processor error gives the error; otherwise each reported amount is that of the list's first eur entry, or 0 when there is none, in EUR |
| StripeConnect.CreatePayout | includes/class-stripe-connect-manager.php:262-292 | no key is refused first, then an amount below 15 EUR, both before any request; otherwise the truncated cent amount (at least 1500) is sent in eur with the metadata, and the processor's error or payout is returned with the amount asked for |
| StripeConnect.CentAmountSentExactly | includes/class-stripe-connect-manager.php:274 | with the amount held exactly (not as a PHP float), a whole-cent amount reaches the processor unchanged |
| StripeConnect.PendingTotal | includes/class-stripe-connect-manager.php:433-445 | the pending total of a ledger whose amounts are non-negative is non-negative |
| StripeConnect.PendingCount | includes/class-stripe-connect-manager.php:433-445 | the pending count never exceeds the number of rows |
| StripeConnect.PendingTotalWithoutPendingRows | includes/class-stripe-connect-manager.php:433-445 | a vendor without pending rows has a pending total of 0 |
| StripeConnect.PendingTotalAppend | includes/class-stripe-connect-manager.php:436-444 | the pending total and count of a ledger are the sums over any split of it |
| StripeConnect.MarkPaid | includes/class-stripe-connect-manager.php:457-476 | the settled ledger has the same rows in the same order with the same vendor, order, amount and creation time, and none of the vendor's rows is left pending |
| StripeConnect.MarkRoyaltiesAsPaid | includes/class-stripe-connect-manager.php:457-476 | the ledger becomes the settled ledger, whatever the period arguments; the payout table is unchanged |
| StripeConnect.MarkPaidChangesOnlyPendingOfVendor | includes/class-stripe-connect-manager.php:460-473 | a row changes if and only if it is the vendor's and pending; a changed row is paid with the payout id and date and keeps every other column |
| StripeConnect.MarkPaidIdempotent | includes/class-stripe-connect-manager.php:467-470 | a second settlement of the same vendor changes nothing, whatever payout id and date it carries |
| StripeConnect.MarkPaidClearsPending | includes/class-stripe-connect-manager.php:460-473 | after settlement the vendor has nothing pending and no row left to update |
| StripeConnect.MarkPaidKeepsOtherVendors | includes/class-stripe-connect-manager.php:467-470 | settling one vendor leaves every other vendor's pending total and count unchanged |
| PayoutScheduler.IsPayoutDay | includes/class-payout-scheduler.php:89-117 | as written, a day is a payout day if and only if it is a 1st falling Monday to Friday |
| PayoutScheduler.WeekendFirstMeansNoPayoutDay | includes/class-payout-scheduler.php:89-117 | as written, no day of a month whose 1st is a Saturday or Sunday is a payout day |
| PayoutScheduler.PayoutDayOnlyEarlyInMonth | includes/class-payout-scheduler.php:89-117 | no day after the 3rd is a payout day, as written or corrected |
| PayoutScheduler.FirstIsPayoutDayIffWeekday | includes/class-payout-scheduler.php:94-100 | the 1st is a payout day if and only if it is Monday to Friday |
| PayoutScheduler.RollForwardNeverFires | includes/class-payout-scheduler.php:102-114 | as written, neither the 2nd nor the 3rd is ever a payout day |
| PayoutScheduler.WeekendMonthHasNoPayoutDay | includes/class-payout-scheduler.php:89-117 | as written, a month beginning on a Saturday or Sunday has no payout day at all |
| PayoutScheduler.March2025Missed | includes/class-payout-scheduler.php:109-114 | Monday 3 March 2025 (after a Saturday 1st) is not a payout day as written, and is one under the corrected rule |
| PayoutScheduler.NextPayoutDate | includes/class-payout-scheduler.php:446-457 | never a weekend; a weekday 1st stays, a Saturday 1st moves to Monday the 3rd, a Sunday 1st to Monday the 2nd |
| PayoutScheduler.NextPayoutDateEarlyInMonth | includes/class-payout-scheduler.php:446-457 | the next payout date is a day of that month, one of its first three |
| PayoutScheduler.DaysBeforeNextPayoutAreWeekend | includes/class-vendor-dashboard.php:696-707 | the dashboard's next payout date is the first working day of the month: every earlier day is a Saturday or Sunday |
| PayoutScheduler.CorrectedPayoutDayIff | includes/class-payout-scheduler.php:93-114 | corrected, a payout day is a weekday 1st, or a Monday 2nd or 3rd |
| PayoutScheduler.CorrectedRuleOnToday | includes/class-payout-scheduler.php:446-457 | corrected, any day is a payout day if and only if it is the date get_next_payout_date announces for its month |
| PayoutScheduler.CorrectedPayoutDayIsNextPayoutDate | includes/class-payout-scheduler.php:93-114 | under the corrected rule a day of a month is a payout day if and only if it is the date get_next_payout_date announces for that month |
| PayoutScheduler.CorrectedPayoutDayCases | includes/class-payout-scheduler.php:93-114 | the corrected rule on the three month shapes: Friday 1st; Saturday 1st (only the 3rd); Sunday 1st (only the 2nd) |
| PayoutScheduler.IsEligibilityQueryAnswer | includes/class-payout-scheduler.php:138-162 | every vendor of an intended answer has at least 15 EUR pending and a non-empty account id |
| PayoutScheduler.AnsweredVendorsClearMinimum | includes/class-payout-scheduler.php:138-162 | every vendor in an intended query answer has at least 15 EUR pending, so create_payout's minimum guard never refuses it |
| PayoutScheduler.ReadyVendors | includes/class-payout-scheduler.php:164-184 | no more vendors than candidates, and each kept vendor is a candidate whose account is readable with payouts enabled |
| PayoutScheduler.GetEligibleVendors | includes/class-payout-scheduler.php:164-184 | the filter's result is the ready candidates, in query order |
| PayoutScheduler.ReadyVendorsExact | includes/class-payout-scheduler.php:166-183 | a summary is kept if and only if it is a candidate whose status lookup succeeded with payouts enabled; no more vendors than candidates |
| PayoutScheduler.ReadyVendorsKeepOrder | includes/class-payout-scheduler.php:164-184 | distinct vendors in oldest-first order stay distinct and oldest-first after the filter |
| PayoutScheduler.NoKeyNoEligibleVendors | includes/class-payout-scheduler.php:166-171 | without a secret key no lookup succeeds, so no vendor is eligible |
| PayoutScheduler.VendorResultFor | includes/class-payout-scheduler.php:295-341 | a vendor's result carries its id and amount, and is a success if and only if the processor accepted the payout; a success carries the processor's payout id and status and no error, a failure carries the processor's error message and no payout id or status |
| PayoutScheduler.ProcessVendorPayout | includes/class-payout-scheduler.php:271-342 | returns the vendor's result; on a processor error both tables are unchanged; on success the payout row is recorded if the database accepts it, and only then is the vendor settled |
| PayoutScheduler.FailedPayoutTouchesNothing | includes/class-payout-scheduler.php:295-303 | a failed payout inserts no payout row and marks no royalty paid |
| PayoutScheduler.SuccessWithoutPayoutRow | includes/class-payout-scheduler.php:321-341 | success is reported even when the payout row was not written, and then the ledger stays pending |
| PayoutScheduler.RecordedPayoutSettlesVendor | includes/class-payout-scheduler.php:306-332 | a recorded payout adds one row carrying the snapshot's total_pending (its window total), while every pending row of the vendor is cleared |
| PayoutScheduler.WindowAtMostPending | includes/class-payout-scheduler.php:138-153 | with non-negative amounts, the query's window total never exceeds the vendor's whole pending total |
| PayoutScheduler.WindowBelowPending | includes/class-payout-scheduler.php:138-153 | a positive pending row of the vendor newer than the cutoff makes the window total strictly smaller than the pending total |
| PayoutScheduler.PayoutPaysWindowClearsAll | includes/class-payout-scheduler.php:271-332 | as written, a recorded payout of an answered vendor pays the window total up to the cutoff and leaves the vendor nothing pending |
| PayoutScheduler.PayoutClearsMoreThanItPays | includes/class-stripe-connect-manager.php:460-473 | as written, a positive pending row newer than the cutoff makes the amount paid strictly less than the amount cleared |
| PayoutScheduler.MarkPaidWindow | includes/class-stripe-connect-manager.php:457-476 | corrected settlement: no row of the window is left pending, each window row is paid with the payout id and date and keeps its other columns, and every other row is unchanged |
| PayoutScheduler.MarkPaidWindowClearsWindow | includes/class-stripe-connect-manager.php:457-476 | corrected settlement empties the window, and the pending total drops by exactly the window total |
| PayoutScheduler.CorrectedPayoutClearsWhatItPays | includes/class-payout-scheduler.php:306-332 | with the corrected settlement, a recorded payout clears exactly the amount it pays, and rows newer than the cutoff are untouched |
| PayoutScheduler.RunResults | includes/class-payout-scheduler.php:235-237 | one result per vendor of the snapshot |
| PayoutScheduler.SuccessCount | includes/class-payout-scheduler.php:239-243 | the processed count never exceeds the number of results |
| PayoutScheduler.RunResultsInOrder | includes/class-payout-scheduler.php:235-237 | result k is vendor k's, in snapshot order |
| PayoutScheduler.StepKeepsOtherVendor | includes/class-payout-scheduler.php:306-332 | one vendor's payout leaves every other vendor's pending total and payout rows unchanged |
| PayoutScheduler.RunKeepsAbsentVendor | includes/class-payout-scheduler.php:235-247 | a vendor outside the snapshot keeps its pending total and gets no payout row during a run |
| PayoutScheduler.RunKeepsFailedVendor | includes/class-payout-scheduler.php:235-247 | a vendor whose payout failed still has its royalties pending and no new payout row when the run ends; the run goes on past failures |
| PayoutScheduler.PayVendors | includes/class-payout-scheduler.php:230-247 | the results are the snapshot's results in order; processed counts successes; processed + failed equals the snapshot size; the tables are those of the run |
| PayoutScheduler.Scheduler.constructor | includes/class-payout-scheduler.php:220-222 | no pending, completed or cancelled batch |
| PayoutScheduler.Scheduler.ScheduleBatch | includes/class-payout-scheduler.php:193-212 | the pending slot holds the new scheduled batch (overwriting any other); history slots unchanged |
| PayoutScheduler.Scheduler.ProcessScheduledPayouts | includes/class-payout-scheduler.php:219-261 | nothing changes unless the pending batch is scheduled; otherwise the completed slot holds the batch with the run's results and counts, the pending slot is emptied, and the tables are those of the run; the slot invariant (counts add up) is kept |
| PayoutScheduler.Scheduler.CancelScheduledBatch | includes/class-payout-scheduler.php:508-525 | succeeds if and only if the pending batch is scheduled; then it is stored as cancelled with its time and the pending slot is emptied; otherwise nothing changes |
| PayoutScheduler.Scheduler.CheckAndProcessPayouts | includes/class-payout-scheduler.php:64-80 | on a payout day (as written) with eligible vendors the pending slot holds a new batch of them; otherwise nothing changes; in a month whose 1st is a weekend day nothing is ever scheduled |
| PayoutScheduler.Scheduler.CheckAndProcessPayoutsCorrected | includes/class-payout-scheduler.php:64-80 | with the corrected rule, a batch of the eligible vendors is scheduled exactly on the date get_next_payout_date announces for the month, when there are any; otherwise nothing changes |
| PayoutScheduler.Scheduler.TriggerManualPayout | includes/class-payout-scheduler.php:464-484 | no eligible vendor gives the error and changes nothing; otherwise a batch of them is scheduled and their count and total are returned |
| PayoutScheduler.RescheduleOverwrites | includes/class-payout-scheduler.php:199-205 | scheduling a second snapshot stores a different batch holding only the second snapshot |
| PayoutScheduler.SumPendingAppend | includes/class-payout-scheduler.php:194 | a batch total is additive over any split of its snapshot |
| PayoutScheduler.NewBatch | includes/class-payout-scheduler.php:193-205 | a new batch is scheduled with the given vendors, totals their pending amounts, counts them, is processed six hours later, has no results or counts yet, and totals at least 15 EUR per vendor when each vendor has that much |
| PayoutScheduler.SumPendingAtLeast | includes/class-payout-scheduler.php:194 | vendors each owed at least 15 EUR total at least 15 EUR per vendor |
| PayoutScheduler.PayoutPreview | includes/class-payout-scheduler.php:428-438 | the preview lists exactly the ready candidates (the eligible-vendor filter's result), with their count and total, and get_next_payout_date's date, which is not a weekend |
| VendorDashboard.RemoveWithdrawalNav | includes/class-vendor-dashboard.php:68-73 | the withdraw and orders entries and the settings submenu's payment entry are gone; every other key and value is unchanged |
| VendorDashboard.RemoveWithdrawalQueryVars | includes/class-vendor-dashboard.php:82-85 | the withdraw variable is gone; every other variable is unchanged |
| VendorDashboard.AddCustomQueryVars | includes/class-vendor-dashboard.php:94-98 | royalties and stripe-connect map to themselves; every other variable is unchanged |
| VendorDashboard.RenameOrdersNav | includes/class-vendor-dashboard.php:107-112 | only the orders entry's title changes, to Books Sold, and only when it exists |
| VendorDashboard.AddRoyaltyNav | includes/class-vendor-dashboard.php:121-137 | My Royalties at position 25 and Payment Settings at position 26 with their navigation urls are added or replaced; every other entry is unchanged |
| VendorDashboard.RemovalBeforeRenameLeavesNoOrders | includes/class-vendor-dashboard.php:68-112 | once the orders entry is removed, renaming it finds nothing to change |
| VendorDashboard.PayoutEligibility | includes/class-vendor-dashboard.php:264-274 | eligible with the amount if and only if at least 15 EUR is due; otherwise the shortfall is positive and tops the amount up to exactly 15 EUR |
| VendorDashboard.BankArrivalDate | includes/class-vendor-dashboard.php:716-720 | the estimate is exactly two calendar days after the payout's date |
| VendorDashboard.SpaceSeparators | includes/class-vendor-dashboard.php:741 | same length; every dot and underscore becomes a space and every other character stays |
| VendorDashboard.FormatRequirement | includes/class-vendor-dashboard.php:729-742 | each of the eight known keys gets its hand-written label; any other key keeps its length, loses its separators, keeps its other characters and gets an upper-case first letter |
| VendorDashboard.FormatKnownRequirement | includes/class-vendor-dashboard.php:736 | external_account is shown as Bank account details |
| RoyaltySummary.ViolatesMinimum | functions.php:22 | a product passes if and only if each of its prices is unset or at least 0.99 |
| RoyaltySummary.MinimumPriceBoundary | functions.php:9-22 | prices that are unset or at least 0.99 pass; a set price below 0.99 is refused |
| RoyaltySummary.Product.constructor | functions.php:18-19 | a product with the given prices and status |
| RoyaltySummary.MinimumProductPriceCheck | functions.php:8-42 | no product: nothing; accepted if and only if no set price is below 0.99; a refusal in the admin puts the product back to draft with the error, and elsewhere the request stops with the status untouched; the prices never change |
| RoyaltySummary.Figures | functions.php:91-94 | the rounding of the price with tax and of the margin changes nothing on whole cents: the price with tax is the price plus VAT, and margin plus royalty plus fee is the tax-exclusive price |
| RoyaltySummary.FiguresRounding | functions.php:91-93 | the VAT is 5.5 percent of the price to the nearest cent, and the fee is 1.4 percent of the price with tax plus 0.25 EUR to the nearest cent (so at least 0.25) |
| RoyaltySummary.FiguresExample | functions.php:91-94 | a 10.00 EUR line: VAT 0.55, 10.55 with tax, fee 0.40, margin 4.60 after a 5.00 royalty |
| RoyaltySummary.SummarizeRoyalties | functions.php:87-113 | the loop's totals, monthly buckets and month order are those of the summary function |
| RoyaltySummary.MonthsAreKeys | functions.php:96-102 | the recorded months are distinct and are exactly the months with a bucket |
| RoyaltySummary.BucketIffMonthSeen | functions.php:95-102 | a month has a bucket if and only if some row was created in it |
| RoyaltySummary.BucketIsMonthOfRows | functions.php:96-106 | each month's bucket is the sum of that month's rows: it was opened at zero |
| RoyaltySummary.AddRowKeepsSums | functions.php:96-110 | adding a row keeps the buckets adding up to the totals |
| RoyaltySummary.BucketsAddUpToTotals | functions.php:103-110 | the buckets' sales, royalties and margins add up to the total sales, royalties and margin |
| RoyaltySummary.Summarize | functions.php:87-113 | total sales equal total royalties plus total fees plus total margin; no rows give no months |

## Left out

- The Stripe SDK. Account creation, onboarding links, login links, account retrieval, balance retrieval and payout creation are remote calls. They are replaced by oracle parameters that return a value or an error message; the remote side is assumed atomic.
- The SQL text of `$wpdb`. Tables are sequences of records. The eligibility query's per-vendor summaries are a parameter described by `PayoutScheduler.IsEligibilityQueryAnswer`, because the query as written does not run.
- Mail (`wp_mail` and the email notification class), cron events (`wp_schedule_single_event`, `wp_clear_scheduled_hook`), `sleep(1)`, AJAX responses, nonce and capability checks. These are I/O, scheduling and permission plumbing.
- All HTML, chart and JavaScript rendering, the admin interface class and the plugin bootstrap file. These are user interface.
- Floating point. Amounts are exact integers in cents or sub-cents, and the representation errors of PHP floats are not modelled; only the rounding to the cent is.
- `strtotime`, `DateTime` relative formats and the date formats ('Y-m-d', 'F j, Y', 'Y-m'). Dates are day numbers and weekdays; the year-month of a row is a parameter.
- AutoPayments.DiscountedPrice: models the promo discount as a whole percent, the step the product field enforces; a fractional discount typed around the field is not modelled.
- StripeConnect.CentAmountSentExactly / StripeConnect.CreatePayout: PHP computes `intval($amount * 100)` on a float, so an amount such as 19.99 can reach the processor as 1998 cents, one cent short; the model holds the amount exactly and sends 1999.
- The clock of a payout run. The source reads the time anew for each vendor, for the payout period and the paid date, and sleeps one second between vendors. The model gives the whole run one time `now` and one `Period`.
- The `"0"` secret key. PHP's `empty()` also treats the string `"0"` as no key. `StripeConnect.GetAccountStatus`, `StripeConnect.GetAccountBalance` and `StripeConnect.CreatePayout` treat only the empty string as no key.
- StripeConnect.GetAccountBalance: reports the amounts in cents rather than divided by 100 into euros, because the division only changes the unit.
- StripeConnect.MarkRoyaltiesAsPaid: returns nothing. The boolean result of the update is ignored by its only caller, and a database failure of the update is not modelled.
- Vendor names and e-mail addresses in the summaries and results, because they only feed notifications.
- The key order of PHP arrays in the navigation filters. The model uses maps. The months of the summary are kept in first-seen order, because the chart uses that order.
- The dashboard's sales, balance and history queries and its template loading. They are further SQL and rendering.
- Translation (`__`). Labels are the untranslated English strings.
- The numeric-id branch of the minimum price check (`wc_get_product`). The model receives the product object, or null when there is none.
- Resuming a batch left in the processing state by an interrupted run. Such a batch stays in the pending slot and is never processed again; `PayoutScheduler.Scheduler.Valid` allows this state, but the model has no interrupted run.
- The Dokan filter in functions.php that also removes the orders tab. It is the same removal as the dashboard's, outside the plugin's classes.

## Findings

| source | as written | input that shows it | evidently intended | confidence | as-written member | corrected member |
|---|---|---|---|---|---|---|
| includes/class-payout-scheduler.php:102-114 | the 2nd qualifies when it is a Monday and the day before is a Saturday; the 3rd qualifies when it is a Monday and two days before is a Sunday. A Monday always follows a Sunday and comes two days after a Saturday, so neither branch can hold, and a month starting on a weekend gets no payout day | Monday 3 March 2025 (1 March 2025 is a Saturday) and Monday 2 March 2026 (1 March 2026 is a Sunday) | the Monday after a weekend 1st is the payout day, the date get_next_payout_date announces (Monday 2nd after a Sunday 1st, Monday 3rd after a Saturday 1st) | high, not executed | PayoutScheduler.IsPayoutDay and PayoutScheduler.Scheduler.CheckAndProcessPayouts with PayoutScheduler.WeekendFirstMeansNoPayoutDay, PayoutScheduler.RollForwardNeverFires, PayoutScheduler.WeekendMonthHasNoPayoutDay and PayoutScheduler.March2025Missed | PayoutScheduler.IsPayoutDayCorrected with PayoutScheduler.CorrectedPayoutDayIff, PayoutScheduler.CorrectedPayoutDayIsNextPayoutDate, PayoutScheduler.CorrectedPayoutDayCases and PayoutScheduler.Scheduler.CheckAndProcessPayoutsCorrected |
| includes/class-stripe-connect-manager.php:460-473 | the payout pays the snapshot's total_pending, the vendor's pending rows up to the eligibility cutoff, but the update after it marks every pending row of the vendor paid; the period arguments are unused | a vendor with a €20.00 pending row created before the cutoff and a €5.00 pending row created last week: €20.00 is paid and both rows are marked paid | only the rows the payout paid are marked paid (the update scoped to the period it is passed) | medium, not executed | PayoutScheduler.VendorPayoutTables with PayoutScheduler.PayoutPaysWindowClearsAll and PayoutScheduler.PayoutClearsMoreThanItPays | PayoutScheduler.VendorPayoutTablesCorrected and PayoutScheduler.MarkPaidWindow with PayoutScheduler.MarkPaidWindowClearsWindow and PayoutScheduler.CorrectedPayoutClearsWhatItPays |
