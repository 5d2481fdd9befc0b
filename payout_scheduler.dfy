/**
 * Libookin_Payout_Scheduler: the payout-day rule, the next-payout date, the
 * eligibility filter and the batch lifecycle
 * (absent -> scheduled -> processing -> completed, or scheduled -> cancelled).
 *
 * The three WordPress options the scheduler uses are the three slots of the
 * class PayoutScheduler: the pending batch, the last completed batch and the
 * last cancelled batch. The clock, the processor and the database's answers
 * are parameters.
 */
module PayoutScheduler {
  import opened Wrappers
  import opened Money
  import opened Calendar
  import opened Ledger
  import opened StripeConnect

  /** The delay between scheduling a batch and processing it, for admin review. */
  const ReviewDelaySeconds: int := 6 * HourSeconds

  // ----- Payout days -----

  /**
   * is_payout_day as written: the 1st when it is Monday to Friday; the 2nd if it
   * is a Monday and the day before was a Saturday; the 3rd if it is a Monday and
   * two days before was a Sunday.
   */
  predicate IsPayoutDay(d: Day)
    ensures IsPayoutDay(d) <==> d.dayOfMonth == 1 && !IsWeekend(d.weekday)
  {
    if d.dayOfMonth == 1 then d.weekday < Saturday
    else if d.dayOfMonth == 2 && d.weekday == Monday then ShiftWeekday(d.weekday, -1) == Saturday
    else if d.dayOfMonth == 3 && d.weekday == Monday then ShiftWeekday(d.weekday, -2) == Sunday
    else false
  }

  /** No day after the 3rd is ever a payout day. */
  lemma PayoutDayOnlyEarlyInMonth(d: Day)
    requires d.dayOfMonth != 1 && d.dayOfMonth != 2 && d.dayOfMonth != 3
    ensures !IsPayoutDay(d) && !IsPayoutDayCorrected(d)
  {
  }

  /** The 1st is a payout day exactly when it is Monday to Friday. */
  lemma FirstIsPayoutDayIffWeekday(d: Day)
    requires d.dayOfMonth == 1
    ensures IsPayoutDay(d) <==> d.weekday < Saturday
    ensures IsPayoutDayCorrected(d) <==> d.weekday < Saturday
  {
  }

  /** As written, the roll-forward branches never fire: a Monday follows a Sunday, not a Saturday. */
  lemma RollForwardNeverFires(d: Day)
    requires d.dayOfMonth == 2 || d.dayOfMonth == 3
    ensures !IsPayoutDay(d)
  {
  }

  /** As written, a month whose 1st is a Saturday or a Sunday has no payout day at all. */
  lemma WeekendMonthHasNoPayoutDay(first: Weekday, dom: int)
    requires IsWeekend(first)
    ensures !IsPayoutDay(DayInMonth(first, dom))
  {
  }

  /** March 2025 begins on a Saturday: as written its Monday the 3rd is not a payout day. */
  lemma March2025Missed()
    ensures DayInMonth(Saturday, 3) == Day(3, Monday)
    ensures !IsPayoutDay(DayInMonth(Saturday, 3))
    ensures IsPayoutDayCorrected(DayInMonth(Saturday, 3))
  {
  }

  /**
   * The rule the comments and get_next_payout_date describe: the 1st when it is
   * a weekday, otherwise the Monday after it (the 2nd after a Sunday 1st, the 3rd
   * after a Saturday 1st).
   */
  predicate IsPayoutDayCorrected(d: Day)
  {
    if d.dayOfMonth == 1 then d.weekday < Saturday
    else if d.dayOfMonth == 2 && d.weekday == Monday then ShiftWeekday(d.weekday, -1) == Sunday
    else if d.dayOfMonth == 3 && d.weekday == Monday then ShiftWeekday(d.weekday, -2) == Saturday
    else false
  }

  /** Corrected, a payout day is a weekday 1st, or a Monday 2nd or 3rd (after a weekend 1st). */
  lemma CorrectedPayoutDayIff(d: Day)
    ensures IsPayoutDayCorrected(d) <==>
              (d.dayOfMonth == 1 && !IsWeekend(d.weekday))
              || ((d.dayOfMonth == 2 || d.dayOfMonth == 3) && d.weekday == Monday)
  {
  }

  /** get_next_payout_date: the 1st of the month, moved 8 - weekday days on when it is a weekend day. */
  function NextPayoutDate(first: Weekday): (d: Day)
    ensures !IsWeekend(d.weekday)
    ensures first == Saturday ==> d == Day(3, Monday)
    ensures first == Sunday ==> d == Day(2, Monday)
    ensures !IsWeekend(first) ==> d == Day(1, first)
  {
    var firstDay := Day(1, first);
    if first >= Saturday then AddDays(firstDay, 8 - first) else firstDay
  }

  /** The next payout date is one of the first three days of the month. */
  lemma NextPayoutDateEarlyInMonth(first: Weekday)
    ensures NextPayoutDate(first) == DayInMonth(first, NextPayoutDate(first).dayOfMonth)
    ensures 1 <= NextPayoutDate(first).dayOfMonth <= 3
  {
  }

  /**
   * The next payout date is the first working day of the month: every day of
   * the month before it is a Saturday or a Sunday.
   */
  lemma DaysBeforeNextPayoutAreWeekend(first: Weekday, dom: int)
    requires 1 <= dom < NextPayoutDate(first).dayOfMonth
    ensures IsWeekend(DayInMonth(first, dom).weekday)
  {
    if first == Saturday && dom == 2 {
      ShiftWeekdayNoWrap(first, 1);
    }
  }

  /**
   * With the correction, each month has exactly one payout day, and it is the
   * date get_next_payout_date announces for that month.
   */
  lemma CorrectedPayoutDayIsNextPayoutDate(first: Weekday, dom: int)
    ensures IsPayoutDayCorrected(DayInMonth(first, dom)) <==> DayInMonth(first, dom) == NextPayoutDate(first)
  {
    if dom == 1 {
      ShiftWeekdayNoWrap(first, 0);
    } else if dom == 2 {
      if first == Sunday {
        ShiftWeekdayWrapOnce(first, 1);
      } else {
        ShiftWeekdayNoWrap(first, 1);
      }
    } else if dom == 3 {
      if first >= Saturday {
        ShiftWeekdayWrapOnce(first, 2);
      } else {
        ShiftWeekdayNoWrap(first, 2);
      }
    }
  }

  /** The calendar cases: 1 March 2024 (Friday), 3 March 2025 (Monday after a Saturday 1st), 2 March 2026 (Monday after a Sunday 1st). */
  lemma CorrectedPayoutDayCases()
    ensures IsPayoutDayCorrected(DayInMonth(Friday, 1))
    ensures !IsPayoutDayCorrected(DayInMonth(Saturday, 1)) && !IsPayoutDayCorrected(DayInMonth(Saturday, 2))
    ensures IsPayoutDayCorrected(DayInMonth(Saturday, 3))
    ensures !IsPayoutDayCorrected(DayInMonth(Sunday, 1)) && IsPayoutDayCorrected(DayInMonth(Sunday, 2))
    ensures !IsPayoutDayCorrected(DayInMonth(Sunday, 3))
  {
  }

  /** A day whose month began on a weekend is, as written, never a payout day. */
  lemma WeekendFirstMeansNoPayoutDay(d: Day)
    ensures IsWeekend(ShiftWeekday(d.weekday, 1 - d.dayOfMonth)) ==> !IsPayoutDay(d)
  {
    var first := ShiftWeekday(d.weekday, 1 - d.dayOfMonth);
    ShiftWeekdayAdd(d.weekday, 1 - d.dayOfMonth, d.dayOfMonth - 1);
    assert DayInMonth(first, d.dayOfMonth) == d;
    if IsWeekend(first) {
      WeekendMonthHasNoPayoutDay(first, d.dayOfMonth);
    }
  }

  /** The corrected rule on any day, stated through the weekday of its month's 1st. */
  lemma CorrectedRuleOnToday(d: Day)
    ensures IsPayoutDayCorrected(d) <==> d == NextPayoutDate(ShiftWeekday(d.weekday, 1 - d.dayOfMonth))
  {
    var first := ShiftWeekday(d.weekday, 1 - d.dayOfMonth);
    ShiftWeekdayAdd(d.weekday, 1 - d.dayOfMonth, d.dayOfMonth - 1);
    assert DayInMonth(first, d.dayOfMonth) == d;
    CorrectedPayoutDayIsNextPayoutDate(first, d.dayOfMonth);
  }

  // ----- Eligible vendors -----

  /** One row of the eligibility query: a vendor's pending royalties up to the cutoff. Amounts in cents. */
  datatype VendorSummary = VendorSummary(vendorId: int, totalPending: int, royaltyCount: nat,
                                         oldestRoyalty: int, stripeAccountId: string)

  predicate InWindow(row: RoyaltyRow, vendorId: int, cutoff: int)
  {
    row.vendorId == vendorId && row.status == Pending && row.createdAt <= cutoff
  }

  function WindowTotal(rows: seq<RoyaltyRow>, vendorId: int, cutoff: int): int
  {
    if rows == [] then 0
    else WindowTotal(rows[..|rows| - 1], vendorId, cutoff)
         + (if InWindow(rows[|rows| - 1], vendorId, cutoff) then rows[|rows| - 1].royaltyAmount else 0)
  }

  function WindowCount(rows: seq<RoyaltyRow>, vendorId: int, cutoff: int): nat
  {
    if rows == [] then 0
    else WindowCount(rows[..|rows| - 1], vendorId, cutoff)
         + (if InWindow(rows[|rows| - 1], vendorId, cutoff) then 1 else 0)
  }

  predicate IsOldestInWindow(rows: seq<RoyaltyRow>, vendorId: int, cutoff: int, t: int)
  {
    (exists i :: 0 <= i < |rows| && InWindow(rows[i], vendorId, cutoff) && rows[i].createdAt == t)
    && forall i :: 0 <= i < |rows| && InWindow(rows[i], vendorId, cutoff) ==> t <= rows[i].createdAt
  }

  /** A vendor qualifies: a non-empty account id and at least 15 EUR pending up to the cutoff. */
  predicate Qualifies(rows: seq<RoyaltyRow>, accounts: map<int, string>, cutoff: int, vendorId: int)
  {
    vendorId in accounts && accounts[vendorId] != ""
    && WindowTotal(rows, vendorId, cutoff) >= MinimumPayoutCents
  }

  /**
   * The intended answer of the eligibility query: one summary per qualifying
   * vendor, none for any other, ordered by oldest pending row.
   */
  predicate IsEligibilityQueryAnswer(rows: seq<RoyaltyRow>, accounts: map<int, string>, cutoff: int,
                                     answer: seq<VendorSummary>)
    ensures IsEligibilityQueryAnswer(rows, accounts, cutoff, answer) ==>
              forall i :: 0 <= i < |answer| ==>
                answer[i].totalPending >= MinimumPayoutCents && answer[i].stripeAccountId != ""
  {
    && (forall i :: 0 <= i < |answer| ==>
          Qualifies(rows, accounts, cutoff, answer[i].vendorId)
          && answer[i].totalPending == WindowTotal(rows, answer[i].vendorId, cutoff)
          && answer[i].royaltyCount == WindowCount(rows, answer[i].vendorId, cutoff)
          && IsOldestInWindow(rows, answer[i].vendorId, cutoff, answer[i].oldestRoyalty)
          && answer[i].stripeAccountId == accounts[answer[i].vendorId])
    && (forall i, j :: 0 <= i < j < |answer| ==>
          answer[i].vendorId != answer[j].vendorId && answer[i].oldestRoyalty <= answer[j].oldestRoyalty)
    && (forall v | v in accounts :: Qualifies(rows, accounts, cutoff, v) ==> exists i :: 0 <= i < |answer| && answer[i].vendorId == v)
  }

  /** Every vendor of a query answer clears the create_payout minimum, so that guard never refuses it. */
  lemma AnsweredVendorsClearMinimum(rows: seq<RoyaltyRow>, accounts: map<int, string>, cutoff: int,
                                    answer: seq<VendorSummary>, i: int, g: Gateway, period: Period)
    requires IsEligibilityQueryAnswer(rows, accounts, cutoff, answer) && 0 <= i < |answer|
    ensures CreatePayout(g.secretKey, answer[i].stripeAccountId, ToSub(answer[i].totalPending),
                         MetadataFor(answer[i], period), g.processor).result != Failure(MinimumAmount)
  {
  }

  /** The vendor's account is readable and has payouts enabled. */
  predicate PayoutReady(secretKey: string, retrieve: string -> Result<Account, string>, s: VendorSummary)
  {
    var status := GetAccountStatus(secretKey, retrieve(s.stripeAccountId));
    status.Success? && status.value.payoutsEnabled
  }

  /** The candidates that are payout-ready, in candidate order. */
  function ReadyVendors(candidates: seq<VendorSummary>, secretKey: string,
                        retrieve: string -> Result<Account, string>): (ready: seq<VendorSummary>)
    ensures |ready| <= |candidates|
    ensures forall i :: 0 <= i < |ready| ==> ready[i] in candidates && PayoutReady(secretKey, retrieve, ready[i])
  {
    if candidates == [] then []
    else
      var last := candidates[|candidates| - 1];
      ReadyVendors(candidates[..|candidates| - 1], secretKey, retrieve)
      + (if PayoutReady(secretKey, retrieve, last) then [last] else [])
  }

  /**
   * The loop of get_eligible_vendors: ask the processor for each candidate's
   * account status and keep the candidate when the lookup succeeded with payouts
   * enabled. retrieve is the processor's answer for each account id.
   */
  method GetEligibleVendors(candidates: seq<VendorSummary>, secretKey: string,
                            retrieve: string -> Result<Account, string>)
    returns (eligible: seq<VendorSummary>)
    ensures eligible == ReadyVendors(candidates, secretKey, retrieve)
  {
    eligible := [];
    var i := 0;
    while i < |candidates|
      invariant 0 <= i <= |candidates|
      invariant eligible == ReadyVendors(candidates[..i], secretKey, retrieve)
    {
      var accountStatus := GetAccountStatus(secretKey, retrieve(candidates[i].stripeAccountId));
      if accountStatus.Success? && accountStatus.value.payoutsEnabled {
        eligible := eligible + [candidates[i]];
      }
      assert candidates[..i + 1][..i] == candidates[..i];
      i := i + 1;
    }
    assert candidates[..|candidates|] == candidates;
  }

  /** The filter keeps exactly the payout-ready candidates. */
  lemma {:induction false} ReadyVendorsExact(candidates: seq<VendorSummary>, secretKey: string,
                                             retrieve: string -> Result<Account, string>, s: VendorSummary)
    ensures s in ReadyVendors(candidates, secretKey, retrieve) <==> s in candidates && PayoutReady(secretKey, retrieve, s)
    ensures |ReadyVendors(candidates, secretKey, retrieve)| <= |candidates|
  {
    if candidates != [] {
      var init := candidates[..|candidates| - 1];
      ReadyVendorsExact(init, secretKey, retrieve, s);
      assert candidates == init + [candidates[|candidates| - 1]];
    }
  }

  /** Query order survives the filter: distinct vendors in oldest-first order stay so. */
  lemma {:induction false} ReadyVendorsKeepOrder(candidates: seq<VendorSummary>, secretKey: string,
                                                 retrieve: string -> Result<Account, string>)
    requires forall i, j :: 0 <= i < j < |candidates| ==>
               candidates[i].vendorId != candidates[j].vendorId && candidates[i].oldestRoyalty <= candidates[j].oldestRoyalty
    ensures var e := ReadyVendors(candidates, secretKey, retrieve);
            forall i, j :: 0 <= i < j < |e| ==> e[i].vendorId != e[j].vendorId && e[i].oldestRoyalty <= e[j].oldestRoyalty
  {
    if candidates != [] {
      var n := |candidates|;
      var init, last := candidates[..n - 1], candidates[n - 1];
      ReadyVendorsKeepOrder(init, secretKey, retrieve);
      var e0 := ReadyVendors(init, secretKey, retrieve);
      var e := ReadyVendors(candidates, secretKey, retrieve);
      assert e == e0 + (if PayoutReady(secretKey, retrieve, last) then [last] else []);
      forall x | x in e0
        ensures x.vendorId != last.vendorId && x.oldestRoyalty <= last.oldestRoyalty
      {
        ReadyVendorsExact(init, secretKey, retrieve, x);
        var p :| 0 <= p < n - 1 && init[p] == x;
        assert candidates[p] == x;
      }
      forall i, j | 0 <= i < j < |e|
        ensures e[i].vendorId != e[j].vendorId && e[i].oldestRoyalty <= e[j].oldestRoyalty
      {
        assert i < |e0| && e[i] == e0[i];
        if j < |e0| {
          assert e[j] == e0[j];
        } else {
          assert e[j] == last;
          assert e0[i] in e0;
          assert e0[i].vendorId != last.vendorId && e0[i].oldestRoyalty <= last.oldestRoyalty;
        }
      }
    }
  }

  /** Without a secret key no status lookup succeeds, so nobody is eligible. */
  lemma {:induction false} NoKeyNoEligibleVendors(candidates: seq<VendorSummary>, retrieve: string -> Result<Account, string>)
    ensures ReadyVendors(candidates, "", retrieve) == []
  {
    if candidates != [] {
      NoKeyNoEligibleVendors(candidates[..|candidates| - 1], retrieve);
    }
  }

  // ----- Batches -----

  datatype BatchStatus = Scheduled | Processing | Completed | Cancelled

  /** One entry of a batch's results; amount in cents. */
  datatype VendorResult = VendorResult(success: bool, vendorId: int, amount: int,
                                       payoutId: Option<string>, status: Option<string>, error: Option<string>)

  /** The option array of a batch: the snapshot and its totals, then what processing or cancelling adds. */
  datatype Batch = Batch(vendors: seq<VendorSummary>, totalAmount: int, vendorCount: nat, scheduledTime: int,
                         status: BatchStatus, processedCount: nat, failedCount: nat, results: seq<VendorResult>,
                         completedAt: Option<int>, cancelledAt: Option<int>)

  /** array_sum(array_column(vendors, 'total_pending')). */
  function SumPending(vendors: seq<VendorSummary>): int
  {
    if vendors == [] then 0 else SumPending(vendors[..|vendors| - 1]) + vendors[|vendors| - 1].totalPending
  }

  /** The batch schedule_payout_batch stores. */
  function NewBatch(vendors: seq<VendorSummary>, now: int): (b: Batch)
    ensures b.status == Scheduled && b.vendors == vendors && b.vendorCount == |vendors|
    ensures b.totalAmount == SumPending(vendors)
    ensures b.scheduledTime == now + ReviewDelaySeconds
    ensures b.results == [] && b.processedCount == 0 && b.failedCount == 0
    ensures b.completedAt.None? && b.cancelledAt.None?
    ensures (forall i :: 0 <= i < |vendors| ==> vendors[i].totalPending >= MinimumPayoutCents)
            ==> b.totalAmount >= MinimumPayoutCents * |vendors|
  {
    SumPendingAtLeast(vendors);
    Batch(vendors, SumPending(vendors), |vendors|, now + ReviewDelaySeconds, Scheduled, 0, 0, [], None, None)
  }

  /** The settlement period handed to the processor and the ledger: two months back to now, as dates. */
  datatype Period = Period(start: int, end: int)

  /**
   * The remote and database side of a payout run: the secret key, the processor's
   * answer to each payout request, and whether the database accepts each payout row.
   */
  datatype Gateway = Gateway(secretKey: string, processor: PayoutCall -> Result<RemotePayout, string>,
                             recordOk: PayoutRow -> bool)

  function MetadataFor(v: VendorSummary, period: Period): PayoutMetadata
  {
    PayoutMetadata(v.vendorId, period.start, period.end, v.royaltyCount)
  }

  /** The message get_error_message returns for each error. */
  function ErrorMessage(e: GatewayError): string
  {
    match e
    case StripeNotConfigured => "Stripe is not properly configured."
    case MinimumAmount => "Minimum payout amount is €15."
    case StripeError(message) => message
  }

  function AttemptFor(v: VendorSummary, g: Gateway, period: Period): PayoutAttempt
  {
    CreatePayout(g.secretKey, v.stripeAccountId, ToSub(v.totalPending), MetadataFor(v, period), g.processor)
  }

  /** The payout row recorded after a confirmed payout. */
  function PayoutRowFor(v: VendorSummary, p: Payout, period: Period): PayoutRow
  {
    PayoutRow(v.vendorId, v.totalPending, "EUR", p.payoutId, v.stripeAccountId, p.status, period.start, period.end)
  }

  /** The result process_vendor_payout returns: it depends on the processor only. */
  function VendorResultFor(v: VendorSummary, g: Gateway, period: Period): (r: VendorResult)
    ensures r.vendorId == v.vendorId && r.amount == v.totalPending
    ensures r.success <==> AttemptFor(v, g, period).result.Success?
    ensures r.success ==> r.payoutId == Some(AttemptFor(v, g, period).result.value.payoutId)
                          && r.status == Some(AttemptFor(v, g, period).result.value.status)
                          && r.error.None?
    ensures !r.success ==> r.error == Some(ErrorMessage(AttemptFor(v, g, period).result.error))
                           && r.payoutId.None? && r.status.None?
  {
    match AttemptFor(v, g, period).result
    case Failure(e) => VendorResult(false, v.vendorId, v.totalPending, None, None, Some(ErrorMessage(e)))
    case Success(p) => VendorResult(true, v.vendorId, v.totalPending, Some(p.payoutId), Some(p.status), None)
  }

  /** The two tables after one vendor's payout. */
  datatype Tables = Tables(royalties: seq<RoyaltyRow>, payouts: seq<PayoutRow>)

  function VendorPayoutTables(t: Tables, v: VendorSummary, g: Gateway, period: Period, now: int): Tables
  {
    match AttemptFor(v, g, period).result
    case Failure(_) => t
    case Success(p) =>
      var row := PayoutRowFor(v, p, period);
      if g.recordOk(row) then Tables(MarkPaid(t.royalties, v.vendorId, p.payoutId, now), t.payouts + [row])
      else t
  }

  /**
   * process_vendor_payout: request the payout; on an error return a failure and
   * touch nothing; on success record the payout row and, only if that write
   * succeeded, mark the vendor's pending royalties paid. The result is a success
   * whether or not the payout row was written.
   */
  method ProcessVendorPayout(db: Database, v: VendorSummary, g: Gateway, period: Period, now: int)
    returns (result: VendorResult)
    modifies db
    ensures result == VendorResultFor(v, g, period)
    ensures Tables(db.royalties, db.payouts) == VendorPayoutTables(Tables(old(db.royalties), old(db.payouts)), v, g, period, now)
  {
    var attempt := CreatePayout(g.secretKey, v.stripeAccountId, ToSub(v.totalPending), MetadataFor(v, period), g.processor);
    if attempt.result.Failure? {
      return VendorResult(false, v.vendorId, v.totalPending, None, None, Some(ErrorMessage(attempt.result.error)));
    }
    var payout := attempt.result.value;
    var row := PayoutRowFor(v, payout, period);
    var inserted := db.InsertPayout(row, g.recordOk(row));
    if inserted {
      MarkRoyaltiesAsPaid(db, v.vendorId, payout.payoutId, period.start, period.end, now);
    }
    result := VendorResult(true, v.vendorId, v.totalPending, Some(payout.payoutId), Some(payout.status), None);
  }

  /** A processor error leaves both tables exactly as they were. */
  lemma FailedPayoutTouchesNothing(t: Tables, v: VendorSummary, g: Gateway, period: Period, now: int)
    requires !VendorResultFor(v, g, period).success
    ensures VendorPayoutTables(t, v, g, period, now) == t
  {
  }

  /** Success is reported even when the payout row could not be written; then the ledger stays pending. */
  lemma SuccessWithoutPayoutRow(t: Tables, v: VendorSummary, g: Gateway, period: Period, now: int)
    requires VendorResultFor(v, g, period).success
    requires !g.recordOk(PayoutRowFor(v, AttemptFor(v, g, period).result.value, period))
    ensures VendorPayoutTables(t, v, g, period, now) == t
  {
  }

  /** A recorded payout adds one row for the vendor and leaves it nothing pending. */
  lemma RecordedPayoutSettlesVendor(t: Tables, v: VendorSummary, g: Gateway, period: Period, now: int)
    requires VendorResultFor(v, g, period).success
    requires g.recordOk(PayoutRowFor(v, AttemptFor(v, g, period).result.value, period))
    ensures var t' := VendorPayoutTables(t, v, g, period, now);
            t'.payouts == t.payouts + [PayoutRowFor(v, AttemptFor(v, g, period).result.value, period)]
            && PendingTotal(t'.royalties, v.vendorId) == 0
            && t'.payouts[|t.payouts|].amount == v.totalPending
  {
    MarkPaidClearsPending(t.royalties, v.vendorId, AttemptFor(v, g, period).result.value.payoutId, now);
  }

  // ----- What a payout pays against what it clears -----

  /** With non-negative amounts, the window total never exceeds the vendor's whole pending total. */
  lemma {:induction false} WindowAtMostPending(rows: seq<RoyaltyRow>, vendorId: int, cutoff: int)
    requires forall k :: 0 <= k < |rows| ==> rows[k].royaltyAmount >= 0
    ensures WindowTotal(rows, vendorId, cutoff) <= PendingTotal(rows, vendorId)
  {
    if rows != [] {
      WindowAtMostPending(rows[..|rows| - 1], vendorId, cutoff);
    }
  }

  /** A positive pending row of the vendor newer than the cutoff makes the window total fall short of the pending total. */
  lemma {:induction false} WindowBelowPending(rows: seq<RoyaltyRow>, vendorId: int, cutoff: int, k: int)
    requires forall j :: 0 <= j < |rows| ==> rows[j].royaltyAmount >= 0
    requires 0 <= k < |rows| && rows[k].vendorId == vendorId && rows[k].status == Pending
    requires rows[k].createdAt > cutoff && rows[k].royaltyAmount > 0
    ensures WindowTotal(rows, vendorId, cutoff) < PendingTotal(rows, vendorId)
  {
    var init := rows[..|rows| - 1];
    if k == |rows| - 1 {
      WindowAtMostPending(init, vendorId, cutoff);
    } else {
      WindowBelowPending(init, vendorId, cutoff, k);
    }
  }

  /**
   * As written: a recorded payout of an answered vendor pays the window total
   * (rows up to the cutoff) but clears every pending row of the vendor.
   */
  lemma PayoutPaysWindowClearsAll(t: Tables, accounts: map<int, string>, cutoff: int, answer: seq<VendorSummary>,
                                  i: int, g: Gateway, period: Period, now: int)
    requires IsEligibilityQueryAnswer(t.royalties, accounts, cutoff, answer) && 0 <= i < |answer|
    requires VendorResultFor(answer[i], g, period).success
    requires g.recordOk(PayoutRowFor(answer[i], AttemptFor(answer[i], g, period).result.value, period))
    ensures var t' := VendorPayoutTables(t, answer[i], g, period, now);
            t'.payouts[|t.payouts|].amount == WindowTotal(t.royalties, answer[i].vendorId, cutoff)
            && PendingTotal(t'.royalties, answer[i].vendorId) == 0
  {
    RecordedPayoutSettlesVendor(t, answer[i], g, period, now);
  }

  /**
   * As written, the gap: when the vendor also has a positive pending row newer
   * than the cutoff, the amount paid is less than the amount cleared.
   */
  lemma PayoutClearsMoreThanItPays(t: Tables, accounts: map<int, string>, cutoff: int, answer: seq<VendorSummary>,
                                   i: int, g: Gateway, period: Period, now: int, k: int)
    requires IsEligibilityQueryAnswer(t.royalties, accounts, cutoff, answer) && 0 <= i < |answer|
    requires VendorResultFor(answer[i], g, period).success
    requires g.recordOk(PayoutRowFor(answer[i], AttemptFor(answer[i], g, period).result.value, period))
    requires forall j :: 0 <= j < |t.royalties| ==> t.royalties[j].royaltyAmount >= 0
    requires 0 <= k < |t.royalties| && t.royalties[k].vendorId == answer[i].vendorId
    requires t.royalties[k].status == Pending && t.royalties[k].createdAt > cutoff && t.royalties[k].royaltyAmount > 0
    ensures var t' := VendorPayoutTables(t, answer[i], g, period, now);
            t'.payouts[|t.payouts|].amount
            < PendingTotal(t.royalties, answer[i].vendorId) - PendingTotal(t'.royalties, answer[i].vendorId)
  {
    PayoutPaysWindowClearsAll(t, accounts, cutoff, answer, i, g, period, now);
    WindowBelowPending(t.royalties, answer[i].vendorId, cutoff, k);
  }

  /** Corrected settlement of one row: only a row of the paid window becomes paid. */
  function SettleWindowRow(row: RoyaltyRow, vendorId: int, cutoff: int, payoutId: string, now: int): RoyaltyRow
  {
    if InWindow(row, vendorId, cutoff)
    then row.(status := Paid, stripePayoutId := Some(payoutId), payoutDate := Some(now))
    else row
  }

  /** Corrected settlement: the vendor's pending rows up to the cutoff become paid; newer rows stay pending. */
  function MarkPaidWindow(rows: seq<RoyaltyRow>, vendorId: int, cutoff: int, payoutId: string, now: int): (r: seq<RoyaltyRow>)
    ensures |r| == |rows|
    ensures forall k :: 0 <= k < |r| ==> !InWindow(r[k], vendorId, cutoff)
    ensures forall k :: 0 <= k < |r| && !InWindow(rows[k], vendorId, cutoff) ==> r[k] == rows[k]
    ensures forall k :: 0 <= k < |r| && InWindow(rows[k], vendorId, cutoff) ==>
              r[k].status == Paid && r[k].stripePayoutId == Some(payoutId) && r[k].payoutDate == Some(now)
              && r[k].vendorId == rows[k].vendorId && r[k].orderId == rows[k].orderId
              && r[k].royaltyAmount == rows[k].royaltyAmount && r[k].createdAt == rows[k].createdAt
  {
    seq(|rows|, k requires 0 <= k < |rows| => SettleWindowRow(rows[k], vendorId, cutoff, payoutId, now))
  }

  /** Corrected settlement clears exactly the window: the pending total drops by the window total, which becomes 0. */
  lemma {:induction false} MarkPaidWindowClearsWindow(rows: seq<RoyaltyRow>, vendorId: int, cutoff: int, payoutId: string, now: int)
    ensures var r := MarkPaidWindow(rows, vendorId, cutoff, payoutId, now);
            WindowTotal(r, vendorId, cutoff) == 0
            && PendingTotal(r, vendorId) == PendingTotal(rows, vendorId) - WindowTotal(rows, vendorId, cutoff)
  {
    if rows != [] {
      var init := rows[..|rows| - 1];
      assert MarkPaidWindow(rows, vendorId, cutoff, payoutId, now)[..|rows| - 1]
          == MarkPaidWindow(init, vendorId, cutoff, payoutId, now);
      MarkPaidWindowClearsWindow(init, vendorId, cutoff, payoutId, now);
    }
  }

  /** process_vendor_payout with the corrected settlement, scoped to the rows the payout paid. */
  function VendorPayoutTablesCorrected(t: Tables, v: VendorSummary, g: Gateway, period: Period, now: int, cutoff: int): Tables
  {
    match AttemptFor(v, g, period).result
    case Failure(_) => t
    case Success(p) =>
      var row := PayoutRowFor(v, p, period);
      if g.recordOk(row) then Tables(MarkPaidWindow(t.royalties, v.vendorId, cutoff, p.payoutId, now), t.payouts + [row])
      else t
  }

  /**
   * Corrected: a recorded payout of an answered vendor clears exactly what it
   * pays, and the vendor's rows newer than the cutoff stay pending for a later run.
   */
  lemma CorrectedPayoutClearsWhatItPays(t: Tables, accounts: map<int, string>, cutoff: int, answer: seq<VendorSummary>,
                                        i: int, g: Gateway, period: Period, now: int)
    requires IsEligibilityQueryAnswer(t.royalties, accounts, cutoff, answer) && 0 <= i < |answer|
    requires VendorResultFor(answer[i], g, period).success
    requires g.recordOk(PayoutRowFor(answer[i], AttemptFor(answer[i], g, period).result.value, period))
    ensures var t' := VendorPayoutTablesCorrected(t, answer[i], g, period, now, cutoff);
            t'.payouts == t.payouts + [PayoutRowFor(answer[i], AttemptFor(answer[i], g, period).result.value, period)]
            && t'.payouts[|t.payouts|].amount
               == PendingTotal(t.royalties, answer[i].vendorId) - PendingTotal(t'.royalties, answer[i].vendorId)
            && WindowTotal(t'.royalties, answer[i].vendorId, cutoff) == 0
            && forall k :: 0 <= k < |t.royalties| && t.royalties[k].createdAt > cutoff ==> t'.royalties[k] == t.royalties[k]
  {
    MarkPaidWindowClearsWindow(t.royalties, answer[i].vendorId, cutoff,
                               AttemptFor(answer[i], g, period).result.value.payoutId, now);
  }

  /** The tables after processing a snapshot's vendors one after another. */
  function RunTables(t: Tables, vendors: seq<VendorSummary>, g: Gateway, period: Period, now: int): Tables
  {
    if vendors == [] then t
    else VendorPayoutTables(RunTables(t, vendors[..|vendors| - 1], g, period, now), vendors[|vendors| - 1], g, period, now)
  }

  /** The results of processing a snapshot, in snapshot order. */
  function RunResults(vendors: seq<VendorSummary>, g: Gateway, period: Period): (rs: seq<VendorResult>)
    ensures |rs| == |vendors|
  {
    if vendors == [] then []
    else RunResults(vendors[..|vendors| - 1], g, period) + [VendorResultFor(vendors[|vendors| - 1], g, period)]
  }

  function SuccessCount(results: seq<VendorResult>): (n: nat)
    ensures n <= |results|
  {
    if results == [] then 0
    else SuccessCount(results[..|results| - 1]) + (if results[|results| - 1].success then 1 else 0)
  }

  /** Result k belongs to vendor k of the snapshot. */
  lemma {:induction false} RunResultsInOrder(vendors: seq<VendorSummary>, g: Gateway, period: Period, k: int)
    requires 0 <= k < |vendors|
    ensures RunResults(vendors, g, period)[k] == VendorResultFor(vendors[k], g, period)
    ensures RunResults(vendors, g, period)[k].vendorId == vendors[k].vendorId
  {
    if k < |vendors| - 1 {
      RunResultsInOrder(vendors[..|vendors| - 1], g, period, k);
    }
  }

  /** The number of payout rows of a vendor. */
  function PayoutCountOf(payouts: seq<PayoutRow>, vendorId: int): nat
  {
    if payouts == [] then 0
    else PayoutCountOf(payouts[..|payouts| - 1], vendorId) + (if payouts[|payouts| - 1].vendorId == vendorId then 1 else 0)
  }

  lemma {:induction false} PayoutCountAppend(a: seq<PayoutRow>, row: PayoutRow, vendorId: int)
    ensures PayoutCountOf(a + [row], vendorId) == PayoutCountOf(a, vendorId) + (if row.vendorId == vendorId then 1 else 0)
  {
    assert (a + [row])[..|a + [row]| - 1] == a;
  }

  /** One vendor's payout leaves every other vendor's pending total and payout rows as they were. */
  lemma StepKeepsOtherVendor(t: Tables, v: VendorSummary, g: Gateway, period: Period, now: int, w: int)
    requires v.vendorId != w
    ensures var t' := VendorPayoutTables(t, v, g, period, now);
            PendingTotal(t'.royalties, w) == PendingTotal(t.royalties, w)
            && PayoutCountOf(t'.payouts, w) == PayoutCountOf(t.payouts, w)
  {
    match AttemptFor(v, g, period).result
    case Failure(_) =>
    case Success(p) =>
      var row := PayoutRowFor(v, p, period);
      if g.recordOk(row) {
        MarkPaidKeepsOtherVendors(t.royalties, v.vendorId, p.payoutId, now, w);
        PayoutCountAppend(t.payouts, row, w);
      }
  }

  /** A vendor absent from the snapshot keeps its pending royalties and gets no payout row. */
  lemma {:induction false} RunKeepsAbsentVendor(t: Tables, vendors: seq<VendorSummary>, g: Gateway, period: Period, now: int, w: int)
    requires forall i :: 0 <= i < |vendors| ==> vendors[i].vendorId != w
    ensures var t' := RunTables(t, vendors, g, period, now);
            PendingTotal(t'.royalties, w) == PendingTotal(t.royalties, w)
            && PayoutCountOf(t'.payouts, w) == PayoutCountOf(t.payouts, w)
  {
    if vendors != [] {
      var n := |vendors|;
      RunKeepsAbsentVendor(t, vendors[..n - 1], g, period, now, w);
      StepKeepsOtherVendor(RunTables(t, vendors[..n - 1], g, period, now), vendors[n - 1], g, period, now, w);
    }
  }

  /**
   * A vendor whose payout failed (and who appears once in the snapshot) still has
   * all its royalties pending and no new payout row when the run ends.
   */
  lemma {:induction false} RunKeepsFailedVendor(t: Tables, vendors: seq<VendorSummary>, g: Gateway, period: Period, now: int, k: int)
    requires 0 <= k < |vendors|
    requires forall i :: 0 <= i < |vendors| && i != k ==> vendors[i].vendorId != vendors[k].vendorId
    requires !RunResults(vendors, g, period)[k].success
    ensures var t' := RunTables(t, vendors, g, period, now);
            PendingTotal(t'.royalties, vendors[k].vendorId) == PendingTotal(t.royalties, vendors[k].vendorId)
            && PayoutCountOf(t'.payouts, vendors[k].vendorId) == PayoutCountOf(t.payouts, vendors[k].vendorId)
  {
    var n := |vendors|;
    var w := vendors[k].vendorId;
    var init := vendors[..n - 1];
    RunResultsInOrder(vendors, g, period, k);
    var before := RunTables(t, init, g, period, now);
    if k == n - 1 {
      RunKeepsAbsentVendor(t, init, g, period, now, w);
      FailedPayoutTouchesNothing(before, vendors[k], g, period, now);
    } else {
      RunResultsInOrder(init, g, period, k);
      RunKeepsFailedVendor(t, init, g, period, now, k);
      StepKeepsOtherVendor(before, vendors[n - 1], g, period, now, w);
    }
  }

  /**
   * The loop of process_scheduled_payouts: pay each vendor of the snapshot in
   * turn, collecting the results and counting successes and failures.
   */
  method PayVendors(db: Database, vendors: seq<VendorSummary>, g: Gateway, period: Period, now: int)
    returns (results: seq<VendorResult>, processedCount: nat, failedCount: nat)
    modifies db
    ensures results == RunResults(vendors, g, period)
    ensures processedCount == SuccessCount(results) && processedCount + failedCount == |vendors|
    ensures Tables(db.royalties, db.payouts) == RunTables(Tables(old(db.royalties), old(db.payouts)), vendors, g, period, now)
  {
    processedCount, failedCount := 0, 0;
    results := [];
    var i := 0;
    while i < |vendors|
      invariant 0 <= i <= |vendors|
      invariant results == RunResults(vendors[..i], g, period)
      invariant processedCount == SuccessCount(results) && processedCount + failedCount == i
      invariant Tables(db.royalties, db.payouts) == RunTables(Tables(old(db.royalties), old(db.payouts)), vendors[..i], g, period, now)
    {
      var result := ProcessVendorPayout(db, vendors[i], g, period, now);
      results := results + [result];
      if result.success {
        processedCount := processedCount + 1;
      } else {
        failedCount := failedCount + 1;
      }
      assert vendors[..i + 1][..i] == vendors[..i];
      assert results[..|results| - 1] == RunResults(vendors[..i], g, period);
      i := i + 1;
    }
    assert vendors[..|vendors|] == vendors;
  }

  /** The completed batch: counts and results of the run, status completed. */
  function CompletedBatch(b: Batch, results: seq<VendorResult>, now: int): Batch
  {
    b.(status := Completed, processedCount := SuccessCount(results),
       failedCount := |results| - SuccessCount(results), results := results, completedAt := Some(now))
  }

  class Scheduler {
    /** libookin_pending_payout_batch */
    var pending: Option<Batch>
    /** libookin_completed_payout_batch */
    var completed: Option<Batch>
    /** libookin_cancelled_payout_batch */
    var cancelled: Option<Batch>

    /**
     * What the three slots can hold: a pending batch that is scheduled (or left
     * processing by an interrupted run) with its vendor count; a completed batch
     * whose counts add up to its vendors, one result each; a cancelled batch
     * with its cancellation time.
     */
    ghost predicate Valid()
      reads this
    {
      && (pending.Some? ==>
            (pending.value.status == Scheduled || pending.value.status == BatchStatus.Processing)
            && pending.value.vendorCount == |pending.value.vendors|)
      && (completed.Some? ==>
            completed.value.status == Completed
            && completed.value.processedCount + completed.value.failedCount == completed.value.vendorCount
            && completed.value.vendorCount == |completed.value.vendors| == |completed.value.results|)
      && (cancelled.Some? ==> cancelled.value.status == Cancelled && cancelled.value.cancelledAt.Some?)
    }

    constructor ()
      ensures Valid() && pending == None && completed == None && cancelled == None
    {
      pending, completed, cancelled := None, None, None;
    }

    /**
     * schedule_payout_batch: store the snapshot with its total, its count and a
     * processing time six hours on, as scheduled. Any pending batch is overwritten.
     */
    method ScheduleBatch(vendors: seq<VendorSummary>, now: int)
      requires Valid()
      modifies this
      ensures Valid()
      ensures pending == Some(NewBatch(vendors, now))
      ensures completed == old(completed) && cancelled == old(cancelled)
    {
      pending := Some(Batch(vendors, SumPending(vendors), |vendors|, now + ReviewDelaySeconds, Scheduled,
                            0, 0, [], None, None));
    }

    /**
     * process_scheduled_payouts: only a scheduled pending batch is processed; it
     * becomes processing, each vendor of its snapshot is paid in turn, and the
     * batch is stored as completed with its counts and results while the pending
     * slot is emptied.
     */
    method ProcessScheduledPayouts(db: Database, g: Gateway, period: Period, now: int)
      requires Valid()
      modifies this, db
      ensures Valid()
      ensures old(pending).None? || old(pending).value.status != Scheduled ==>
                pending == old(pending) && completed == old(completed) && cancelled == old(cancelled)
                && db.royalties == old(db.royalties) && db.payouts == old(db.payouts)
      ensures old(pending).Some? && old(pending).value.status == Scheduled ==>
                var b := old(pending).value;
                var results := RunResults(b.vendors, g, period);
                pending == None && cancelled == old(cancelled)
                && completed == Some(CompletedBatch(b.(status := BatchStatus.Processing), results, now))
                && Tables(db.royalties, db.payouts)
                   == RunTables(Tables(old(db.royalties), old(db.payouts)), b.vendors, g, period, now)
    {
      if pending.None? || pending.value.status != Scheduled {
        return;
      }
      var batch := pending.value.(status := BatchStatus.Processing);
      pending := Some(batch);

      var results, processedCount, failedCount := PayVendors(db, batch.vendors, g, period, now);
      completed := Some(batch.(status := Completed, processedCount := processedCount, failedCount := failedCount,
                               results := results, completedAt := Some(now)));
      pending := None;
    }

    /**
     * cancel_scheduled_batch: refuse unless the pending batch is scheduled;
     * otherwise store it as cancelled, empty the pending slot and report success.
     */
    method CancelScheduledBatch(now: int) returns (ok: bool)
      requires Valid()
      modifies this
      ensures Valid()
      ensures ok <==> old(pending).Some? && old(pending).value.status == Scheduled
      ensures !ok ==> pending == old(pending) && completed == old(completed) && cancelled == old(cancelled)
      ensures ok ==> pending == None && completed == old(completed)
                     && cancelled == Some(old(pending).value.(status := Cancelled, cancelledAt := Some(now)))
    {
      if pending.None? || pending.value.status != Scheduled {
        return false;
      }
      var batch := pending.value.(status := Cancelled, cancelledAt := Some(now));
      cancelled := Some(batch);
      pending := None;
      ok := true;
    }

    /**
     * check_and_process_payouts: on a payout day (is_payout_day as written),
     * schedule a batch of the eligible vendors when there are any. In a month
     * whose 1st is a Saturday or a Sunday nothing is ever scheduled.
     */
    method CheckAndProcessPayouts(today: Day, candidates: seq<VendorSummary>, secretKey: string,
                                  retrieve: string -> Result<Account, string>, now: int)
      requires Valid()
      modifies this
      ensures Valid()
      ensures completed == old(completed) && cancelled == old(cancelled)
      ensures var eligible := ReadyVendors(candidates, secretKey, retrieve);
              if IsPayoutDay(today) && eligible != [] then pending == Some(NewBatch(eligible, now))
              else pending == old(pending)
      ensures IsWeekend(ShiftWeekday(today.weekday, 1 - today.dayOfMonth)) ==> pending == old(pending)
    {
      WeekendFirstMeansNoPayoutDay(today);
      if !IsPayoutDay(today) {
        return;
      }
      var eligible := GetEligibleVendors(candidates, secretKey, retrieve);
      if eligible == [] {
        return;
      }
      ScheduleBatch(eligible, now);
    }

    /**
     * check_and_process_payouts with the corrected payout-day rule: the batch is
     * scheduled on the date get_next_payout_date announces for the month.
     */
    method CheckAndProcessPayoutsCorrected(today: Day, candidates: seq<VendorSummary>, secretKey: string,
                                           retrieve: string -> Result<Account, string>, now: int)
      requires Valid()
      modifies this
      ensures Valid()
      ensures completed == old(completed) && cancelled == old(cancelled)
      ensures var eligible := ReadyVendors(candidates, secretKey, retrieve);
              var first := ShiftWeekday(today.weekday, 1 - today.dayOfMonth);
              if today == NextPayoutDate(first) && eligible != [] then pending == Some(NewBatch(eligible, now))
              else pending == old(pending)
    {
      CorrectedRuleOnToday(today);
      if !IsPayoutDayCorrected(today) {
        return;
      }
      var eligible := GetEligibleVendors(candidates, secretKey, retrieve);
      if eligible == [] {
        return;
      }
      ScheduleBatch(eligible, now);
    }

    /**
     * ajax_trigger_manual_payout, past its permission checks: an error when no
     * vendor is eligible, otherwise a scheduled batch and its count and total.
     */
    method TriggerManualPayout(candidates: seq<VendorSummary>, secretKey: string,
                               retrieve: string -> Result<Account, string>, now: int)
      returns (r: Result<(nat, int), string>)
      requires Valid()
      modifies this
      ensures Valid()
      ensures completed == old(completed) && cancelled == old(cancelled)
      ensures var eligible := ReadyVendors(candidates, secretKey, retrieve);
              (eligible == [] ==> r == Failure("No vendors eligible for payout.") && pending == old(pending))
              && (eligible != [] ==> r == Success((|eligible|, SumPending(eligible)))
                                     && pending == Some(NewBatch(eligible, now)))
    {
      var eligible := GetEligibleVendors(candidates, secretKey, retrieve);
      if eligible == [] {
        return Failure("No vendors eligible for payout.");
      }
      ScheduleBatch(eligible, now);
      r := Success((|eligible|, SumPending(eligible)));
    }
  }

  /** Scheduling twice keeps only the second snapshot: the slot is not single-flight. */
  lemma RescheduleOverwrites(first: seq<VendorSummary>, second: seq<VendorSummary>, t1: int, t2: int)
    requires first != second
    ensures NewBatch(first, t1) != NewBatch(second, t2)
    ensures NewBatch(second, t2).status == Scheduled && NewBatch(second, t2).vendors == second
  {
  }

  /** A stored batch's total is the sum over its snapshot, whatever way the snapshot is split. */
  lemma {:induction false} SumPendingAppend(a: seq<VendorSummary>, b: seq<VendorSummary>)
    ensures SumPending(a + b) == SumPending(a) + SumPending(b)
  {
    if b == [] {
      assert a + b == a;
    } else {
      assert (a + b)[..|a + b| - 1] == a + b[..|b| - 1];
      SumPendingAppend(a, b[..|b| - 1]);
    }
  }

  /** Vendors each owed at least 15 EUR add up to at least 15 EUR per vendor. */
  lemma {:induction false} SumPendingAtLeast(vendors: seq<VendorSummary>)
    ensures (forall i :: 0 <= i < |vendors| ==> vendors[i].totalPending >= MinimumPayoutCents)
            ==> SumPending(vendors) >= MinimumPayoutCents * |vendors|
  {
    if vendors != [] {
      SumPendingAtLeast(vendors[..|vendors| - 1]);
    }
  }

  /** get_payout_preview: the eligible vendors, their count and total, and the next payout date. */
  datatype Preview = Preview(vendors: seq<VendorSummary>, vendorCount: nat, totalAmount: int, nextPayoutDate: Day)

  function PayoutPreview(candidates: seq<VendorSummary>, secretKey: string,
                         retrieve: string -> Result<Account, string>, nextFirst: Weekday): (p: Preview)
    ensures p.vendors == ReadyVendors(candidates, secretKey, retrieve)
    ensures p.nextPayoutDate == NextPayoutDate(nextFirst)
    ensures p.vendorCount == |p.vendors|
    ensures p.totalAmount == SumPending(p.vendors)
    ensures !IsWeekend(p.nextPayoutDate.weekday)
    ensures forall s :: s in p.vendors <==> s in candidates && PayoutReady(secretKey, retrieve, s)
  {
    var eligible := ReadyVendors(candidates, secretKey, retrieve);
    forall s ensures s in eligible <==> s in candidates && PayoutReady(secretKey, retrieve, s) {
      ReadyVendorsExact(candidates, secretKey, retrieve, s);
    }
    Preview(eligible, |eligible|, SumPending(eligible), NextPayoutDate(nextFirst))
  }
}
