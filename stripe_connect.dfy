/**
 * The local logic of Libookin_Stripe_Connect_Manager once the Stripe SDK is
 * taken out: the verification classifier, the guards of create_payout, the EUR
 * pick of get_account_balance, and the two ledger operations
 * get_vendor_pending_royalties and mark_royalties_as_paid.
 *
 * Every remote call is an oracle parameter: the value \Stripe\Account::retrieve,
 * \Stripe\Balance::retrieve or \Stripe\Payout::create would return, or the
 * message of the ApiErrorException it would throw.
 */
module StripeConnect {
  import opened Wrappers
  import opened Money
  import opened Ledger

  /** The minimum payout, 15 EUR, in cents. */
  const MinimumPayoutCents: int := 1500

  /** The WP_Error codes of the manager. */
  datatype GatewayError = StripeNotConfigured | MinimumAmount | StripeError(message: string)

  // ----- Account verification -----

  /** The fields of a \Stripe\Account that the manager reads; currentlyDue is empty when unset. */
  datatype Account = Account(chargesEnabled: bool, payoutsEnabled: bool, detailsSubmitted: bool,
                             currentlyDue: seq<string>)

  datatype Verification = Verified | PendingVerification | RequiresInformation | Created

  /** get_verification_status: the first label whose condition holds, in priority order. */
  function VerificationStatus(a: Account): (v: Verification)
    ensures v == Verified <==> a.chargesEnabled && a.payoutsEnabled
    ensures v == PendingVerification <==> !(a.chargesEnabled && a.payoutsEnabled) && a.detailsSubmitted
    ensures v == RequiresInformation <==>
              !(a.chargesEnabled && a.payoutsEnabled) && !a.detailsSubmitted && a.currentlyDue != []
    ensures v == Created <==>
              !(a.chargesEnabled && a.payoutsEnabled) && !a.detailsSubmitted && a.currentlyDue == []
  {
    if a.chargesEnabled && a.payoutsEnabled then Verified
    else if a.detailsSubmitted then PendingVerification
    else if a.currentlyDue != [] then RequiresInformation
    else Created
  }

  /** Outstanding requirements change the label only of an account that has submitted nothing. */
  lemma RequirementsMatterOnlyBeforeSubmission(a: Account, due: seq<string>)
    requires a.detailsSubmitted || (a.chargesEnabled && a.payoutsEnabled)
    ensures VerificationStatus(a.(currentlyDue := due)) == VerificationStatus(a)
  {
  }

  /** What get_account_status returns on success. */
  datatype AccountStatus = AccountStatus(chargesEnabled: bool, payoutsEnabled: bool, detailsSubmitted: bool,
                                         requirements: seq<string>, verification: Verification)

  /** get_account_status: the key check, then the retrieved account or the processor's error. */
  function GetAccountStatus(secretKey: string, retrieved: Result<Account, string>): (r: Result<AccountStatus, GatewayError>)
    ensures secretKey == "" ==> r == Failure(StripeNotConfigured)
    ensures secretKey != "" && retrieved.Failure? ==> r == Failure(StripeError(retrieved.error))
    ensures secretKey != "" && retrieved.Success? ==>
              r.Success? && r.value.chargesEnabled == retrieved.value.chargesEnabled
              && r.value.payoutsEnabled == retrieved.value.payoutsEnabled
              && r.value.detailsSubmitted == retrieved.value.detailsSubmitted
              && r.value.requirements == retrieved.value.currentlyDue
              && r.value.verification == VerificationStatus(retrieved.value)
  {
    if secretKey == "" then Failure(StripeNotConfigured)
    else match retrieved
      case Failure(message) => Failure(StripeError(message))
      case Success(a) =>
        Success(AccountStatus(a.chargesEnabled, a.payoutsEnabled, a.detailsSubmitted, a.currentlyDue,
                              VerificationStatus(a)))
  }

  // ----- Balance -----

  /** One entry of a balance list: a currency code and an amount in minor units (cents). */
  datatype BalanceEntry = BalanceEntry(currency: string, amount: int)

  datatype Balance = Balance(available: seq<BalanceEntry>, pending: seq<BalanceEntry>)

  /** The reported balance in cents (the source divides by 100 to report euros). */
  datatype BalanceSummary = BalanceSummary(available: int, pending: int, currency: string)

  /** amount is the amount of the first "eur" entry, or 0 when there is none. */
  predicate IsFirstEurAmount(entries: seq<BalanceEntry>, amount: int)
  {
    (exists i :: 0 <= i < |entries| && entries[i].currency == "eur" && amount == entries[i].amount
                 && forall j :: 0 <= j < i ==> entries[j].currency != "eur")
    || ((forall i :: 0 <= i < |entries| ==> entries[i].currency != "eur") && amount == 0)
  }

  /** The first-EUR rule determines the amount. */
  lemma FirstEurAmountUnique(entries: seq<BalanceEntry>, a: int, b: int)
    requires IsFirstEurAmount(entries, a) && IsFirstEurAmount(entries, b)
    ensures a == b
  {
    if i :| 0 <= i < |entries| && entries[i].currency == "eur" && a == entries[i].amount
            && forall j :: 0 <= j < i ==> entries[j].currency != "eur" {
      var k :| 0 <= k < |entries| && entries[k].currency == "eur" && b == entries[k].amount
               && forall j :: 0 <= j < k ==> entries[j].currency != "eur";
      assert !(k < i) && !(i < k);
    }
  }

  /**
   * get_account_balance: the key check, then the amount of the first "eur" entry
   * of each list (the loops stop at the first match), 0 for a list without one.
   */
  method GetAccountBalance(secretKey: string, retrieved: Result<Balance, string>)
    returns (r: Result<BalanceSummary, GatewayError>)
    ensures secretKey == "" ==> r == Failure(StripeNotConfigured)
    ensures secretKey != "" && retrieved.Failure? ==> r == Failure(StripeError(retrieved.error))
    ensures secretKey != "" && retrieved.Success? ==>
              r.Success? && r.value.currency == "EUR"
              && IsFirstEurAmount(retrieved.value.available, r.value.available)
              && IsFirstEurAmount(retrieved.value.pending, r.value.pending)
  {
    if secretKey == "" {
      return Failure(StripeNotConfigured);
    }
    if retrieved.Failure? {
      return Failure(StripeError(retrieved.error));
    }
    var balance := retrieved.value;
    var availableAmount := 0;
    var pendingAmount := 0;

    var i := 0;
    while i < |balance.available|
      invariant 0 <= i <= |balance.available|
      invariant forall j :: 0 <= j < i ==> balance.available[j].currency != "eur"
      invariant availableAmount == 0
    {
      if balance.available[i].currency == "eur" {
        availableAmount := balance.available[i].amount;
        break;
      }
      i := i + 1;
    }

    var k := 0;
    while k < |balance.pending|
      invariant 0 <= k <= |balance.pending|
      invariant forall j :: 0 <= j < k ==> balance.pending[j].currency != "eur"
      invariant pendingAmount == 0
    {
      if balance.pending[k].currency == "eur" {
        pendingAmount := balance.pending[k].amount;
        break;
      }
      k := k + 1;
    }

    r := Success(BalanceSummary(availableAmount, pendingAmount, "EUR"));
  }

  // ----- Payouts -----

  /** The metadata create_payout forwards. */
  datatype PayoutMetadata = PayoutMetadata(vendorId: int, periodStart: int, periodEnd: int, royaltyCount: int)

  /** The request sent to \Stripe\Payout::create: an amount in cents. */
  datatype PayoutCall = PayoutCall(accountId: string, amount: int, currency: string, metadata: PayoutMetadata)

  /** The processor's answer to a payout request. */
  datatype RemotePayout = RemotePayout(payoutId: string, status: string, arrivalDate: int)

  /** create_payout's success value; amount is the amount asked for, in sub-cents. */
  datatype Payout = Payout(payoutId: string, amount: int, status: string, arrivalDate: int)

  /** A call of create_payout: the request it sent, if any, and what it returned. */
  datatype PayoutAttempt = PayoutAttempt(sent: Option<PayoutCall>, result: Result<Payout, GatewayError>)

  /**
   * create_payout(account, amount, metadata) with the amount in sub-cents: no
   * key, then below 15 EUR, are refused before any request; otherwise the amount
   * times 100 truncated to whole cents is sent and the processor's answer returned.
   */
  function CreatePayout(secretKey: string, accountId: string, amount: int, metadata: PayoutMetadata,
                        processor: PayoutCall -> Result<RemotePayout, string>): (r: PayoutAttempt)
    ensures secretKey == "" ==> r == PayoutAttempt(None, Failure(StripeNotConfigured))
    ensures secretKey != "" && amount < ToSub(MinimumPayoutCents) ==> r == PayoutAttempt(None, Failure(MinimumAmount))
    ensures secretKey != "" && amount >= ToSub(MinimumPayoutCents) ==>
              r.sent == Some(PayoutCall(accountId, TruncDiv(amount, SubPerCent), "eur", metadata))
              && r.sent.value.amount >= MinimumPayoutCents
              && (processor(r.sent.value).Failure? ==> r.result == Failure(StripeError(processor(r.sent.value).error)))
              && (processor(r.sent.value).Success? ==>
                    r.result == Success(Payout(processor(r.sent.value).value.payoutId, amount,
                                               processor(r.sent.value).value.status,
                                               processor(r.sent.value).value.arrivalDate)))
  {
    if secretKey == "" then PayoutAttempt(None, Failure(StripeNotConfigured))
    else if amount < ToSub(MinimumPayoutCents) then PayoutAttempt(None, Failure(MinimumAmount))
    else
      var call := PayoutCall(accountId, TruncDiv(amount, SubPerCent), "eur", metadata);
      match processor(call)
      case Failure(message) => PayoutAttempt(Some(call), Failure(StripeError(message)))
      case Success(p) => PayoutAttempt(Some(call), Success(Payout(p.payoutId, amount, p.status, p.arrivalDate)))
  }

  /** With the amount held exactly, a whole-cent amount reaches the processor unchanged. */
  lemma CentAmountSentExactly(secretKey: string, accountId: string, cents: int, metadata: PayoutMetadata,
                              processor: PayoutCall -> Result<RemotePayout, string>)
    requires secretKey != "" && cents >= MinimumPayoutCents
    ensures CreatePayout(secretKey, accountId, ToSub(cents), metadata, processor).sent.value.amount == cents
  {
    TruncExact(cents, SubPerCent);
  }

  // ----- The royalty ledger -----

  /** get_vendor_pending_royalties: the sum of royalty_amount over the vendor's pending rows. */
  function PendingTotal(rows: seq<RoyaltyRow>, vendorId: int): (total: int)
    ensures (forall i :: 0 <= i < |rows| ==> rows[i].royaltyAmount >= 0) ==> total >= 0
  {
    if rows == [] then 0
    else
      var last := rows[|rows| - 1];
      PendingTotal(rows[..|rows| - 1], vendorId)
      + (if last.vendorId == vendorId && last.status == Pending then last.royaltyAmount else 0)
  }

  /** The number of rows mark_royalties_as_paid would update for the vendor. */
  function PendingCount(rows: seq<RoyaltyRow>, vendorId: int): (n: nat)
    ensures n <= |rows|
  {
    if rows == [] then 0
    else
      var last := rows[|rows| - 1];
      PendingCount(rows[..|rows| - 1], vendorId) + (if last.vendorId == vendorId && last.status == Pending then 1 else 0)
  }

  /** A vendor without pending rows has nothing pending. */
  lemma {:induction false} PendingTotalWithoutPendingRows(rows: seq<RoyaltyRow>, vendorId: int)
    requires forall i :: 0 <= i < |rows| ==> rows[i].vendorId != vendorId || rows[i].status != Pending
    ensures PendingTotal(rows, vendorId) == 0 && PendingCount(rows, vendorId) == 0
  {
    if rows != [] {
      PendingTotalWithoutPendingRows(rows[..|rows| - 1], vendorId);
    }
  }

  /** The pending total of a ledger is the sum over any split of it. */
  lemma {:induction false} PendingTotalAppend(a: seq<RoyaltyRow>, b: seq<RoyaltyRow>, vendorId: int)
    ensures PendingTotal(a + b, vendorId) == PendingTotal(a, vendorId) + PendingTotal(b, vendorId)
    ensures PendingCount(a + b, vendorId) == PendingCount(a, vendorId) + PendingCount(b, vendorId)
  {
    if b == [] {
      assert a + b == a;
    } else {
      assert (a + b)[..|a + b| - 1] == a + b[..|b| - 1];
      PendingTotalAppend(a, b[..|b| - 1], vendorId);
    }
  }

  /** One row under mark_royalties_as_paid. */
  function SettleRow(row: RoyaltyRow, vendorId: int, payoutId: string, now: int): RoyaltyRow
  {
    if row.vendorId == vendorId && row.status == Pending
    then row.(status := Paid, stripePayoutId := Some(payoutId), payoutDate := Some(now))
    else row
  }

  /** The ledger after UPDATE ... SET paid WHERE vendor_id = vendor AND payout_status = 'pending'. */
  function MarkPaid(rows: seq<RoyaltyRow>, vendorId: int, payoutId: string, now: int): (r: seq<RoyaltyRow>)
    ensures |r| == |rows|
    ensures forall i :: 0 <= i < |r| ==>
              r[i].vendorId == rows[i].vendorId && r[i].royaltyAmount == rows[i].royaltyAmount
              && r[i].orderId == rows[i].orderId && r[i].createdAt == rows[i].createdAt
              && (r[i].vendorId == vendorId ==> r[i].status != Pending)
  {
    seq(|rows|, i requires 0 <= i < |rows| => SettleRow(rows[i], vendorId, payoutId, now))
  }

  /**
   * mark_royalties_as_paid: every pending row of the vendor becomes paid with the
   * payout id and date; the period arguments take no part.
   */
  method MarkRoyaltiesAsPaid(db: Database, vendorId: int, payoutId: string, periodStart: int, periodEnd: int, now: int)
    modifies db
    ensures db.royalties == MarkPaid(old(db.royalties), vendorId, payoutId, now)
    ensures db.payouts == old(db.payouts)
  {
    var rows := db.royalties;
    var i := 0;
    while i < |rows|
      invariant 0 <= i <= |rows| == |old(db.royalties)|
      invariant forall k :: 0 <= k < i ==> rows[k] == SettleRow(old(db.royalties)[k], vendorId, payoutId, now)
      invariant forall k :: i <= k < |rows| ==> rows[k] == old(db.royalties)[k]
      invariant db.royalties == old(db.royalties) && db.payouts == old(db.payouts)
    {
      if rows[i].vendorId == vendorId && rows[i].status == Pending {
        rows := rows[i := rows[i].(status := Paid, stripePayoutId := Some(payoutId), payoutDate := Some(now))];
      }
      i := i + 1;
    }
    db.royalties := rows;
  }

  /**
   * Row i changes exactly when it is the vendor's and pending; a changed row is
   * paid with the payout id and date and keeps every other column.
   */
  lemma MarkPaidChangesOnlyPendingOfVendor(rows: seq<RoyaltyRow>, vendorId: int, payoutId: string, now: int, i: int)
    requires 0 <= i < |rows|
    ensures |MarkPaid(rows, vendorId, payoutId, now)| == |rows|
    ensures var r := MarkPaid(rows, vendorId, payoutId, now)[i];
            (r != rows[i] <==> rows[i].vendorId == vendorId && rows[i].status == Pending)
            && (r != rows[i] ==> r.status == Paid && r.stripePayoutId == Some(payoutId) && r.payoutDate == Some(now)
                                 && r == rows[i].(status := Paid, stripePayoutId := Some(payoutId), payoutDate := Some(now)))
  {
  }

  /** A second call for the same vendor changes nothing, whatever payout id and date it carries. */
  lemma MarkPaidIdempotent(rows: seq<RoyaltyRow>, vendorId: int, p: string, t: int, p2: string, t2: int)
    ensures MarkPaid(MarkPaid(rows, vendorId, p, t), vendorId, p2, t2) == MarkPaid(rows, vendorId, p, t)
  {
  }

  /** After the update the vendor has nothing pending, and no row for a second call to update. */
  lemma MarkPaidClearsPending(rows: seq<RoyaltyRow>, vendorId: int, payoutId: string, now: int)
    ensures PendingTotal(MarkPaid(rows, vendorId, payoutId, now), vendorId) == 0
    ensures PendingCount(MarkPaid(rows, vendorId, payoutId, now), vendorId) == 0
  {
    PendingTotalWithoutPendingRows(MarkPaid(rows, vendorId, payoutId, now), vendorId);
  }

  /** Other vendors' pending totals are untouched. */
  lemma {:induction false} MarkPaidKeepsOtherVendors(rows: seq<RoyaltyRow>, vendorId: int, payoutId: string, now: int, other: int)
    requires other != vendorId
    ensures PendingTotal(MarkPaid(rows, vendorId, payoutId, now), other) == PendingTotal(rows, other)
    ensures PendingCount(MarkPaid(rows, vendorId, payoutId, now), other) == PendingCount(rows, other)
  {
    if rows != [] {
      var init := rows[..|rows| - 1];
      assert MarkPaid(rows, vendorId, payoutId, now)[..|rows| - 1] == MarkPaid(init, vendorId, payoutId, now);
      MarkPaidKeepsOtherVendors(init, vendorId, payoutId, now, other);
    }
  }
}
