/**
 * The two tables the plugin creates (create_tables): the royalty ledger
 * (libookin_royalties) and the payout history (libookin_payouts). Amounts are
 * euro cents, as the DECIMAL(10,2) columns hold them; times are timestamps.
 */
module Ledger {
  import opened Wrappers

  /** payout_status ENUM('pending', 'processing', 'paid', 'failed'). */
  datatype PayoutStatus = Pending | Processing | Paid | Failed

  /** One royalty row: one sold order item. */
  datatype RoyaltyRow = RoyaltyRow(
    orderId: int,
    productId: int,
    vendorId: int,
    priceHt: int,            // cents
    royaltyPercent: int,
    royaltyAmount: int,      // cents
    status: PayoutStatus,
    stripePayoutId: Option<string>,
    payoutDate: Option<int>,
    createdAt: int)

  /** One payout row: a payout the processor confirmed. */
  datatype PayoutRow = PayoutRow(
    vendorId: int,
    amount: int,             // cents
    currency: string,
    stripePayoutId: string,
    stripeAccountId: string,
    status: string,
    periodStart: int,
    periodEnd: int)

  /** The database: both tables, in insertion order. */
  class Database {
    var royalties: seq<RoyaltyRow>
    var payouts: seq<PayoutRow>

    constructor ()
      ensures royalties == [] && payouts == []
    {
      royalties := [];
      payouts := [];
    }

    /** $wpdb->insert into the royalty table. */
    method InsertRoyalty(row: RoyaltyRow)
      modifies this
      ensures royalties == old(royalties) + [row]
      ensures payouts == old(payouts)
    {
      royalties := royalties + [row];
    }

    /**
     * $wpdb->insert into the payout table. Whether the write succeeds is decided
     * by the database, given here as ok; a failed insert leaves the table as it was.
     */
    method InsertPayout(row: PayoutRow, ok: bool) returns (inserted: bool)
      modifies this
      ensures inserted == ok
      ensures payouts == if ok then old(payouts) + [row] else old(payouts)
      ensures royalties == old(royalties)
    {
      if ok {
        payouts := payouts + [row];
      }
      inserted := ok;
    }
  }
}
