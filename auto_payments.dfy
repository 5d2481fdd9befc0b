/**
 * The royalty calculator and the per-item ledger append of
 * Libookin_Auto_Payments (calculate_royalty_percentage and
 * process_royalties_immediate).
 *
 * Prices enter in cents. After the promo the tax-exclusive price is kept exactly
 * in sub-cents (hundredths of a cent): a cent price times a whole-percent factor
 * (100 - d) / 100 is a whole number of sub-cents. The royalty price * percent / 100
 * is exact as price * percent millionths of a euro. The two DECIMAL(10,2) columns
 * store those values rounded to the cent.
 */
module AutoPayments {
  import opened Wrappers
  import opened Money
  import opened Ledger

  /** A product's promo meta: _libookin_promo_discount and _libookin_promo_end_date (a day number, None when unset). */
  datatype Promo = Promo(discount: int, endDate: Option<int>)

  /** One order line: the product, its author (the vendor) and its tax-exclusive price in cents. */
  datatype OrderItem = OrderItem(productId: int, vendorId: int, priceHt: int, promo: Promo)

  /** A completed order as wc_get_order returns it. */
  datatype Order = Order(items: seq<OrderItem>)

  /** The royalty brackets' lower bounds, in cents. */
  const Tier75From: int := 283
  const Tier80From: int := 473
  const Tier70From: int := 947
  const Tier50From: int := 1421

  /** The promo applies when the discount is positive, an end date is set and today is not after it. */
  predicate PromoActive(promo: Promo, today: int)
  {
    promo.discount > 0 && promo.endDate.Some? && today <= promo.endDate.value
  }

  /** The tax-exclusive price after the promo, in sub-cents. */
  function DiscountedPrice(priceHt: int, promo: Promo, today: int): (r: int)
    ensures !PromoActive(promo, today) ==> r == ToSub(priceHt)
    ensures PromoActive(promo, today) ==> r + priceHt * promo.discount == ToSub(priceHt)
  {
    if PromoActive(promo, today) then priceHt * (100 - promo.discount) else ToSub(priceHt)
  }

  /** calculate_royalty_percentage: the royalty percent of a price in sub-cents. */
  function RoyaltyPercentage(price: int): (pct: int)
    ensures pct in {50, 70, 75, 80}
  {
    if price < ToSub(Tier75From) then 50
    else if price < ToSub(Tier80From) then 75
    else if price < ToSub(Tier70From) then 80
    else if price < ToSub(Tier50From) then 70
    else 50
  }

  /** The ledger row written for one order item. */
  function RoyaltyRowFor(item: OrderItem, orderId: int, today: int, now: int): (row: RoyaltyRow)
    ensures row.orderId == orderId && row.productId == item.productId && row.vendorId == item.vendorId
    ensures row.status == Pending && row.stripePayoutId.None? && row.payoutDate.None? && row.createdAt == now
    ensures row.royaltyPercent in {50, 70, 75, 80}
    ensures row.royaltyPercent == RoyaltyPercentage(DiscountedPrice(item.priceHt, item.promo, today))
  {
    var price := DiscountedPrice(item.priceHt, item.promo, today);
    var pct := RoyaltyPercentage(price);
    RoyaltyRow(orderId, item.productId, item.vendorId,
               RoundHalfAway(price, SubPerCent), pct,
               RoundHalfAway(price * pct, SubPerCent * SubPerCent),
               Pending, None, None, now)
  }

  /** The rows written for the items of one order, in item order. */
  function RoyaltyRows(items: seq<OrderItem>, orderId: int, today: int, now: int): seq<RoyaltyRow>
  {
    if items == [] then []
    else RoyaltyRows(items[..|items| - 1], orderId, today, now)
         + [RoyaltyRowFor(items[|items| - 1], orderId, today, now)]
  }

  /**
   * process_royalties_immediate: for each item of the order, apply the promo,
   * pick the percent from the discounted price and append one pending row.
   * A missing order writes nothing.
   */
  method ProcessRoyaltiesImmediate(db: Database, orderId: int, order: Option<Order>, today: int, now: int)
    modifies db
    ensures order.None? ==> db.royalties == old(db.royalties)
    ensures order.Some? ==> db.royalties == old(db.royalties) + RoyaltyRows(order.value.items, orderId, today, now)
    ensures db.payouts == old(db.payouts)
  {
    if order.None? {
      return;
    }
    var items := order.value.items;
    var i := 0;
    while i < |items|
      invariant 0 <= i <= |items|
      invariant db.royalties == old(db.royalties) + RoyaltyRows(items[..i], orderId, today, now)
      invariant db.payouts == old(db.payouts)
    {
      var item := items[i];
      var priceHt := ToSub(item.priceHt);
      if item.promo.discount > 0 && item.promo.endDate.Some? && today <= item.promo.endDate.value {
        priceHt := item.priceHt * (100 - item.promo.discount);
      }
      var percent := RoyaltyPercentage(priceHt);
      var amount := priceHt * percent;
      db.InsertRoyalty(RoyaltyRow(orderId, item.productId, item.vendorId,
                                  RoundHalfAway(priceHt, SubPerCent), percent,
                                  RoundHalfAway(amount, SubPerCent * SubPerCent),
                                  Pending, None, None, now));
      assert items[..i + 1][..i] == items[..i];
      i := i + 1;
    }
    assert items[..|items|] == items;
  }

  // ----- The brackets as a table -----

  /** A half-open price bracket [lower, upper) in sub-cents; None is unbounded. */
  datatype Bracket = Bracket(lower: Option<int>, upper: Option<int>, percent: int)

  const Brackets: seq<Bracket> := [
    Bracket(None, Some(ToSub(Tier75From)), 50),
    Bracket(Some(ToSub(Tier75From)), Some(ToSub(Tier80From)), 75),
    Bracket(Some(ToSub(Tier80From)), Some(ToSub(Tier70From)), 80),
    Bracket(Some(ToSub(Tier70From)), Some(ToSub(Tier50From)), 70),
    Bracket(Some(ToSub(Tier50From)), None, 50)
  ]

  predicate InBracket(price: int, b: Bracket)
  {
    (b.lower.None? || b.lower.value <= price) && (b.upper.None? || price < b.upper.value)
  }

  /** Every price lies in exactly one bracket, and the percent is that bracket's. */
  lemma PercentageIsBracketPercent(price: int)
    ensures exists i :: 0 <= i < |Brackets| && InBracket(price, Brackets[i])
                        && RoyaltyPercentage(price) == Brackets[i].percent
    ensures forall i, j ::
              (0 <= i < |Brackets| && 0 <= j < |Brackets| &&
               InBracket(price, Brackets[i]) && InBracket(price, Brackets[j])) ==> i == j
  {
    var i := if price < ToSub(Tier75From) then 0
             else if price < ToSub(Tier80From) then 1
             else if price < ToSub(Tier70From) then 2
             else if price < ToSub(Tier50From) then 3
             else 4;
    assert InBracket(price, Brackets[i]) && RoyaltyPercentage(price) == Brackets[i].percent;
  }

  /** Each bound belongs to the bracket that starts at it; one sub-cent below is the bracket before. */
  lemma TierBoundaries()
    ensures RoyaltyPercentage(ToSub(283) - 1) == 50 && RoyaltyPercentage(ToSub(283)) == 75
    ensures RoyaltyPercentage(ToSub(473) - 1) == 75 && RoyaltyPercentage(ToSub(473)) == 80
    ensures RoyaltyPercentage(ToSub(947) - 1) == 80 && RoyaltyPercentage(ToSub(947)) == 70
    ensures RoyaltyPercentage(ToSub(1421) - 1) == 70 && RoyaltyPercentage(ToSub(1421)) == 50
    ensures RoyaltyPercentage(ToSub(282)) == 50 && RoyaltyPercentage(ToSub(472)) == 75
    ensures RoyaltyPercentage(ToSub(946)) == 80 && RoyaltyPercentage(ToSub(1420)) == 70
  {
  }

  /** 50 percent is paid exactly below 2.83 and from 14.21 on. */
  lemma HalfRoyaltyIff(price: int)
    ensures RoyaltyPercentage(price) == 50 <==> price < ToSub(Tier75From) || price >= ToSub(Tier50From)
  {
  }

  // ----- The promo -----

  /** Without an active promo the price is unchanged. */
  lemma InactivePromoKeepsPrice(priceHt: int, promo: Promo, today: int)
    requires promo.discount <= 0 || promo.endDate.None? || today > promo.endDate.value
    ensures DiscountedPrice(priceHt, promo, today) == ToSub(priceHt)
  {
  }

  /** A discount within 0..100 keeps the price between 0 and the list price. */
  lemma DiscountBounds(priceHt: int, promo: Promo, today: int)
    requires priceHt >= 0 && 0 <= promo.discount <= 100
    ensures 0 <= DiscountedPrice(priceHt, promo, today) <= ToSub(priceHt)
  {
    if PromoActive(promo, today) {
      MulNonneg(priceHt, 100 - promo.discount);
      MulNonneg(priceHt, promo.discount);
    }
  }

  /** For a positive price, the promo lowers the price exactly when it is active. */
  lemma DiscountLowersIff(priceHt: int, promo: Promo, today: int)
    requires priceHt > 0
    ensures DiscountedPrice(priceHt, promo, today) < ToSub(priceHt) <==> PromoActive(promo, today)
  {
    if PromoActive(promo, today) {
      MulPos(priceHt, promo.discount);
    }
  }

  /** A zero (or negative) discount writes the same row as a product with no promo at all. */
  lemma ZeroDiscountIsNoPromo(item: OrderItem, orderId: int, today: int, now: int)
    requires item.promo.discount <= 0
    ensures RoyaltyRowFor(item, orderId, today, now)
            == RoyaltyRowFor(item.(promo := Promo(0, None)), orderId, today, now)
  {
  }

  /** The tier is read from the discounted price: a 3.00 book at 10 percent off earns 50, not 75. */
  lemma TierFollowsDiscountedPrice()
    ensures RoyaltyPercentage(ToSub(300)) == 75
    ensures RoyaltyRowFor(OrderItem(1, 2, 300, Promo(10, Some(20))), 3, 20, 0).royaltyPercent == 50
    ensures RoyaltyRowFor(OrderItem(1, 2, 300, Promo(10, Some(20))), 3, 20, 0).priceHt == 270
  {
  }

  // ----- The royalty amount -----

  /**
   * For a non-negative price the royalty lies between 0 and the price, both
   * exactly and after rounding to the cent.
   */
  lemma RoyaltyWithinPrice(price: int)
    requires price >= 0
    ensures 0 <= price * RoyaltyPercentage(price) <= price * 100
    ensures 0 <= RoundHalfAway(price * RoyaltyPercentage(price), SubPerCent * SubPerCent)
               <= RoundHalfAway(price, SubPerCent)
  {
    var pct := RoyaltyPercentage(price);
    MulNonneg(price, pct);
    MulNonneg(price, 100 - pct);
    RoundMonotone(price * pct, price * 100, SubPerCent * SubPerCent);
    assert RoundHalfAway(price * 100, SubPerCent * SubPerCent) == RoundHalfAway(price, SubPerCent) by {
      RoundScaled(price, SubPerCent, 100);
    }
  }

  // ----- The rows -----

  /** Exactly one row per item: row k is item k's, pending, with its royalty within its price. */
  lemma {:induction false} RowsPerItem(items: seq<OrderItem>, orderId: int, today: int, now: int, k: int)
    requires 0 <= k < |items|
    ensures |RoyaltyRows(items, orderId, today, now)| == |items|
    ensures RoyaltyRows(items, orderId, today, now)[k] == RoyaltyRowFor(items[k], orderId, today, now)
    ensures RoyaltyRows(items, orderId, today, now)[k].status == Pending
    ensures RoyaltyRows(items, orderId, today, now)[k].vendorId == items[k].vendorId
  {
    RowsLength(items, orderId, today, now);
    if k < |items| - 1 {
      var init := items[..|items| - 1];
      RowsPerItem(init, orderId, today, now, k);
      assert init[k] == items[k];
    }
  }

  lemma {:induction false} RowsLength(items: seq<OrderItem>, orderId: int, today: int, now: int)
    ensures |RoyaltyRows(items, orderId, today, now)| == |items|
  {
    if items != [] {
      RowsLength(items[..|items| - 1], orderId, today, now);
    }
  }

  /** A written row's royalty lies between 0 and its stored price, for a sane price and discount. */
  lemma RowRoyaltyWithinPrice(item: OrderItem, orderId: int, today: int, now: int)
    requires item.priceHt >= 0 && 0 <= item.promo.discount <= 100
    ensures var row := RoyaltyRowFor(item, orderId, today, now);
            0 <= row.royaltyAmount <= row.priceHt && row.royaltyPercent in {50, 70, 75, 80}
  {
    DiscountBounds(item.priceHt, item.promo, today);
    RoyaltyWithinPrice(DiscountedPrice(item.priceHt, item.promo, today));
  }
}
