/**
 * The catalogue-side helpers of functions.php: the minimum product price rule
 * and the admin royalty summary, which recomputes VAT, card fee and net margin
 * for each ledger row and adds them up, overall and per month.
 */
module RoyaltySummary {
  import opened Money
  import opened Ledger

  // ----- Minimum product price -----

  /** The lowest price a product may have, in cents. */
  const MinimumPriceCents: int := 99

  /** A single price passes when it is unset (zero) or at least the minimum. Cents. */
  predicate PriceAccepted(price: int)
  {
    price == 0 || price >= MinimumPriceCents
  }

  /** A product is refused when either of its prices is set (non-zero) and below the minimum. Cents. */
  predicate ViolatesMinimum(regularPrice: int, salePrice: int)
    ensures !ViolatesMinimum(regularPrice, salePrice) <==> PriceAccepted(regularPrice) && PriceAccepted(salePrice)
  {
    (regularPrice != 0 && regularPrice < MinimumPriceCents) || (salePrice != 0 && salePrice < MinimumPriceCents)
  }

  /** Unset prices and prices from 0.99 up pass; a set price below 0.99 is refused. */
  lemma MinimumPriceBoundary(regularPrice: int, salePrice: int)
    ensures (regularPrice == 0 || regularPrice >= 99) && (salePrice == 0 || salePrice >= 99)
            ==> !ViolatesMinimum(regularPrice, salePrice)
    ensures (regularPrice != 0 && regularPrice < 99) || (salePrice != 0 && salePrice < 99)
            ==> ViolatesMinimum(regularPrice, salePrice)
    ensures !ViolatesMinimum(99, 99) && !ViolatesMinimum(0, 0) && ViolatesMinimum(98, 0) && ViolatesMinimum(0, 98)
  {
  }

  /** A product as the price check sees it: its two prices (cents) and its status. */
  class Product {
    var regularPrice: int
    var salePrice: int
    var status: string

    constructor (regularPrice: int, salePrice: int, status: string)
      ensures this.regularPrice == regularPrice && this.salePrice == salePrice && this.status == status
    {
      this.regularPrice := regularPrice;
      this.salePrice := salePrice;
      this.status := status;
    }
  }

  /** What the price check does: nothing to check, accept, or refuse (with an admin error, or by stopping the request). */
  datatype PriceCheck = NotAProduct | Accepted | RejectedInAdmin(error: string) | Aborted(message: string)

  /**
   * my_minimum_product_price_check: in the admin, a refused product gets an
   * error notice and is forced back to draft; elsewhere the request stops
   * (wp_die) before the status is touched.
   */
  method MinimumProductPriceCheck(product: Product?, isAdmin: bool) returns (outcome: PriceCheck)
    modifies product
    ensures product == null ==> outcome == NotAProduct
    ensures product != null ==>
              (outcome == Accepted <==> !ViolatesMinimum(old(product.regularPrice), old(product.salePrice)))
              && (outcome.RejectedInAdmin? <==> isAdmin && ViolatesMinimum(old(product.regularPrice), old(product.salePrice)))
              && (outcome.Aborted? <==> !isAdmin && ViolatesMinimum(old(product.regularPrice), old(product.salePrice)))
              && product.status == (if outcome.RejectedInAdmin? then "draft" else old(product.status))
              && product.regularPrice == old(product.regularPrice) && product.salePrice == old(product.salePrice)
  {
    if product == null {
      return NotAProduct;
    }
    if ViolatesMinimum(product.regularPrice, product.salePrice) {
      if !isAdmin {
        return Aborted("Product creation failed: The minimum allowed price is 0.99.");
      }
      product.status := "draft";
      return RejectedInAdmin("Error: The minimum allowed product price is 0.99.");
    }
    outcome := Accepted;
  }

  // ----- Per-row figures -----

  /** The figures of one summary line, in cents. */
  datatype RowFigures = RowFigures(ttc: int, vat: int, ht: int, royalty: int, fee: int, margin: int)

  /**
   * VAT at 5.5 percent of the price before tax, the price with tax, the card
   * fee of 1.4 percent plus 0.25 EUR on that price, and what is left after
   * royalty and fee, each rounded to the cent.
   */
  function Figures(ht: int, royalty: int): (f: RowFigures)
    ensures f.ht == ht && f.royalty == royalty
    ensures f.ttc == f.ht + f.vat
    ensures f.margin + f.royalty + f.fee == f.ht
  {
    var vat := RoundHalfAway(ht * 55, 1000);
    var ttc := RoundHalfAway((ht + vat) * 1000, 1000);
    var fee := RoundHalfAway(ttc * 14 + 25000, 1000);
    var margin := RoundHalfAway((ht - royalty - fee) * 1000, 1000);
    RoundExact(ht + vat, 1000);
    RoundExact(ht - royalty - fee, 1000);
    RowFigures(ttc, vat, ht, royalty, fee, margin)
  }

  /** The VAT is 5.5 percent of the price to the nearest cent, and the fee at least 0.25 EUR on a non-negative price. */
  lemma FiguresRounding(ht: int, royalty: int)
    requires ht >= 0
    ensures var f := Figures(ht, royalty);
            0 <= f.vat <= ht && 2000 * f.vat - 1000 <= 110 * ht < 2000 * f.vat + 1000
            && f.fee >= 25 && 2000 * f.fee - 1000 <= 28 * f.ttc + 50000 < 2000 * f.fee + 1000
  {
    var f := Figures(ht, royalty);
    RoundMonotone(25000, f.ttc * 14 + 25000, 1000);
    RoundExact(25, 1000);
    RoundMonotone(ht * 55, ht * 1000, 1000);
    RoundExact(ht, 1000);
  }

  /** A 10.00 EUR line: 0.55 VAT, 10.55 with tax, 0.40 fee. */
  lemma FiguresExample()
    ensures Figures(1000, 500) == RowFigures(1055, 55, 1000, 500, 40, 460)
  {
  }

  // ----- Totals and monthly buckets -----

  /** One month's sales, royalties and margin, in cents. */
  datatype Bucket = Bucket(sales: int, royalties: int, margin: int)

  const EmptyBucket: Bucket := Bucket(0, 0, 0)

  function Plus(a: Bucket, b: Bucket): Bucket
  {
    Bucket(a.sales + b.sales, a.royalties + b.royalties, a.margin + b.margin)
  }

  function Minus(a: Bucket, b: Bucket): Bucket
  {
    Bucket(a.sales - b.sales, a.royalties - b.royalties, a.margin - b.margin)
  }

  /** What one row adds to its month. */
  function RowBucket(f: RowFigures): Bucket
  {
    Bucket(f.ht, f.royalty, f.margin)
  }

  function RowFiguresOf(row: RoyaltyRow): RowFigures
  {
    Figures(row.priceHt, row.royaltyAmount)
  }

  /**
   * The summary: the four totals, the monthly map and its months in the order
   * they were first seen (the key order of the PHP array).
   */
  datatype Summary = Summary(totalSales: int, totalRoyalties: int, totalFees: int, totalMargin: int,
                             monthly: map<int, Bucket>, months: seq<int>)

  /** The summary with one more row's figures: its month's bucket opened at zero if new, then the row added everywhere. */
  function AddRow(s: Summary, f: RowFigures, month: int): Summary
  {
    var bucket := if month in s.monthly then s.monthly[month] else EmptyBucket;
    Summary(s.totalSales + f.ht, s.totalRoyalties + f.royalty, s.totalFees + f.fee, s.totalMargin + f.margin,
            s.monthly[month := Plus(bucket, RowBucket(f))],
            if month in s.monthly then s.months else s.months + [month])
  }

  /** The summary of the rows in query order; monthOf maps a creation time to its year-month. */
  function Summarize(rows: seq<RoyaltyRow>, monthOf: int -> int): (s: Summary)
    ensures s.totalSales == s.totalRoyalties + s.totalFees + s.totalMargin
    ensures rows == [] ==> s.monthly == map[] && s.months == []
  {
    if rows == [] then Summary(0, 0, 0, 0, map[], [])
    else
      var row := rows[|rows| - 1];
      AddRow(Summarize(rows[..|rows| - 1], monthOf), RowFiguresOf(row), monthOf(row.createdAt))
  }

  /**
   * The loop of libookin_render_royalty_summary_page: recompute each row's
   * figures, open its month's bucket at zero the first time the month is seen,
   * and add the row to the bucket and to the totals.
   */
  method SummarizeRoyalties(rows: seq<RoyaltyRow>, monthOf: int -> int) returns (summary: Summary)
    ensures summary == Summarize(rows, monthOf)
  {
    var totalSales, totalRoyalties, totalFees, totalMargin := 0, 0, 0, 0;
    var monthly: map<int, Bucket> := map[];
    var months: seq<int> := [];
    var i := 0;
    while i < |rows|
      invariant 0 <= i <= |rows|
      invariant Summary(totalSales, totalRoyalties, totalFees, totalMargin, monthly, months) == Summarize(rows[..i], monthOf)
    {
      ghost var before := Summary(totalSales, totalRoyalties, totalFees, totalMargin, monthly, months);
      var row := rows[i];
      var f := RowFiguresOf(row);
      var month := monthOf(row.createdAt);
      var bucket := EmptyBucket;
      if month in monthly {
        bucket := monthly[month];
      } else {
        months := months + [month];
      }
      monthly := monthly[month := Plus(bucket, RowBucket(f))];
      totalSales := totalSales + f.ht;
      totalRoyalties := totalRoyalties + f.royalty;
      totalFees := totalFees + f.fee;
      totalMargin := totalMargin + f.margin;
      assert Summary(totalSales, totalRoyalties, totalFees, totalMargin, monthly, months) == AddRow(before, f, month);
      SummarizeStep(rows, i, monthOf);
      i := i + 1;
    }
    assert rows[..|rows|] == rows;
    summary := Summary(totalSales, totalRoyalties, totalFees, totalMargin, monthly, months);
  }

  lemma SummarizeStep(rows: seq<RoyaltyRow>, i: int, monthOf: int -> int)
    requires 0 <= i < |rows|
    ensures Summarize(rows[..i + 1], monthOf)
            == AddRow(Summarize(rows[..i], monthOf), RowFiguresOf(rows[i]), monthOf(rows[i].createdAt))
  {
    assert rows[..i + 1][..i] == rows[..i];
  }

  /** The buckets of the given months, added up. */
  function SumBuckets(months: seq<int>, monthly: map<int, Bucket>): Bucket
  {
    if months == [] then EmptyBucket
    else Plus(SumBuckets(months[..|months| - 1], monthly),
              if months[|months| - 1] in monthly then monthly[months[|months| - 1]] else EmptyBucket)
  }

  predicate Distinct(months: seq<int>)
  {
    forall i, j :: 0 <= i < j < |months| ==> months[i] != months[j]
  }

  /** A month's bucket: the rows created in that month, added up. */
  function MonthOfRows(rows: seq<RoyaltyRow>, monthOf: int -> int, month: int): Bucket
  {
    if rows == [] then EmptyBucket
    else if monthOf(rows[|rows| - 1].createdAt) == month then
      Plus(MonthOfRows(rows[..|rows| - 1], monthOf, month), RowBucket(RowFiguresOf(rows[|rows| - 1])))
    else MonthOfRows(rows[..|rows| - 1], monthOf, month)
  }

  /** The listed months are distinct and are exactly the months of the monthly map. */
  lemma {:induction false} MonthsAreKeys(rows: seq<RoyaltyRow>, monthOf: int -> int)
    ensures var s := Summarize(rows, monthOf);
            Distinct(s.months) && forall m :: m in s.monthly <==> m in s.months
  {
    if rows != [] {
      MonthsAreKeys(rows[..|rows| - 1], monthOf);
    }
  }

  /** A month has a bucket exactly when some row was created in it. */
  lemma {:induction false} BucketIffMonthSeen(rows: seq<RoyaltyRow>, monthOf: int -> int, month: int)
    ensures month in Summarize(rows, monthOf).monthly <==> exists i :: 0 <= i < |rows| && monthOf(rows[i].createdAt) == month
  {
    if rows != [] {
      var n := |rows|;
      var init := rows[..n - 1];
      BucketIffMonthSeen(init, monthOf, month);
      if month in Summarize(init, monthOf).monthly {
        var i :| 0 <= i < |init| && monthOf(init[i].createdAt) == month;
        assert rows[i] == init[i];
      } else if monthOf(rows[n - 1].createdAt) != month {
        forall i | 0 <= i < n
          ensures monthOf(rows[i].createdAt) != month
        {
          if i < n - 1 {
            assert rows[i] == init[i];
          }
        }
      }
    }
  }

  /** A month's bucket holds exactly that month's rows: it was opened at zero. */
  lemma {:induction false} BucketIsMonthOfRows(rows: seq<RoyaltyRow>, monthOf: int -> int, month: int)
    ensures var s := Summarize(rows, monthOf);
            (month in s.monthly ==> s.monthly[month] == MonthOfRows(rows, monthOf, month))
            && (month !in s.monthly ==> MonthOfRows(rows, monthOf, month) == EmptyBucket)
  {
    if rows != [] {
      var init, row := rows[..|rows| - 1], rows[|rows| - 1];
      BucketIsMonthOfRows(init, monthOf, month);
      var s := Summarize(init, monthOf);
      var f := RowBucket(RowFiguresOf(row));
      var m := monthOf(row.createdAt);
      var s' := AddRow(s, RowFiguresOf(row), m);
      assert Summarize(rows, monthOf) == s';
      var bucket := if m in s.monthly then s.monthly[m] else EmptyBucket;
      assert s'.monthly == s.monthly[m := Plus(bucket, f)];
      if m == month {
        assert MonthOfRows(rows, monthOf, month) == Plus(MonthOfRows(init, monthOf, month), f);
      } else {
        assert MonthOfRows(rows, monthOf, month) == MonthOfRows(init, monthOf, month);
      }
    }
  }

  lemma {:induction false} SumBucketsAbsent(months: seq<int>, monthly: map<int, Bucket>, month: int, b: Bucket)
    requires month !in months
    ensures SumBuckets(months, monthly[month := b]) == SumBuckets(months, monthly)
  {
    if months != [] {
      SumBucketsAbsent(months[..|months| - 1], monthly, month, b);
    }
  }

  lemma {:induction false} SumBucketsPresent(months: seq<int>, monthly: map<int, Bucket>, month: int, b: Bucket)
    requires Distinct(months) && month in months && month in monthly
    ensures SumBuckets(months, monthly[month := b]) == Plus(SumBuckets(months, monthly), Minus(b, monthly[month]))
  {
    var n := |months|;
    var init, last := months[..n - 1], months[n - 1];
    var updated := monthly[month := b];
    assert SumBuckets(months, updated) == Plus(SumBuckets(init, updated), if last in updated then updated[last] else EmptyBucket);
    assert SumBuckets(months, monthly) == Plus(SumBuckets(init, monthly), if last in monthly then monthly[last] else EmptyBucket);
    if last == month {
      forall i | 0 <= i < n - 1
        ensures init[i] != month
      {
        assert init[i] == months[i];
      }
      SumBucketsAbsent(init, monthly, month, b);
    } else {
      var p :| 0 <= p < n && months[p] == month;
      assert init[p] == month;
      forall i, j | 0 <= i < j < n - 1
        ensures init[i] != init[j]
      {
        assert init[i] == months[i] && init[j] == months[j];
      }
      SumBucketsPresent(init, monthly, month, b);
    }
  }

  /** Adding up the buckets gives the totals: sales, royalties and margin. */
  lemma {:induction false} BucketsAddUpToTotals(rows: seq<RoyaltyRow>, monthOf: int -> int)
    ensures var s := Summarize(rows, monthOf);
            SumBuckets(s.months, s.monthly) == Bucket(s.totalSales, s.totalRoyalties, s.totalMargin)
  {
    if rows != [] {
      var init := rows[..|rows| - 1];
      BucketsAddUpToTotals(init, monthOf);
      MonthsAreKeys(init, monthOf);
      var row := rows[|rows| - 1];
      AddRowKeepsSums(Summarize(init, monthOf), RowFiguresOf(row), monthOf(row.createdAt));
    }
  }

  /** One more row keeps the buckets adding up to the totals. */
  lemma AddRowKeepsSums(s: Summary, f: RowFigures, month: int)
    requires Distinct(s.months) && forall m :: m in s.monthly <==> m in s.months
    requires SumBuckets(s.months, s.monthly) == Bucket(s.totalSales, s.totalRoyalties, s.totalMargin)
    ensures var s' := AddRow(s, f, month);
            SumBuckets(s'.months, s'.monthly) == Bucket(s'.totalSales, s'.totalRoyalties, s'.totalMargin)
  {
    var s' := AddRow(s, f, month);
    var add := RowBucket(f);
    if month in s.monthly {
      SumBucketsPresent(s.months, s.monthly, month, Plus(s.monthly[month], add));
      assert SumBuckets(s'.months, s'.monthly) == Plus(SumBuckets(s.months, s.monthly), add);
    } else {
      SumBucketsAbsent(s.months, s.monthly, month, Plus(EmptyBucket, add));
      assert (s.months + [month])[..|s.months + [month]| - 1] == s.months;
      assert SumBuckets(s'.months, s'.monthly)
          == Plus(SumBuckets(s.months, s'.monthly), Plus(EmptyBucket, add));
    }
  }
}
