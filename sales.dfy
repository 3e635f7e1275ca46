/**
 * Sales records and the revenue arithmetic every screen of the dashboard
 * shares: a sale's total is its subtotal plus tax minus discount, and a
 * list of sales is summed with a left fold starting from 0.
 */
module Sales {
  import opened Calendar
  import opened Catalog

  /** One product line stored on a sale, with the unit price it was sold at. */
  datatype SaleItem = SaleItem(product: Product, quantity: int, price: real)

  /** A stored sale; a sale stored without line items has `products == []`. */
  datatype Sale = Sale(
    id: int,
    documentId: string,
    date: Date,
    customerName: string,
    customerPhone: string,
    customerEmail: string,
    invoiceNumber: string,
    discount: real,
    tax: real,
    subtotal: real,
    notes: string,
    products: seq<SaleItem>)

  /** The revenue of one sale. */
  function SaleTotal(s: Sale): (t: real)
    ensures s.discount >= 0.0 <==> t <= s.subtotal + s.tax
  {
    s.subtotal + s.tax - s.discount
  }

  /** `sales.reduce((sum, sale) => sum + total(sale), 0)`. */
  function SumRevenue(sales: seq<Sale>): (r: real)
    ensures sales == [] ==> r == 0.0
    ensures |sales| == 1 ==> r == SaleTotal(sales[0])
    ensures (forall i :: 0 <= i < |sales| ==> SaleTotal(sales[i]) >= 0.0) ==> r >= 0.0
  {
    if sales == [] then 0.0 else SumRevenue(sales[..|sales| - 1]) + SaleTotal(sales[|sales| - 1])
  }

  function SumSubtotal(sales: seq<Sale>): real {
    if sales == [] then 0.0 else SumSubtotal(sales[..|sales| - 1]) + sales[|sales| - 1].subtotal
  }

  function SumTax(sales: seq<Sale>): real {
    if sales == [] then 0.0 else SumTax(sales[..|sales| - 1]) + sales[|sales| - 1].tax
  }

  function SumDiscount(sales: seq<Sale>): real {
    if sales == [] then 0.0 else SumDiscount(sales[..|sales| - 1]) + sales[|sales| - 1].discount
  }

  /** Revenue is additive over concatenation, so the fold order does not matter. */
  lemma {:induction false} SumRevenueAppend(a: seq<Sale>, b: seq<Sale>)
    ensures SumRevenue(a + b) == SumRevenue(a) + SumRevenue(b)
    decreases |b|
  {
    if b == [] {
      assert a + b == a;
    } else {
      var b' := b[..|b| - 1];
      assert (a + b)[..|a + b| - 1] == a + b';
      assert (a + b)[|a + b| - 1] == b[|b| - 1];
      SumRevenueAppend(a, b');
    }
  }

  /** Summed revenue is the subtotals plus the taxes minus the discounts. */
  lemma {:induction false} SumRevenueSplits(sales: seq<Sale>)
    ensures SumRevenue(sales) == SumSubtotal(sales) + SumTax(sales) - SumDiscount(sales)
  {
    if sales != [] {
      SumRevenueSplits(sales[..|sales| - 1]);
    }
  }

  /** When no sale has a negative total, no part of the list earns more than the whole. */
  lemma {:induction false} SumRevenueMonotone(a: seq<Sale>, b: seq<Sale>)
    requires forall s :: s in b ==> SaleTotal(s) >= 0.0
    ensures SumRevenue(a) <= SumRevenue(a + b)
    decreases |b|
  {
    if b == [] {
      assert a + b == a;
    } else {
      var b' := b[..|b| - 1];
      assert (a + b)[..|a + b| - 1] == a + b';
      assert (a + b)[|a + b| - 1] == b[|b| - 1];
      assert SumRevenue(a + b) == SumRevenue(a + b') + SaleTotal(b[|b| - 1]);
      assert b[|b| - 1] in b;
      assert forall s :: s in b' ==> s in b;
      SumRevenueMonotone(a, b');
    }
  }

  /** The four figures shown above the reports table. */
  datatype ReportStats = ReportStats(totalSales: real, totalInvoices: nat, averageSale: real, totalRevenue: real)

  const EmptyStats := ReportStats(0.0, 0, 0.0, 0.0)

  /** Statistics of the sales on the current page. */
  function ComputeStats(sales: seq<Sale>): (r: ReportStats)
    ensures r.totalInvoices == |sales|
    ensures r.totalSales == SumSubtotal(sales)
    ensures r.totalRevenue == SumRevenue(sales)
    ensures |sales| > 0 ==> r.averageSale * (|sales| as real) == r.totalRevenue
    ensures sales == [] ==> r == EmptyStats
  {
    var revenue := SumRevenue(sales);
    ReportStats(
      SumSubtotal(sales),
      |sales|,
      if |sales| > 0 then revenue / (|sales| as real) else 0.0,
      revenue)
  }

  /** Percentage change from `previous` to `current`; 0 when there is no positive baseline. */
  function Growth(current: real, previous: real): (g: real)
    ensures previous > 0.0 ==> previous + previous * g / 100.0 == current
    ensures previous > 0.0 ==> (g > 0.0 <==> current > previous) && (g < 0.0 <==> current < previous)
    ensures previous <= 0.0 ==> g == 0.0
  {
    if previous > 0.0 then (current - previous) / previous * 100.0 else 0.0
  }
}
