/**
 * The revenue bar chart: the sales of the last twelve months are bucketed
 * by "YYYY-MM" key, turned into twelve points oldest first, and the chart
 * highlights either the hovered bar or the first highest one. The badge shows
 * this month's growth over the previous one.
 */
module SalesChart {
  import opened Wrappers
  import opened Text
  import opened JsNumber
  import opened Calendar
  import opened SearchParams
  import opened Sales

  datatype ChartPoint = ChartPoint(month: string, revenue: int)

  // ---------------------------------------------------------------------------
  // Month keys

  /** `${year}-${String(month + 1).padStart(2, "0")}`. */
  function MonthKey(y: int, m: int): (key: string)
    requires 0 <= m < 12
    ensures |key| >= 3 && key[|key| - 3] == '-'
  {
    ParseTwo(m + 1);
    IntToString(y) + "-" + Two(m + 1)
  }

  /** Reads a month key back: the year before the last three characters, the month number after the dash. */
  function ParseMonthKey(key: string): (int, int) {
    if |key| < 3 then (0, 0)
    else (ParseInt(key[..|key| - 3]), ParseNat(key[|key| - 2..]) - 1)
  }

  lemma KeyParts(year: string, month: string)
    requires |month| == 2
    ensures var key := year + "-" + month;
            |key| >= 3 && key[..|key| - 3] == year && key[|key| - 2..] == month
  {
  }

  /** A month key reads back as the year and month it was made from. */
  lemma MonthKeyRoundTrip(y: int, m: int)
    requires 0 <= m < 12
    ensures ParseMonthKey(MonthKey(y, m)) == (y, m)
  {
    var year := IntToString(y);
    var month := Two(m + 1);
    ParseTwo(m + 1);
    ParseIntOfIntToString(y);
    KeyParts(year, month);
  }

  /** Distinct months never share a bucket. */
  lemma MonthKeyInjective(y1: int, m1: int, y2: int, m2: int)
    requires 0 <= m1 < 12 && 0 <= m2 < 12
    requires MonthKey(y1, m1) == MonthKey(y2, m2)
    ensures y1 == y2 && m1 == m2
  {
    MonthKeyRoundTrip(y1, m1);
    MonthKeyRoundTrip(y2, m2);
  }

  // ---------------------------------------------------------------------------
  // Bucketing

  predicate ValidDates(sales: seq<Sale>) {
    forall i :: 0 <= i < |sales| ==> sales[i].date.Valid()
  }

  function SaleKey(s: Sale): string
    requires s.date.Valid()
  {
    MonthKey(s.date.year, s.date.month)
  }

  /** `monthlyData[key] || 0`. */
  function Lookup(monthly: map<string, real>, key: string): real {
    if key in monthly then monthly[key] else 0.0
  }

  /** The buckets after adding up the (key, amount) entries in order, each under its own key. */
  function AddUp(entries: seq<(string, real)>): map<string, real> {
    if entries == [] then map[]
    else
      var before := AddUp(entries[..|entries| - 1]);
      var e := entries[|entries| - 1];
      before[e.0 := Lookup(before, e.0) + e.1]
  }

  /** Adding one more entry adds its amount to its own key's bucket. */
  lemma AddUpSnoc(entries: seq<(string, real)>, e: (string, real))
    ensures AddUp(entries + [e]) == AddUp(entries)[e.0 := Lookup(AddUp(entries), e.0) + e.1]
  {
    var all := entries + [e];
    assert all[..|all| - 1] == entries;
  }

  /** The amounts of the entries filed under `key`, added up. */
  function AmountFor(entries: seq<(string, real)>, key: string): real {
    if entries == [] then 0.0
    else
      var e := entries[|entries| - 1];
      AmountFor(entries[..|entries| - 1], key) + (if e.0 == key then e.1 else 0.0)
  }

  /** Each bucket holds the sum of the amounts filed under its key, and a key never filed reads as 0. */
  lemma {:induction false} AddUpLookup(entries: seq<(string, real)>, key: string)
    ensures Lookup(AddUp(entries), key) == AmountFor(entries, key)
  {
    if entries != [] {
      AddUpLookup(entries[..|entries| - 1], key);
    }
  }

  /** `if (!monthlyData[key]) monthlyData[key] = 0` followed by the addition is an addition to `monthlyData[key] || 0`. */
  lemma ResetThenAdd(m: map<string, real>, key: string, amount: real)
    requires key !in m || m[key] == 0.0
    ensures m[key := 0.0][key := 0.0 + amount] == m[key := Lookup(m, key) + amount]
  {
  }

  /** Each sale as the loop sees it: its month key and its revenue. */
  function Revenues(sales: seq<Sale>): (entries: seq<(string, real)>)
    requires ValidDates(sales)
    ensures |entries| == |sales|
    ensures forall i :: 0 <= i < |sales| ==> entries[i] == (SaleKey(sales[i]), SaleTotal(sales[i]))
  {
    seq(|sales|, i requires 0 <= i < |sales| => (SaleKey(sales[i]), SaleTotal(sales[i])))
  }

  /** The month buckets of a list of sales. */
  function Buckets(sales: seq<Sale>): map<string, real>
    requires ValidDates(sales)
  {
    AddUp(Revenues(sales))
  }

  /** The revenue of the sales dated in month m of year y. */
  function MonthRevenue(sales: seq<Sale>, y: int, m: int): real
    requires ValidDates(sales)
  {
    if sales == [] then 0.0
    else
      var s := sales[|sales| - 1];
      MonthRevenue(sales[..|sales| - 1], y, m) + (if s.date.year == y && s.date.month == m then SaleTotal(s) else 0.0)
  }

  /** The amounts filed under a month's key are exactly the revenues of that month's sales. */
  lemma {:induction false} AmountForMonth(sales: seq<Sale>, y: int, m: int)
    requires ValidDates(sales) && 0 <= m < 12
    ensures AmountFor(Revenues(sales), MonthKey(y, m)) == MonthRevenue(sales, y, m)
  {
    if sales != [] {
      var n := |sales|;
      var s, front := sales[n - 1], sales[..n - 1];
      assert ValidDates(front);
      RevenuesSnoc(sales);
      AmountForSnoc(Revenues(front), (SaleKey(s), SaleTotal(s)), MonthKey(y, m));
      AmountForMonth(front, y, m);
      SaleKeyMatches(s, y, m);
    }
  }

  lemma AmountForSnoc(entries: seq<(string, real)>, e: (string, real), key: string)
    ensures AmountFor(entries + [e], key) == AmountFor(entries, key) + (if e.0 == key then e.1 else 0.0)
  {
    assert (entries + [e])[..|entries|] == entries;
  }

  lemma RevenuesSnoc(sales: seq<Sale>)
    requires ValidDates(sales) && sales != []
    ensures var front, s := sales[..|sales| - 1], sales[|sales| - 1];
            ValidDates(front) && Revenues(sales) == Revenues(front) + [(SaleKey(s), SaleTotal(s))]
  {
  }

  /** A sale is filed under a month's key exactly when it is dated in that month. */
  lemma SaleKeyMatches(s: Sale, y: int, m: int)
    requires s.date.Valid() && 0 <= m < 12
    ensures SaleKey(s) == MonthKey(y, m) <==> s.date.year == y && s.date.month == m
  {
    if SaleKey(s) == MonthKey(y, m) {
      MonthKeyInjective(s.date.year, s.date.month, y, m);
    }
  }

  /** Each month's bucket holds exactly the revenue of that month's sales. */
  lemma BucketIsMonthRevenue(sales: seq<Sale>, y: int, m: int)
    requires ValidDates(sales) && 0 <= m < 12
    ensures Lookup(Buckets(sales), MonthKey(y, m)) == MonthRevenue(sales, y, m)
  {
    AddUpLookup(Revenues(sales), MonthKey(y, m));
    AmountForMonth(sales, y, m);
  }

  /** The loop body run over every (key, revenue) pair in order: reset a missing or zero bucket, then add. */
  method AddUpAll(entries: seq<(string, real)>) returns (monthly: map<string, real>)
    ensures monthly == AddUp(entries)
  {
    monthly := map[];
    var i := 0;
    assert entries[..0] == [];
    while i < |entries|
      invariant 0 <= i <= |entries|
      invariant monthly == AddUp(entries[..i])
    {
      var (key, revenue) := entries[i];
      ghost var before := monthly;
      if key !in monthly || monthly[key] == 0.0 {
        monthly := monthly[key := 0.0];
      }
      monthly := monthly[key := monthly[key] + revenue];
      if key !in before || before[key] == 0.0 {
        ResetThenAdd(before, key, revenue);
      }
      assert entries[..i + 1] == entries[..i] + [entries[i]];
      AddUpSnoc(entries[..i], entries[i]);
      i := i + 1;
    }
    assert entries[..|entries|] == entries;
  }

  /** `sales.forEach(...)`: each sale's revenue added to the bucket of its month key. */
  method GroupByMonth(sales: seq<Sale>) returns (monthly: map<string, real>)
    requires ValidDates(sales)
    ensures monthly == Buckets(sales)
  {
    monthly := AddUpAll(Revenues(sales));
  }

  // ---------------------------------------------------------------------------
  // The twelve points

  /** `toLocaleDateString("en-US", { month: "short" })`. */
  function MonthName(m: int): string
    requires 0 <= m < 12
  {
    match m
    case 0 => "Jan" case 1 => "Feb" case 2 => "Mar" case 3 => "Apr"
    case 4 => "May" case 5 => "Jun" case 6 => "Jul" case 7 => "Aug"
    case 8 => "Sep" case 9 => "Oct" case 10 => "Nov" case _ => "Dec"
  }

  /** The month of point j: 11 - j months before the current one. */
  function SeriesMonth(now: Date, j: int): (ym: (int, int))
    ensures 0 <= ym.1 < 12
    ensures 12 * ym.0 + ym.1 == 12 * now.year + now.month - 11 + j
  {
    MonthShift(now.year, now.month - (11 - j))
  }

  /** The point of month m of year y: the month's short name and its bucket rounded to the nearest integer. */
  function PointFor(monthly: map<string, real>, y: int, m: int): ChartPoint
    requires 0 <= m < 12
  {
    ChartPoint(MonthName(m), Round(Lookup(monthly, MonthKey(y, m))))
  }

  /** Point j, for the month 11 - j months before the current one. */
  function Point(monthly: map<string, real>, now: Date, j: int): ChartPoint {
    var ym := SeriesMonth(now, j);
    PointFor(monthly, ym.0, ym.1)
  }

  /** The first n points, oldest first. */
  function Series(monthly: map<string, real>, now: Date, n: nat): seq<ChartPoint> {
    seq(n, j => Point(monthly, now, j))
  }

  /** The loop body for one month: its key, its bucket or 0 rounded, and its short name. */
  method MonthPoint(monthly: map<string, real>, y: int, m: int) returns (point: ChartPoint)
    requires 0 <= m < 12
    ensures point == PointFor(monthly, y, m)
  {
    var key := MonthKey(y, m);
    point := ChartPoint(MonthName(m), Round(Lookup(monthly, key)));
  }

  /** The loop `for (i = 11; i >= 0; i--)`: the twelve months ending with the current one, oldest first. */
  method BuildSeries(monthly: map<string, real>, now: Date) returns (data: seq<ChartPoint>)
    ensures |data| == 12
    ensures forall j {:trigger Point(monthly, now, j)} :: 0 <= j < 12 ==> data[j] == Point(monthly, now, j)
  {
    data := [];
    var i := 11;
    while i >= 0
      invariant -1 <= i <= 11
      invariant |data| == 11 - i
      invariant data == Series(monthly, now, |data|)
    {
      var date := MakeDate(now.year, now.month - i, 1);
      PointOfMonthStart(now, i, |data|);
      var point := MonthPoint(monthly, date.year, date.month);
      SeriesSnoc(monthly, now, data, point);
      data := data + [point];
      i := i - 1;
    }
    assert |data| == 12;
  }

  /** One more point: the series of the next month. */
  lemma SeriesSnoc(monthly: map<string, real>, now: Date, data: seq<ChartPoint>, point: ChartPoint)
    requires data == Series(monthly, now, |data|)
    requires point == Point(monthly, now, |data|)
    ensures data + [point] == Series(monthly, now, |data + [point]|)
  {
  }

  /** `new Date(year, month - i, 1)` falls in the month of point j = 11 - i. */
  lemma PointOfMonthStart(now: Date, i: int, j: int)
    requires j == 11 - i
    ensures var d := MakeDate(now.year, now.month - i, 1);
            (d.year, d.month) == SeriesMonth(now, j)
  {
    FirstOfMonth(now.year, now.month - i);
  }

  /** Point j shows the rounded revenue of exactly the sales dated in its month. */
  lemma PointRevenue(sales: seq<Sale>, now: Date, j: int)
    requires ValidDates(sales)
    ensures var ym := SeriesMonth(now, j);
            Point(Buckets(sales), now, j).revenue == Round(MonthRevenue(sales, ym.0, ym.1))
  {
    var ym := SeriesMonth(now, j);
    BucketIsMonthRevenue(sales, ym.0, ym.1);
  }

  /** A month number 12 * year + month determines the year and month. */
  lemma MonthNumberUnique(y1: int, m1: int, y2: int, m2: int)
    requires 0 <= m1 < 12 && 0 <= m2 < 12
    requires 12 * y1 + m1 == 12 * y2 + m2
    ensures y1 == y2 && m1 == m2
  {
  }

  /** A single sale dated k months back (k < 12) raises bar 11 - k only. */
  lemma SingleSaleRaisesOneBar(s: Sale, now: Date, k: int, j: int)
    requires s.date.Valid() && 0 <= k < 12 && 0 <= j < 12
    requires 12 * s.date.year + s.date.month == 12 * now.year + now.month - k
    ensures Point(Buckets([s]), now, j).revenue == if j == 11 - k then Round(SaleTotal(s)) else 0
  {
    var ym := SeriesMonth(now, j);
    PointRevenue([s], now, j);
    assert [s][..0] == [];
    var hit := s.date.year == ym.0 && s.date.month == ym.1;
    assert MonthRevenue([s], ym.0, ym.1) == if hit then SaleTotal(s) else 0.0;
    if j == 11 - k {
      MonthNumberUnique(s.date.year, s.date.month, ym.0, ym.1);
    } else {
      assert !hit;
      assert Round(0.0) == 0;
    }
  }

  /** The chart's query: sales on or after the first of the month eleven months back, 1000 at most, oldest first. */
  method ChartQuery(now: Date) returns (entries: Entries)
    ensures var start := MakeDate(now.year, now.month - 11, 1);
            entries == [("filters[date][$gte]", IsoString(start)), ("pagination[pageSize]", "1000"), ("sort[0]", "date:asc")]
  {
    var start := new JsDate.Of(now.year, now.month - 11, 1);
    var since := IsoString(start.Value());
    var query := new Query();
    query.Set("filters[date][$gte]", since);
    query.Set("pagination[pageSize]", "1000");
    SetNewName([("filters[date][$gte]", since)], "pagination[pageSize]", "1000");
    query.Set("sort[0]", "date:asc");
    SetNewName([("filters[date][$gte]", since), ("pagination[pageSize]", "1000")], "sort[0]", "date:asc");
    entries := query.entries;
  }

  /** The query's lower bound is midnight on the first day of the oldest charted month. */
  lemma QueryStartsAtFirstPoint(now: Date)
    ensures var ym := SeriesMonth(now, 0);
            MakeDate(now.year, now.month - 11, 1) == Date(ym.0, ym.1, 1, 0)
  {
    FirstOfMonth(now.year, now.month - 11);
  }

  // ---------------------------------------------------------------------------
  // Highlight, badge and label

  datatype Highlight = Highlight(index: int, value: int)

  /** The `reduce` over the points: strictly greater revenue replaces the running best, from {0, 0}. */
  function Peak(data: seq<ChartPoint>): (h: Highlight)
    ensures h.value >= 0
    ensures h.value > 0 ==> 0 <= h.index < |data| && data[h.index].revenue == h.value
  {
    if data == [] then Highlight(0, 0)
    else
      var best := Peak(data[..|data| - 1]);
      var j := |data| - 1;
      if data[j].revenue > best.value then Highlight(j, data[j].revenue) else best
  }

  /**
   * The reduce picks the first bar with the highest revenue when that revenue
   * is positive, and stays at {0, 0} when no bar is above zero.
   */
  lemma {:induction false} PeakIsFirstMaximum(data: seq<ChartPoint>)
    ensures var h := Peak(data);
            h.value >= 0
            && (forall j :: 0 <= j < |data| ==> data[j].revenue <= h.value)
            && (h.value > 0 ==> 0 <= h.index < |data| && data[h.index].revenue == h.value
                                && forall j :: 0 <= j < h.index ==> data[j].revenue < h.value)
            && (h.value == 0 ==> h.index == 0)
  {
    if data != [] {
      var front := data[..|data| - 1];
      PeakIsFirstMaximum(front);
      assert forall j :: 0 <= j < |front| ==> data[j] == front[j];
    }
  }

  /** `maxValueIndex`: nothing to show without data, the hovered bar, or the peak. */
  function Highlighted(data: seq<ChartPoint>, active: Option<nat>): (h: Highlight)
    requires active.Some? && data != [] ==> active.value < |data|
    ensures data == [] ==> h == Highlight(0, 0)
    ensures data != [] && active.Some? ==> h == Highlight(active.value, data[active.value].revenue)
    ensures data != [] && active.None? ==> h == Peak(data)
  {
    if data == [] then Highlight(0, 0)
    else if active.Some? then Highlight(active.value, data[active.value].revenue)
    else Peak(data)
  }

  /** Growth of the current month over the previous one, on the rounded bar values. */
  function SeriesGrowth(data: seq<ChartPoint>): (g: real)
    ensures |data| >= 2 && data[|data| - 2].revenue > 0 ==>
              var previous := data[|data| - 2].revenue as real;
              previous + previous * g / 100.0 == data[|data| - 1].revenue as real
    ensures |data| < 2 || data[|data| - 2].revenue <= 0 ==> g == 0.0
  {
    if |data| >= 2 then Growth(data[|data| - 1].revenue as real, data[|data| - 2].revenue as real) else 0.0
  }

  /** The reference label's width: 8 pixels per character of the value plus 10 of padding. */
  function LabelWidth(value: int): (w: int)
    ensures w >= 18 && (w - 10) % 8 == 0
  {
    |IntToString(value)| * 8 + 10
  }

  /** A value with k + 1 decimal digits gets a label 8(k + 1) + 10 pixels wide. */
  lemma LabelWidthByDigits(value: nat, k: nat)
    requires Pow10(k) <= value < Pow10(k + 1)
    ensures LabelWidth(value) == 8 * (k + 1) + 10
  {
    var n := |NatToString(value)|;
    NatToStringLength(value);
    if n < k + 1 {
      Pow10Monotone(n, k);
    } else if n > k + 1 {
      Pow10Monotone(k + 1, n - 1);
    }
  }

  /** The chart component: its points, loading flag, growth badge value and hovered bar. */
  class Chart {
    var data: seq<ChartPoint>
    var loading: bool
    var growthRate: real
    var active: Option<nat>

    /** A hovered bar is always one of the points. */
    ghost predicate Valid()
      reads this
    {
      active.Some? ==> active.value < |data|
    }

    constructor()
      ensures Valid() && data == [] && loading && growthRate == 0.0 && active == None
    {
      data := [];
      loading := true;
      growthRate := 0.0;
      active := None;
    }

    /**
     * The response arrived: bucket it, build the twelve points and the growth.
     * A hovered index beyond the new points is cleared; the component itself
     * keeps it, but the chart fetches once and no bar can be hovered before
     * that response arrives, so from the constructor's state the case does
     * not arise.
     */
    method Loaded(sales: seq<Sale>, now: Date)
      requires Valid() && ValidDates(sales)
      modifies this
      ensures Valid() && !loading
      ensures |data| == 12 && forall j :: 0 <= j < 12 ==> data[j] == Point(Buckets(sales), now, j)
      ensures data[10].revenue > 0 ==> growthRate == SeriesGrowth(data)
      ensures data[10].revenue <= 0 ==> growthRate == old(growthRate)
      ensures active == old(active) || active == None
    {
      var monthly := GroupByMonth(sales);
      var points := BuildSeries(monthly, now);
      data := points;
      if active.Some? && active.value >= |data| {
        active := None;
      }
      var current := data[11].revenue as real;
      var previous := data[10].revenue as real;
      if previous > 0.0 {
        growthRate := Growth(current, previous);
      }
      loading := false;
    }

    /** The fetch failed: keep the empty chart and stop loading. */
    method Failed()
      modifies this
      ensures !loading && data == old(data) && growthRate == old(growthRate) && active == old(active)
    {
      loading := false;
    }

    /** The mouse entered bar `index`. */
    method Hover(index: nat)
      requires index < |data|
      modifies this
      ensures Valid() && active == Some(index)
      ensures data == old(data) && loading == old(loading) && growthRate == old(growthRate)
    {
      active := Some(index);
    }

    /** The mouse left the chart. */
    method Leave()
      modifies this
      ensures Valid() && active == None
      ensures data == old(data) && loading == old(loading) && growthRate == old(growthRate)
    {
      active := None;
    }

    /** The value in the title and on the reference line. */
    function Shown(): (h: Highlight)
      requires Valid()
      reads this
      ensures data != [] && active.None? ==> h == Peak(data)
    {
      Highlighted(data, active)
    }

    /**
     * The badge: "+" exactly for growth of at least 0, then the rate to one
     * decimal and "%", reading back to within 0.05 of the rate.
     */
    function Badge(): (badge: string)
      reads this
      ensures |badge| >= 4 && badge[|badge| - 1] == '%'
      ensures badge[0] == '+' <==> growthRate >= 0.0
      ensures badge[0] == '-' <==> growthRate < 0.0
      ensures -0.05 <= ReadPercent(badge) - growthRate <= 0.05
    {
      SignedPercentAccuracy(growthRate);
      SignedPercent(growthRate)
    }

    /** The caption under the title: growth or decline by the sign of the rate, agreeing with the badge. */
    function Caption(): (caption: string)
      reads this
      ensures caption == "Growth vs. last month" <==> growthRate >= 0.0
      ensures caption == "Decline vs. last month" <==> growthRate < 0.0
      ensures caption == "Growth vs. last month" <==> Badge()[0] == '+'
    {
      if growthRate >= 0.0 then "Growth vs. last month" else "Decline vs. last month"
    }
  }
}
