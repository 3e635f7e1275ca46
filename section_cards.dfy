/**
 * The four revenue cards of the dashboard: today's, this week's, this
 * month's and last month's revenue, each summed from its own query, and the
 * growth of this month over last month.
 */
module SectionCards {
  import opened Calendar
  import opened JsNumber
  import opened DateRanges
  import opened SearchParams
  import opened Sales

  lemma PeriodParamsAreSet(gte: string, lte: string)
    ensures var e1 := SetEntry([], "filters[date][$gte]", gte);
            var e2 := SetEntry(e1, "filters[date][$lte]", lte);
            SetEntry(e2, "pagination[pageSize]", "100")
              == [("filters[date][$gte]", gte), ("filters[date][$lte]", lte), ("pagination[pageSize]", "100")]
  {
    SetNewName([], "filters[date][$gte]", gte);
    SetNewName([("filters[date][$gte]", gte)], "filters[date][$lte]", lte);
    SetNewName([("filters[date][$gte]", gte), ("filters[date][$lte]", lte)], "pagination[pageSize]", "100");
  }

  /** `fetchPeriod(type)`'s query: the period's window and at most 100 sales. */
  method PeriodQuery(kind: string, now: Date) returns (entries: Entries)
    requires now.Valid()
    ensures var w := CardsWindow(kind, now);
            w.start.Valid() && w.end.Valid()
            && entries == [("filters[date][$gte]", IsoString(w.start)),
                           ("filters[date][$lte]", IsoString(w.end)),
                           ("pagination[pageSize]", "100")]
  {
    var range := CardsDateRange(kind, now);
    var gte := IsoString(range.start);
    var lte := IsoString(range.end);
    var query := new Query();
    query.Set("filters[date][$gte]", gte);
    query.Set("filters[date][$lte]", lte);
    query.Set("pagination[pageSize]", "100");
    PeriodParamsAreSet(gte, lte);
    entries := query.entries;
  }

  datatype RevenueStats = RevenueStats(today: real, weekly: real, monthly: real, lastMonth: real, growthRate: real)

  /** The cards' figures from the four responses: each period's revenue sum and this month's growth. */
  function PeriodStats(today: seq<Sale>, weekly: seq<Sale>, monthly: seq<Sale>, lastMonth: seq<Sale>): (r: RevenueStats)
    ensures r.today == SumRevenue(today) && r.weekly == SumRevenue(weekly)
    ensures r.monthly == SumRevenue(monthly) && r.lastMonth == SumRevenue(lastMonth)
    ensures r.lastMonth > 0.0 ==> r.lastMonth + r.lastMonth * r.growthRate / 100.0 == r.monthly
    ensures r.lastMonth <= 0.0 ==> r.growthRate == 0.0
  {
    var m := SumRevenue(monthly);
    var l := SumRevenue(lastMonth);
    RevenueStats(SumRevenue(today), SumRevenue(weekly), m, l, Growth(m, l))
  }

  /**
   * When the weekly response holds today's sales and some more, all with
   * non-negative totals, the weekly card shows at least today's revenue.
   */
  lemma WeeklyCoversToday(today: seq<Sale>, earlier: seq<Sale>)
    requires forall s :: s in earlier ==> SaleTotal(s) >= 0.0
    ensures PeriodStats(today, today + earlier, [], []).today <= PeriodStats(today, today + earlier, [], []).weekly
  {
    SumRevenueMonotone(today, earlier);
  }

  /** The today card's badge. */
  function TodayBadge(today: real): (badge: string)
    ensures badge == "Active" || badge == "No sales"
    ensures badge == "Active" <==> today > 0.0
  {
    if today > 0.0 then "Active" else "No sales"
  }

  /** The growth card's footer line. */
  function GrowthCaption(growthRate: real): (caption: string)
    ensures caption == "Growth vs last month" <==> growthRate >= 0.0
    ensures caption == "Decline vs last month" <==> growthRate < 0.0
  {
    if growthRate >= 0.0 then "Growth vs last month" else "Decline vs last month"
  }

  /** The growth card's title and badge agree with its caption: '+' for growth, '-' for decline. */
  lemma GrowthTextAgrees(growthRate: real)
    ensures var text := SignedPercent(growthRate);
            (text[0] == '+' <==> GrowthCaption(growthRate) == "Growth vs last month")
            && (text[0] == '-' <==> GrowthCaption(growthRate) == "Decline vs last month")
  {
  }

  /** The cards component: its figures and loading flag. */
  class Cards {
    var stats: RevenueStats
    var loading: bool

    constructor()
      ensures stats == RevenueStats(0.0, 0.0, 0.0, 0.0, 0.0) && loading
    {
      stats := RevenueStats(0.0, 0.0, 0.0, 0.0, 0.0);
      loading := true;
    }

    /** All four responses arrived. */
    method Loaded(today: seq<Sale>, weekly: seq<Sale>, monthly: seq<Sale>, lastMonth: seq<Sale>)
      modifies this
      ensures stats == PeriodStats(today, weekly, monthly, lastMonth) && !loading
    {
      var todayRevenue := SumRevenue(today);
      var weeklyRevenue := SumRevenue(weekly);
      var monthlyRevenue := SumRevenue(monthly);
      var lastMonthRevenue := SumRevenue(lastMonth);
      stats := RevenueStats(todayRevenue, weeklyRevenue, monthlyRevenue, lastMonthRevenue, Growth(monthlyRevenue, lastMonthRevenue));
      loading := false;
    }

    /** One of the requests failed: the figures stay as they were. */
    method Failed()
      modifies this
      ensures stats == old(stats) && !loading
    {
      loading := false;
    }
  }
}
