/**
 * The period windows the reports page and the revenue cards query: each
 * `getDateRange` builds two JavaScript dates from "now" and moves them with
 * setDate/setHours or `new Date(y, m, d)`. The methods below do the same on
 * `JsDate` objects and are proved equal to the pure windows defined here.
 */
module DateRanges {
  import opened Calendar

  /** An inclusive window [start, end]. */
  datatype DateRange = DateRange(start: Date, end: Date)

  function StartOfDay(d: Date): Date {
    d.(ms := 0)
  }

  function EndOfDay(d: Date): Date {
    d.(ms := END_OF_DAY_MS)
  }

  /** Today from 00:00:00.000 to 23:59:59.999. */
  function DailyRange(now: Date): DateRange {
    DateRange(StartOfDay(now), EndOfDay(now))
  }

  /** From 00:00:00.000 on the calendar day seven days back to today at 23:59:59.999. */
  function WeeklyRange(now: Date): DateRange
    requires now.Valid()
  {
    DateRange(StartOfDay(Roll(now.year, now.month, now.day - 7, now.ms)), EndOfDay(now))
  }

  /** From the first of this month to its last day ("day 0 of next month") at 23:59:59.999. */
  function MonthlyRange(now: Date): DateRange {
    DateRange(MakeDate(now.year, now.month, 1), EndOfDay(MakeDate(now.year, now.month + 1, 0)))
  }

  /** From the first of last month to its last day ("day 0 of this month") at 23:59:59.999. */
  function LastMonthRange(now: Date): DateRange {
    DateRange(MakeDate(now.year, now.month - 1, 1), EndOfDay(MakeDate(now.year, now.month, 0)))
  }

  /** The month before (y, m), January rolling back to December of the year before. */
  function PreviousMonth(y: int, m: int): (int, int) {
    if m == 0 then (y - 1, 11) else (y, m - 1)
  }

  /** Both daily bounds fall on today; the window covers the whole day. */
  lemma DailyRangeIsToday(now: Date)
    requires now.Valid()
    ensures var r := DailyRange(now);
            r.start.Valid() && r.end.Valid() && Days(r.start) == Days(now) && Days(r.end) == Days(now)
            && r.start.ms == 0 && r.end.ms == END_OF_DAY_MS
            && Instant(r.end) - Instant(r.start) == MS_PER_DAY - 1
  {
  }

  /** The weekly window starts seven calendar days before today, so it spans eight calendar days. */
  lemma WeeklyRangeSpansEightDays(now: Date)
    requires now.Valid()
    ensures var r := WeeklyRange(now);
            r.start.Valid() && r.end.Valid() && Days(r.start) == Days(now) - 7 && Days(r.end) == Days(now)
            && r.start.ms == 0 && r.end.ms == END_OF_DAY_MS
            && Instant(r.end) - Instant(r.start) == 8 * MS_PER_DAY - 1
  {
    RollDays(now.year, now.month, now.day - 7, now.ms);
  }

  /** Shifting an in-range month by zero or by minus one. */
  lemma MonthShiftNear(y: int, m: int)
    requires 0 <= m < 12
    ensures MonthShift(y, m) == (y, m)
    ensures MonthShift(y, m - 1) == PreviousMonth(y, m)
  {
  }

  /** The monthly window is the first to the last day of the current month, whatever its length. */
  lemma MonthlyRangeIsCurrentMonth(now: Date)
    requires now.Valid()
    ensures MonthlyRange(now) ==
            DateRange(Date(now.year, now.month, 1, 0),
                      Date(now.year, now.month, DaysInMonth(now.year, now.month), END_OF_DAY_MS))
  {
    var y, m := now.year, now.month;
    MonthShiftNear(y, m);
    FirstOfMonth(y, m);
    assert MakeDate(y, m, 1) == Date(y, m, 1, 0);
    DayZeroIsLastOfPreviousMonth(y, m + 1);
    assert m + 1 - 1 == m;
    assert MakeDate(y, m + 1, 0) == Date(y, m, DaysInMonth(y, m), 0);
  }

  /** The last-month window is the whole previous calendar month (January rolls back to December). */
  lemma LastMonthRangeIsPreviousMonth(now: Date)
    requires now.Valid()
    ensures var p := PreviousMonth(now.year, now.month);
            LastMonthRange(now) ==
            DateRange(Date(p.0, p.1, 1, 0), Date(p.0, p.1, DaysInMonth(p.0, p.1), END_OF_DAY_MS))
  {
    MonthShiftNear(now.year, now.month);
    FirstOfMonth(now.year, now.month - 1);
    DayZeroIsLastOfPreviousMonth(now.year, now.month);
  }

  /** The last-month window ends exactly one millisecond before the monthly window starts. */
  lemma LastMonthEndsJustBeforeMonthly(now: Date)
    requires now.Valid()
    ensures Instant(LastMonthRange(now).end) + 1 == Instant(MonthlyRange(now).start)
  {
    LastMonthRangeIsPreviousMonth(now);
    MonthlyRangeIsCurrentMonth(now);
    var p := PreviousMonth(now.year, now.month);
    NextMonthStart(p.0, p.1);
  }

  /** The daily case: both dates moved to the ends of today with setHours. */
  method DailyDates(now: Date) returns (r: DateRange)
    requires now.Valid()
    ensures r == DailyRange(now)
  {
    var startDate := new JsDate.At(now);
    var endDate := new JsDate.At(now);
    startDate.SetHours(0, 0, 0, 0);
    endDate.SetHours(23, 59, 59, 999);
    r := DateRange(startDate.Value(), endDate.Value());
  }

  /** The weekly case: the start moved back seven days with setDate, then both to the ends of their days. */
  method WeeklyDates(now: Date) returns (r: DateRange)
    requires now.Valid()
    ensures r == WeeklyRange(now)
  {
    var startDate := new JsDate.At(now);
    var endDate := new JsDate.At(now);
    startDate.SetDate(now.day - 7);
    startDate.SetHours(0, 0, 0, 0);
    endDate.SetHours(23, 59, 59, 999);
    r := DateRange(startDate.Value(), endDate.Value());
  }

  /** The monthly case: the first of this month, and day 0 of next month at the end of the day. */
  method MonthlyDates(now: Date) returns (r: DateRange)
    ensures r.start == MakeDate(now.year, now.month, 1)
    ensures r.end == EndOfDay(MakeDate(now.year, now.month + 1, 0))
  {
    var startDate := new JsDate.Of(now.year, now.month, 1);
    var endDate := new JsDate.Of(now.year, now.month + 1, 0);
    endDate.SetHours(23, 59, 59, 999);
    r := DateRange(startDate.Value(), endDate.Value());
  }

  /** The last-month case: the first of last month, and day 0 of this month at the end of the day. */
  method LastMonthDates(now: Date) returns (r: DateRange)
    ensures r == LastMonthRange(now)
  {
    var startDate := new JsDate.Of(now.year, now.month - 1, 1);
    var endDate := new JsDate.Of(now.year, now.month, 0);
    endDate.SetHours(23, 59, 59, 999);
    r := DateRange(startDate.Value(), endDate.Value());
  }

  /** The window the reports page queries for a tab; an unknown tab gives the instant "now". */
  function ReportsWindow(tab: string, now: Date): (w: DateRange)
    requires now.Valid()
    ensures w.start.Valid() && w.end.Valid()
  {
    if tab == "daily" then DailyRange(now)
    else if tab == "weekly" then WeeklyRange(now)
    else if tab == "monthly" then MonthlyRange(now)
    else DateRange(now, now)
  }

  /** `getDateRange(type)` of the reports page; a tab it does not know leaves both dates at "now". */
  method ReportsDateRange(tab: string, now: Date) returns (r: DateRange)
    requires now.Valid()
    ensures tab == "daily" ==> r == DailyRange(now)
    ensures tab == "weekly" ==> r == WeeklyRange(now)
    ensures tab == "monthly" ==> r == MonthlyRange(now)
    ensures tab != "daily" && tab != "weekly" && tab != "monthly" ==> r == DateRange(now, now)
    ensures r == ReportsWindow(tab, now)
  {
    if tab == "daily" {
      r := DailyDates(now);
    } else if tab == "weekly" {
      r := WeeklyDates(now);
    } else if tab == "monthly" {
      r := MonthlyDates(now);
    } else {
      r := DateRange(now, now);
    }
  }

  /** The window a revenue card queries; an unknown kind gives the instant "now". */
  function CardsWindow(kind: string, now: Date): (w: DateRange)
    requires now.Valid()
    ensures w.start.Valid() && w.end.Valid()
  {
    if kind == "today" then DailyRange(now)
    else if kind == "weekly" then WeeklyRange(now)
    else if kind == "monthly" then MonthlyRange(now)
    else if kind == "lastMonth" then LastMonthRange(now)
    else DateRange(now, now)
  }

  /** `getDateRange(type)` of the revenue cards: "today", "weekly", "monthly" and "lastMonth". */
  method CardsDateRange(kind: string, now: Date) returns (r: DateRange)
    requires now.Valid()
    ensures kind == "today" ==> r == DailyRange(now)
    ensures kind == "weekly" ==> r == WeeklyRange(now)
    ensures kind == "monthly" ==> r == MonthlyRange(now)
    ensures kind == "lastMonth" ==> r == LastMonthRange(now)
    ensures kind != "today" && kind != "weekly" && kind != "monthly" && kind != "lastMonth" ==>
              r == DateRange(now, now)
    ensures r == CardsWindow(kind, now)
  {
    if kind == "today" {
      r := DailyDates(now);
    } else if kind == "weekly" {
      r := WeeklyDates(now);
    } else if kind == "monthly" {
      r := MonthlyDates(now);
    } else if kind == "lastMonth" {
      r := LastMonthDates(now);
    } else {
      r := DateRange(now, now);
    }
  }
}
