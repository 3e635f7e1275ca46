/**
 * Calendar dates as the dashboard's JavaScript `Date` objects hold them in
 * local time: a year, a zero-based month, a day of the month and the
 * milliseconds into that day. The local zone is taken to be UTC and has no
 * daylight-saving shifts.
 *
 * `new Date(y, m, d)` and `setDate(d)` accept out-of-range months and days
 * and roll them over into neighbouring months and years; `MakeDate` and
 * `Roll` model that, and are proved against a day count (`Days`).
 */
module Calendar {
  import opened Wrappers
  import opened Text

  const MS_PER_DAY: int := 86400000
  /** 23:59:59.999 as milliseconds into the day. */
  const END_OF_DAY_MS: int := 86399999

  /** Proleptic Gregorian leap years, as JavaScript dates use. */
  predicate IsLeapYear(y: int) {
    y % 4 == 0 && (y % 100 != 0 || y % 400 == 0)
  }

  function DaysInMonth(y: int, m: int): (n: int)
    requires 0 <= m < 12
    ensures 28 <= n <= 31
  {
    if m == 1 then (if IsLeapYear(y) then 29 else 28)
    else if m == 3 || m == 5 || m == 8 || m == 10 then 30
    else 31
  }

  datatype Date = Date(year: int, month: int, day: int, ms: int) {
    predicate Valid() {
      0 <= month < 12 && 1 <= day <= DaysInMonth(year, month) && 0 <= ms < MS_PER_DAY
    }
  }

  // ---------------------------------------------------------------------------
  // Day count

  /** Leap years in [0, y) (for negative y, minus those in [y, 0)). */
  function LeapYearsBefore(y: int): int {
    (y + 3) / 4 - (y + 99) / 100 + (y + 399) / 400
  }

  function DaysBeforeYear(y: int): int {
    365 * y + LeapYearsBefore(y)
  }

  /** Days of year y before the first of month m (m = 12 gives the year's length). */
  function DaysBeforeMonth(y: int, m: int): int
    requires 0 <= m <= 12
  {
    [0, 31, 59, 90, 120, 151, 181, 212, 243, 273, 304, 334, 365][m]
      + (if m >= 2 && IsLeapYear(y) then 1 else 0)
  }

  /** Days from 1 January of year 0 to the given calendar day. */
  function DayIndex(y: int, m: int, d: int): int
    requires 0 <= m < 12
  {
    DaysBeforeYear(y) + DaysBeforeMonth(y, m) + d - 1
  }

  function Days(date: Date): int
    requires 0 <= date.month < 12
  {
    DayIndex(date.year, date.month, date.day)
  }

  /** Milliseconds since 1 January of year 0, 00:00:00.000. */
  function Instant(date: Date): int
    requires 0 <= date.month < 12
  {
    Days(date) * MS_PER_DAY + date.ms
  }

  /** Stepping y by one moves the floor count of multiples of 4 past 0 exactly when y is one. */
  lemma DivStep4(y: int)
    ensures (y + 4) / 4 - (y + 3) / 4 == if y % 4 == 0 then 1 else 0
  {
    var q, r := (y + 3) / 4, (y + 3) % 4;
    assert y + 3 == 4 * q + r && 0 <= r < 4;
    if r == 3 {
      assert y + 4 == 4 * (q + 1) && y == 4 * q;
    } else {
      assert y + 4 == 4 * q + (r + 1) && y == 4 * (q - 1) + (r + 1);
    }
  }

  lemma DivStep100(y: int)
    ensures (y + 100) / 100 - (y + 99) / 100 == if y % 100 == 0 then 1 else 0
  {
    var q, r := (y + 99) / 100, (y + 99) % 100;
    assert y + 99 == 100 * q + r && 0 <= r < 100;
    if r == 99 {
      assert y + 100 == 100 * (q + 1) && y == 100 * q;
    } else {
      assert y + 100 == 100 * q + (r + 1) && y == 100 * (q - 1) + (r + 1);
    }
  }

  lemma DivStep400(y: int)
    ensures (y + 400) / 400 - (y + 399) / 400 == if y % 400 == 0 then 1 else 0
  {
    var q, r := (y + 399) / 400, (y + 399) % 400;
    assert y + 399 == 400 * q + r && 0 <= r < 400;
    if r == 399 {
      assert y + 400 == 400 * (q + 1) && y == 400 * q;
    } else {
      assert y + 400 == 400 * q + (r + 1) && y == 400 * (q - 1) + (r + 1);
    }
  }

  lemma MultipleOf100IsMultipleOf4(y: int)
    requires y % 100 == 0
    ensures y % 4 == 0
  {
    var k := y / 100;
    assert y == 4 * (25 * k);
  }

  lemma MultipleOf400IsMultipleOf100(y: int)
    requires y % 400 == 0
    ensures y % 100 == 0
  {
    var k := y / 400;
    assert y == 100 * (4 * k);
  }

  lemma LeapStep(y: int)
    ensures LeapYearsBefore(y + 1) - LeapYearsBefore(y) == if IsLeapYear(y) then 1 else 0
  {
    DivStep4(y);
    DivStep100(y);
    DivStep400(y);
    var a := if y % 4 == 0 then 1 else 0;
    var b := if y % 100 == 0 then 1 else 0;
    var c := if y % 400 == 0 then 1 else 0;
    assert LeapYearsBefore(y + 1) - LeapYearsBefore(y) == a - b + c;
    if y % 100 == 0 {
      MultipleOf100IsMultipleOf4(y);
    }
    if y % 400 == 0 {
      MultipleOf400IsMultipleOf100(y);
    }
  }

  /** Month m+1 of year y starts DaysInMonth(y, m) days after month m does (m = 11 rolls into the next year). */
  lemma NextMonthStart(y: int, m: int)
    requires 0 <= m < 12
    ensures m < 11 ==> DayIndex(y, m + 1, 1) == DayIndex(y, m, 1) + DaysInMonth(y, m)
    ensures m == 11 ==> DayIndex(y + 1, 0, 1) == DayIndex(y, m, 1) + DaysInMonth(y, m)
  {
    if m == 11 {
      LeapStep(y);
    }
  }

  // ---------------------------------------------------------------------------
  // Roll-over of out-of-range days and months

  /** Days before the first of the month move back month by month. */
  function RollBack(y: int, m: int, d: int, ms: int): (r: Date)
    requires 0 <= m < 12 && d <= DaysInMonth(y, m) && 0 <= ms < MS_PER_DAY
    ensures r.Valid() && r.ms == ms
    decreases if d >= 1 then 0 else 1 - d
  {
    if d >= 1 then Date(y, m, d, ms)
    else
      var py := if m == 0 then y - 1 else y;
      var pm := if m == 0 then 11 else m - 1;
      RollBack(py, pm, d + DaysInMonth(py, pm), ms)
  }

  /** Days past the end of the month move forward month by month. */
  function RollForward(y: int, m: int, d: int, ms: int): (r: Date)
    requires 0 <= m < 12 && d >= 1 && 0 <= ms < MS_PER_DAY
    ensures r.Valid() && r.ms == ms
    decreases d
  {
    if d <= DaysInMonth(y, m) then Date(y, m, d, ms)
    else
      var ny := if m == 11 then y + 1 else y;
      var nm := if m == 11 then 0 else m + 1;
      RollForward(ny, nm, d - DaysInMonth(y, m), ms)
  }

  /** Day d of month m of year y, any integer d, counted from the first of that month. */
  function Roll(y: int, m: int, d: int, ms: int): (r: Date)
    requires 0 <= m < 12 && 0 <= ms < MS_PER_DAY
    ensures r.Valid() && r.ms == ms
  {
    if d < 1 then RollBack(y, m, d, ms) else RollForward(y, m, d, ms)
  }

  lemma {:induction false} RollBackDays(y: int, m: int, d: int, ms: int)
    requires 0 <= m < 12 && d <= DaysInMonth(y, m) && 0 <= ms < MS_PER_DAY
    ensures Days(RollBack(y, m, d, ms)) == DayIndex(y, m, 1) + d - 1
    decreases if d >= 1 then 0 else 1 - d
  {
    if d < 1 {
      var py := if m == 0 then y - 1 else y;
      var pm := if m == 0 then 11 else m - 1;
      var back := d + DaysInMonth(py, pm);
      assert RollBack(y, m, d, ms) == RollBack(py, pm, back, ms);
      NextMonthStart(py, pm);
      assert DayIndex(y, m, 1) == DayIndex(py, pm, 1) + DaysInMonth(py, pm);
      RollBackDays(py, pm, back, ms);
    }
  }

  lemma {:induction false} RollForwardDays(y: int, m: int, d: int, ms: int)
    requires 0 <= m < 12 && d >= 1 && 0 <= ms < MS_PER_DAY
    ensures Days(RollForward(y, m, d, ms)) == DayIndex(y, m, 1) + d - 1
    decreases d
  {
    if d > DaysInMonth(y, m) {
      var ny := if m == 11 then y + 1 else y;
      var nm := if m == 11 then 0 else m + 1;
      var rest := d - DaysInMonth(y, m);
      assert RollForward(y, m, d, ms) == RollForward(ny, nm, rest, ms);
      NextMonthStart(y, m);
      assert DayIndex(ny, nm, 1) == DayIndex(y, m, 1) + DaysInMonth(y, m);
      RollForwardDays(ny, nm, rest, ms);
    }
  }

  /** The rolled-over date lies d - 1 days after the first of month m: rolling over never skips or repeats a day. */
  lemma RollDays(y: int, m: int, d: int, ms: int)
    requires 0 <= m < 12 && 0 <= ms < MS_PER_DAY
    ensures Days(Roll(y, m, d, ms)) == DayIndex(y, m, 1) + d - 1
  {
    if d < 1 {
      RollBackDays(y, m, d, ms);
    } else {
      RollForwardDays(y, m, d, ms);
    }
  }

  /** The month m months after month 0 of year y (m may be negative or past 11), as (year, month). */
  function MonthShift(y: int, m: int): (ym: (int, int))
    ensures 0 <= ym.1 < 12
    ensures 12 * ym.0 + ym.1 == 12 * y + m
  {
    (y + m / 12, m % 12)
  }

  /** `new Date(y, m, d)`: local midnight of day d of month m of year y, rolled over. */
  function MakeDate(y: int, m: int, d: int): (r: Date)
    ensures r.Valid() && r.ms == 0
  {
    var ym := MonthShift(y, m);
    Roll(ym.0, ym.1, d, 0)
  }

  /** An in-range day is its own roll-over. */
  lemma RollInRange(y: int, m: int, d: int, ms: int)
    requires 0 <= m < 12 && 1 <= d <= DaysInMonth(y, m) && 0 <= ms < MS_PER_DAY
    ensures Roll(y, m, d, ms) == Date(y, m, d, ms)
  {
  }

  /** `new Date(y, m, 1)` is the first of the rolled-over month. */
  lemma FirstOfMonth(y: int, m: int)
    ensures MakeDate(y, m, 1) == Date(MonthShift(y, m).0, MonthShift(y, m).1, 1, 0)
  {
    var ym := MonthShift(y, m);
    RollInRange(ym.0, ym.1, 1, 0);
  }

  /** Day 0 of a month is the last day of the month before it. */
  lemma DayZeroIsLastOfPreviousMonth(y: int, m: int)
    ensures var prev := MonthShift(y, m - 1);
            MakeDate(y, m, 0) == Date(prev.0, prev.1, DaysInMonth(prev.0, prev.1), 0)
  {
    var cur := MonthShift(y, m);
    var prev := MonthShift(y, m - 1);
    assert 12 * prev.0 + prev.1 + 1 == 12 * cur.0 + cur.1;
    if cur.1 == 0 {
      assert prev == (cur.0 - 1, 11);
    } else {
      assert prev == (cur.0, cur.1 - 1);
    }
  }

  // ---------------------------------------------------------------------------
  // ISO-8601 text (`toISOString`, with the local zone taken as UTC)

  function Two(n: nat): string {
    PadStart(NatToString(n), 2, '0')
  }

  /** Two digits read back as the number they print, for 0..99. */
  lemma ParseTwo(n: nat)
    requires n < 100
    ensures |Two(n)| == 2 && ParseNat(Two(n)) == n
  {
    var s := NatToString(n);
    NatToStringLength(n);
    ParseNatOfNatToString(n);
    if |s| == 1 {
      assert Two(n) == "0" + s;
      assert Two(n)[..1] == "0";
      assert ParseNat("0") == 0 by {
        assert "0"[..0] == [];
      }
    } else {
      assert Two(n) == s;
    }
  }

  /** Four digits for years 0..9999, otherwise a sign and six digits. */
  function YearText(y: int): string {
    if 0 <= y <= 9999 then PadStart(NatToString(y), 4, '0')
    else (if y < 0 then "-" else "+") + PadStart(NatToString(if y < 0 then -y else y), 6, '0')
  }

  /**
   * The "YYYY-MM-DD" part of toISOString: no 'T' anywhere, and for years
   * 0..9999 ten characters with the dashes at 4 and 7.
   */
  function IsoDay(date: Date): (r: string)
    requires date.Valid()
    ensures NoT(r)
    ensures 0 <= date.year <= 9999 ==> |r| == 10 && r[4] == '-' && r[7] == '-'
  {
    var year, month, day := YearText(date.year), Two(date.month + 1), Two(date.day);
    assert NoT(year + "-" + month + "-" + day) by {
      YearTextHasNoT(date.year);
      PaddedDigitsHaveNoT(date.month + 1, 2);
      PaddedDigitsHaveNoT(date.day, 2);
      assert NoT("-");
      NoTConcat(year, "-");
      NoTConcat(year + "-", month);
      NoTConcat(year + "-" + month, "-");
      NoTConcat(year + "-" + month + "-", day);
    }
    if 0 <= date.year <= 9999 then
      assert |year| == 4 && |month| == 2 by {
        FourDigitYear(date.year);
        TwoDigits(date.month + 1);
      }
      assert |day| == 2 by {
        TwoDigits(date.day);
      }
      year + "-" + month + "-" + day
    else year + "-" + month + "-" + day
  }

  function IsoTime(ms: int): string
    requires 0 <= ms < MS_PER_DAY
  {
    Two(ms / 3600000) + ":" + Two(ms / 60000 % 60) + ":" + Two(ms / 1000 % 60) + "."
      + PadStart(NatToString(ms % 1000), 3, '0')
  }

  /**
   * `date.toISOString()`: "YYYY-MM-DDTHH:mm:ss.sssZ"; `split("T")[0]` of it
   * is exactly the calendar-day part.
   */
  function IsoString(date: Date): (r: string)
    requires date.Valid()
    ensures Split(r, 'T')[0] == IsoDay(date)
    ensures r[|r| - 1] == 'Z'
  {
    var day := IsoDay(date);
    assert 'T' !in day;
    SplitAfterPiece(day, 'T', IsoTime(date.ms) + "Z");
    day + ['T'] + (IsoTime(date.ms) + "Z")
  }

  predicate NoT(s: string) {
    forall i :: 0 <= i < |s| ==> s[i] != 'T'
  }

  lemma NoTConcat(a: string, b: string)
    requires NoT(a) && NoT(b)
    ensures NoT(a + b)
  {
    forall i | 0 <= i < |a + b| ensures (a + b)[i] != 'T' {
      if i >= |a| {
        assert (a + b)[i] == b[i - |a|];
      }
    }
  }

  lemma PaddedDigitsHaveNoT(n: nat, width: nat)
    ensures NoT(PadStart(NatToString(n), width, '0'))
  {
    var s := NatToString(n);
    var r := PadStart(s, width, '0');
    forall i | 0 <= i < |r| ensures r[i] != 'T' {
      if i >= |r| - |s| {
        assert r[i] == r[|r| - |s|..][i - (|r| - |s|)];
      }
    }
  }

  lemma YearTextHasNoT(y: int)
    ensures NoT(YearText(y))
  {
    var n := if y < 0 then -y else y;
    if 0 <= y <= 9999 {
      PaddedDigitsHaveNoT(n, 4);
    } else {
      PaddedDigitsHaveNoT(n, 6);
      NoTConcat(if y < 0 then "-" else "+", PadStart(NatToString(n), 6, '0'));
    }
  }

  /** Every character of s[lo..hi] is a decimal digit. */
  predicate DigitsAt(s: string, lo: nat, hi: nat)
    requires lo <= hi <= |s|
  {
    forall i :: lo <= i < hi ==> IsDigit(s[i])
  }

  /**
   * `new Date(text)` for the "YYYY-MM-DD" text a date input holds: midnight
   * of that day. Any other text, or a month or day the calendar does not
   * have, is an invalid date (none).
   */
  function ParseIsoDay(s: string): (r: Option<Date>)
    ensures r.Some? ==> r.value.Valid() && r.value.ms == 0
    ensures r.Some? ==> |s| == 10 && s[4] == '-' && s[7] == '-'
  {
    if |s| == 10 && s[4] == '-' && s[7] == '-' && DigitsAt(s, 0, 4) && DigitsAt(s, 5, 7) && DigitsAt(s, 8, 10) then
      var y, m, d := ParseNat(s[..4]), ParseNat(s[5..7]) - 1, ParseNat(s[8..]);
      if 0 <= m < 12 && 1 <= d <= DaysInMonth(y, m) then Some(Date(y, m, d, 0)) else None
    else None
  }

  /** A year of 0..9999 prints as four digits that read back as the year. */
  lemma FourDigitYear(y: int)
    requires 0 <= y <= 9999
    ensures |YearText(y)| == 4 && DigitsAt(YearText(y), 0, 4) && ParseNat(YearText(y)) == y
  {
    var s := NatToString(y);
    NatToStringLength(y);
    if |s| > 4 {
      Pow10Monotone(4, |s| - 1);
    }
    PaddedNumber(y, 4);
  }

  /** A two-digit field is all digits. */
  lemma TwoDigits(n: nat)
    requires n < 100
    ensures |Two(n)| == 2 && DigitsAt(Two(n), 0, 2) && ParseNat(Two(n)) == n
  {
    ParseTwo(n);
    PaddedNumber(n, 2);
  }

  /** "YYYY-MM-DD" assembled from digit fields has the shape the parser looks for. */
  lemma DayTextShape(year: string, month: string, day: string)
    requires |year| == 4 && |month| == 2 && |day| == 2
    requires DigitsAt(year, 0, 4) && DigitsAt(month, 0, 2) && DigitsAt(day, 0, 2)
    ensures var s := year + "-" + month + "-" + day;
            |s| == 10 && s[4] == '-' && s[7] == '-'
            && DigitsAt(s, 0, 4) && DigitsAt(s, 5, 7) && DigitsAt(s, 8, 10)
            && s[..4] == year && s[5..7] == month && s[8..] == day
  {
    var s := year + "-" + month + "-" + day;
    forall i | 0 <= i < 4 ensures IsDigit(s[i]) {
      assert s[i] == year[i];
    }
    forall i | 5 <= i < 7 ensures IsDigit(s[i]) {
      assert s[i] == month[i - 5];
    }
    forall i | 8 <= i < 10 ensures IsDigit(s[i]) {
      assert s[i] == day[i - 8];
    }
  }

  /** Parsing assembled digit fields reads each field as its number. */
  lemma ParseDayText(year: string, month: string, day: string)
    requires |year| == 4 && |month| == 2 && |day| == 2
    requires DigitsAt(year, 0, 4) && DigitsAt(month, 0, 2) && DigitsAt(day, 0, 2)
    ensures var y, m, d := ParseNat(year), ParseNat(month) - 1, ParseNat(day);
            ParseIsoDay(year + "-" + month + "-" + day)
            == if 0 <= m < 12 && 1 <= d <= DaysInMonth(y, m) then Some(Date(y, m, d, 0)) else None
  {
    DayTextShape(year, month, day);
  }

  /** The day part of a date of years 0..9999 reads back as midnight of that very day. */
  lemma ParseIsoDayOfIsoDay(date: Date)
    requires date.Valid() && 0 <= date.year <= 9999
    ensures ParseIsoDay(IsoDay(date)) == Some(Date(date.year, date.month, date.day, 0))
  {
    var year, month, day := YearText(date.year), Two(date.month + 1), Two(date.day);
    var y, m, d := ParseNat(year), ParseNat(month) - 1, ParseNat(day);
    assert |year| == 4 && DigitsAt(year, 0, 4) && y == date.year by {
      FourDigitYear(date.year);
    }
    assert |month| == 2 && DigitsAt(month, 0, 2) && m == date.month by {
      TwoDigits(date.month + 1);
    }
    assert |day| == 2 && DigitsAt(day, 0, 2) && d == date.day by {
      TwoDigits(date.day);
    }
    ParseDayText(year, month, day);
    assert IsoDay(date) == year + "-" + month + "-" + day;
  }

  // ---------------------------------------------------------------------------
  // The mutable JavaScript Date object

  /** A JavaScript `Date` whose fields the dashboard changes with setHours and setDate. */
  class JsDate {
    var year: int
    var month: int
    var day: int
    var ms: int

    function Value(): Date
      reads this
    {
      Date(year, month, day, ms)
    }

    /** `new Date()` read at the instant `now`. */
    constructor At(now: Date)
      ensures Value() == now
    {
      year, month, day, ms := now.year, now.month, now.day, now.ms;
    }

    /** `new Date(y, m, d)`. */
    constructor Of(y: int, m: int, d: int)
      ensures Value() == MakeDate(y, m, d)
    {
      var r := MakeDate(y, m, d);
      year, month, day, ms := r.year, r.month, r.day, r.ms;
    }

    /** `setHours(h, min, s, milli)` with in-range arguments: only the time of day changes. */
    method SetHours(h: int, min: int, s: int, milli: int)
      requires 0 <= h < 24 && 0 <= min < 60 && 0 <= s < 60 && 0 <= milli < 1000
      modifies this
      ensures Value() == old(Value()).(ms := h * 3600000 + min * 60000 + s * 1000 + milli)
    {
      ms := h * 3600000 + min * 60000 + s * 1000 + milli;
    }

    /** `setDate(d)`: day d of the current month, rolled over; the time of day is kept. */
    method SetDate(d: int)
      requires Value().Valid()
      modifies this
      ensures Value() == Roll(old(year), old(month), d, old(ms))
    {
      var r := Roll(year, month, d, ms);
      year, month, day := r.year, r.month, r.day;
    }
  }
}
