/** The proleptic Gregorian calendar in the form Python's `datetime.date` uses it:
    civil dates (year, month, day), the day ordinal (0001-01-01 is day 1, as in
    `date.toordinal`), day arithmetic, `date.weekday()` (Monday is 0) and the
    ISO 8601 week number that `date.isocalendar()` reports (ISO 8601:2004,
    section 4.1.4, week dates). Only integers are used. */
module CivilDate {

  predicate IsLeapYear(y: int) {
    y % 4 == 0 && (y % 100 != 0 || y % 400 == 0)
  }

  function DaysInYear(y: int): (n: int)
    ensures n == 365 || n == 366
    ensures n == 366 <==> IsLeapYear(y)
  {
    if IsLeapYear(y) then 366 else 365
  }

  function DaysInMonth(y: int, m: int): (n: int)
    requires 1 <= m <= 12
    ensures 28 <= n <= 31
    ensures n == 29 <==> m == 2 && IsLeapYear(y)
  {
    if m == 2 then (if IsLeapYear(y) then 29 else 28)
    else if m == 4 || m == 6 || m == 9 || m == 11 then 30
    else 31
  }

  datatype Date = Date(year: int, month: int, day: int) {
    /** A date that exists in the calendar (Python's `date(y, m, d)` accepts it). */
    predicate Valid() {
      1 <= month <= 12 && 1 <= day <= DaysInMonth(year, month)
    }
  }

  type ValidDate = d: Date | d.Valid() witness Date(1, 1, 1)

  /** Number of days in all years before year `y`, counted from 0001-01-01. */
  function DaysBeforeYear(y: int): int {
    var k := y - 1;
    365 * k + k / 4 - k / 100 + k / 400
  }

  /** Number of days in the months of year `y` before month `m` (m == 13: the whole year). */
  function DaysBeforeMonth(y: int, m: int): int
    requires 1 <= m <= 13
  {
    var cumulative := [0, 31, 59, 90, 120, 151, 181, 212, 243, 273, 304, 334, 365];
    cumulative[m - 1] + (if m > 2 && IsLeapYear(y) then 1 else 0)
  }

  /** Stepping the dividend by one steps the quotient exactly when it reaches a multiple. */
  lemma QuotientStep(k: int, c: int)
    requires c == 4 || c == 100 || c == 400
    ensures (k + 1) / c - k / c == (if (k + 1) % c == 0 then 1 else 0)
  {
    var q, r := k / c, k % c;
    assert k == c * q + r && 0 <= r < c;
    if r == c - 1 {
      assert k + 1 == c * (q + 1);
    } else {
      assert k + 1 == c * q + (r + 1);
    }
  }

  /** A multiple of 400 is a multiple of 100, and a multiple of 100 is a multiple of 4. */
  lemma MultipleChain(y: int)
    ensures y % 400 == 0 ==> y % 100 == 0
    ensures y % 100 == 0 ==> y % 4 == 0
  {
    var q, r := y / 400, y % 400;
    assert y == 400 * q + r && 0 <= r < 400;
    assert y == 100 * (4 * q + r / 100) + r % 100;
    var p, t := y / 100, y % 100;
    assert y == 100 * p + t && 0 <= t < 100;
    assert y == 4 * (25 * p + t / 4) + t % 4;
  }

  lemma YearStep(y: int)
    ensures DaysBeforeYear(y + 1) == DaysBeforeYear(y) + DaysInYear(y)
  {
    var k := y - 1;
    QuotientStep(k, 4);
    QuotientStep(k, 100);
    QuotientStep(k, 400);
    MultipleChain(y);
    assert k + 1 == y;
  }

  lemma MonthStep(y: int, m: int)
    requires 1 <= m <= 12
    ensures DaysBeforeMonth(y, m + 1) == DaysBeforeMonth(y, m) + DaysInMonth(y, m)
    ensures DaysBeforeMonth(y, 1) == 0 && DaysBeforeMonth(y, 13) == DaysInYear(y)
  {
  }

  /** Later years start later: the first day of year y2 is past all of year y1 when y1 < y2. */
  lemma {:induction false} YearsOrdered(y1: int, y2: int)
    requires y1 < y2
    ensures DaysBeforeYear(y1 + 1) <= DaysBeforeYear(y2)
    decreases y2 - y1
  {
    if y1 + 1 < y2 {
      YearsOrdered(y1 + 1, y2);
      YearStep(y1 + 1);
    }
  }

  /** Months of one year in order: month m1 ends no later than month m2 starts when m1 < m2. */
  lemma MonthsOrdered(y: int, m1: int, m2: int)
    requires 1 <= m1 < m2 <= 13
    ensures DaysBeforeMonth(y, m1 + 1) <= DaysBeforeMonth(y, m2)
  {
  }

  /** `date.toordinal()`: 0001-01-01 is day 1. */
  function ToOrdinal(d: ValidDate): (n: int)
    ensures DaysBeforeYear(d.year) < n <= DaysBeforeYear(d.year + 1)
  {
    MonthStep(d.year, d.month);
    MonthsOrdered(d.year, d.month, 13);
    YearStep(d.year);
    DaysBeforeYear(d.year) + DaysBeforeMonth(d.year, d.month) + d.day
  }

  function YearUp(n: int, y: int): (r: int)
    requires DaysBeforeYear(y) < n
    ensures DaysBeforeYear(r) < n <= DaysBeforeYear(r + 1)
    decreases n - DaysBeforeYear(y)
  {
    YearStep(y);
    if n <= DaysBeforeYear(y + 1) then y else YearUp(n, y + 1)
  }

  function YearDown(n: int, y: int): (r: int)
    requires n <= DaysBeforeYear(y + 1)
    ensures DaysBeforeYear(r) < n <= DaysBeforeYear(r + 1)
    decreases DaysBeforeYear(y + 1) - n
  {
    YearStep(y);
    if DaysBeforeYear(y) < n then y else YearDown(n, y - 1)
  }

  /** The year that holds day ordinal n. */
  function YearOfOrdinal(n: int): (y: int)
    ensures DaysBeforeYear(y) < n <= DaysBeforeYear(y + 1)
  {
    if n > 0 then YearUp(n, 1) else YearDown(n, 0)
  }

  /** The month of year y that holds day r of that year (1 <= r <= DaysInYear(y)). */
  function MonthOfDayOfYear(y: int, r: int, m: int): (res: int)
    requires 1 <= m <= 12
    requires DaysBeforeMonth(y, m) < r <= DaysInYear(y)
    ensures m <= res <= 12
    ensures DaysBeforeMonth(y, res) < r <= DaysBeforeMonth(y, res + 1)
    decreases 12 - m
  {
    MonthStep(y, m);
    if r <= DaysBeforeMonth(y, m + 1) then m else MonthOfDayOfYear(y, r, m + 1)
  }

  /** Every day ordinal is the ordinal of a valid date: the year holding it, the month of that
      year holding it, and the day within that month. */
  lemma OrdinalHasDate(n: int)
    ensures exists d: ValidDate :: ToOrdinal(d) == n
  {
    var y := YearOfOrdinal(n);
    YearStep(y);
    MonthStep(y, 1);
    var r := n - DaysBeforeYear(y);
    var m := MonthOfDayOfYear(y, r, 1);
    MonthStep(y, m);
    var d: ValidDate := Date(y, m, r - DaysBeforeMonth(y, m));
    assert ToOrdinal(d) == n;
  }

  /** `date.fromordinal(n)`: the one valid date whose ordinal is n. */
  function FromOrdinal(n: int): (d: ValidDate)
    ensures ToOrdinal(d) == n
  {
    OrdinalHasDate(n);
    OrdinalsDistinguish();
    var d: ValidDate :| ToOrdinal(d) == n;
    d
  }

  /** The ordinal tells valid dates apart. */
  lemma OrdinalsDistinguish()
    ensures forall a: ValidDate, b: ValidDate :: ToOrdinal(a) == ToOrdinal(b) ==> a == b
  {
    forall a: ValidDate, b: ValidDate | ToOrdinal(a) == ToOrdinal(b)
      ensures a == b
    {
      OrdinalInjective(a, b);
    }
  }

  /** Two valid dates with the same ordinal are the same date. */
  lemma OrdinalInjective(a: ValidDate, b: ValidDate)
    requires ToOrdinal(a) == ToOrdinal(b)
    ensures a == b
  {
    if a.year < b.year {
      YearsOrdered(a.year, b.year);
      assert false;
    } else if b.year < a.year {
      YearsOrdered(b.year, a.year);
      assert false;
    }
    MonthStep(a.year, a.month);
    MonthStep(b.year, b.month);
    if a.month < b.month {
      MonthsOrdered(a.year, a.month, b.month);
      assert false;
    } else if b.month < a.month {
      MonthsOrdered(a.year, b.month, a.month);
      assert false;
    }
  }

  /** Python compares dates field by field: year, then month, then day. */
  predicate CalendarLess(a: Date, b: Date) {
    a.year < b.year || (a.year == b.year && (a.month < b.month || (a.month == b.month && a.day < b.day)))
  }

  /** The day ordinal orders valid dates the way the calendar does. */
  lemma OrdinalOrder(a: ValidDate, b: ValidDate)
    ensures ToOrdinal(a) < ToOrdinal(b) <==> CalendarLess(a, b)
  {
    if a.year < b.year {
      YearsOrdered(a.year, b.year);
    } else if b.year < a.year {
      YearsOrdered(b.year, a.year);
    } else {
      MonthStep(a.year, a.month);
      MonthStep(b.year, b.month);
      if a.month < b.month {
        MonthsOrdered(a.year, a.month, b.month);
      } else if b.month < a.month {
        MonthsOrdered(a.year, b.month, a.month);
      }
    }
  }

  lemma FromToOrdinal(d: ValidDate)
    ensures FromOrdinal(ToOrdinal(d)) == d
  {
    OrdinalInjective(FromOrdinal(ToOrdinal(d)), d);
  }

  /** `d + timedelta(days=n)` (also `d + relativedelta(days=n)`). */
  function AddDays(d: ValidDate, n: int): (r: ValidDate)
    ensures ToOrdinal(r) == ToOrdinal(d) + n
  {
    FromOrdinal(ToOrdinal(d) + n)
  }

  /** `(a - b).days`. */
  function DaysBetween(a: ValidDate, b: ValidDate): int {
    ToOrdinal(a) - ToOrdinal(b)
  }

  /** `date.weekday()`: Monday is 0, Sunday is 6. */
  function Weekday(d: ValidDate): (w: int)
    ensures 0 <= w <= 6
  {
    (ToOrdinal(d) + 6) % 7
  }

  /** Adding to a number shifts its remainder modulo 7 by the same amount. */
  lemma ModSevenAdd(a: int, b: int)
    ensures (a + b) % 7 == (a % 7 + b) % 7
  {
    var q := a / 7;
    assert a == 7 * q + a % 7;
    assert a + b == 7 * q + (a % 7 + b);
  }

  lemma WeekdayAddDays(d: ValidDate, n: int)
    ensures Weekday(AddDays(d, n)) == (Weekday(d) + n) % 7
  {
    ModSevenAdd(ToOrdinal(d) + 6, n);
  }

  /** The Monday of ISO week 1 of a year whose January 1st has ordinal `first`. */
  function WeekOneMondayFrom(first: int): (m: int)
    ensures (m + 6) % 7 == 0
    ensures m <= first + 3 <= m + 6
    ensures first - 3 <= m <= first + 3
  {
    var firstWeekday := (first + 6) % 7;
    var monday := first - firstWeekday;
    assert monday + 6 == 7 * ((first + 6) / 7);
    assert monday + 13 == 7 * ((first + 6) / 7 + 1);
    if firstWeekday > 3 then monday + 7 else monday
  }

  /** The ordinal of the Monday that starts ISO week 1 of year y: the week holding January 4th. */
  function IsoWeekOneMonday(y: int): (m: int)
    ensures (m + 6) % 7 == 0
    ensures m <= ToOrdinal(Date(y, 1, 4)) <= m + 6
    ensures ToOrdinal(Date(y, 1, 1)) - 3 <= m <= ToOrdinal(Date(y, 1, 1)) + 3
  {
    var first := ToOrdinal(Date(y, 1, 1));
    assert ToOrdinal(Date(y, 1, 4)) == first + 3;
    WeekOneMondayFrom(first)
  }

  /** Two Mondays are a whole number of weeks apart. */
  lemma MondaysApart(a: int, b: int)
    requires (a + 6) % 7 == 0 && (b + 6) % 7 == 0
    ensures (b - a) % 7 == 0
  {
    var p, q := (a + 6) / 7, (b + 6) / 7;
    assert a + 6 == 7 * p && b + 6 == 7 * q;
    assert b - a == 7 * (q - p);
  }

  lemma WeekOneMondaysApart(first1: int, first2: int)
    requires first2 - first1 == 365 || first2 - first1 == 366
    ensures WeekOneMondayFrom(first2) - WeekOneMondayFrom(first1) == 364
         || WeekOneMondayFrom(first2) - WeekOneMondayFrom(first1) == 371
  {
    MondaysApart(WeekOneMondayFrom(first1), WeekOneMondayFrom(first2));
  }

  /** ISO week 1 of year y + 1 starts 52 or 53 weeks after ISO week 1 of year y. */
  lemma IsoYearLength(y: int)
    ensures IsoWeekOneMonday(y + 1) - IsoWeekOneMonday(y) == 364
         || IsoWeekOneMonday(y + 1) - IsoWeekOneMonday(y) == 371
  {
    YearStep(y);
    var first1, first2 := ToOrdinal(Date(y, 1, 1)), ToOrdinal(Date(y + 1, 1, 1));
    assert first2 == first1 + DaysInYear(y);
    WeekOneMondaysApart(first1, first2);
  }

  /** The arithmetic behind the week number: with consecutive ISO years 52 or 53 weeks long
      and `today` at most 3 days before the current ISO year starts, each branch of
      `isocalendar` yields a week between 1 and 53. */
  lemma IsoWeekArithmetic(today: int, prior: int, monday: int, next: int)
    requires monday - prior == 364 || monday - prior == 371
    requires next - monday == 364 || next - monday == 371
    requires today >= monday - 3
    ensures (today - monday) / 7 < 0 ==> 1 <= (today - prior) / 7 + 1 <= 53
    ensures 0 <= (today - monday) / 7 && ((today - monday) / 7 < 52 || today < next)
            ==> (today - monday) / 7 + 1 <= 53
  {
  }

  /** Counting days from any Monday gives the weekday. */
  lemma DaysFromMonday(today: int, monday: int)
    requires (monday + 6) % 7 == 0
    ensures (today - monday) % 7 == (today + 6) % 7
  {
    ModSevenAdd(monday + 6, today - monday);
    assert monday + 6 + (today - monday) == today + 6;
  }

  /** The week-number computation of `isocalendar` on ordinals: `today`, and the Mondays that
      start ISO week 1 of the previous, the current and the next calendar year. */
  function IsoWeekFromOrdinals(year: int, today: int, prior: int, monday: int, next: int): (r: (int, int, int))
    requires monday - prior == 364 || monday - prior == 371
    requires next - monday == 364 || next - monday == 371
    requires (prior + 6) % 7 == 0 && (monday + 6) % 7 == 0
    requires today >= monday - 3
    ensures 1 <= r.1 <= 53
    ensures r.2 == (today + 6) % 7 + 1
  {
    IsoWeekArithmetic(today, prior, monday, next);
    DaysFromMonday(today, monday);
    DaysFromMonday(today, prior);
    var week := (today - monday) / 7;
    if week < 0 then
      (year - 1, (today - prior) / 7 + 1, (today - prior) % 7 + 1)
    else if week >= 52 && today >= next then
      (year + 1, 1, (today - monday) % 7 + 1)
    else
      (year, week + 1, (today - monday) % 7 + 1)
  }

  /** `date.isocalendar()`: (ISO year, ISO week number, ISO weekday 1..7), computed the way CPython does. */
  function IsoCalendar(d: ValidDate): (r: (int, int, int))
    ensures 1 <= r.1 <= 53
    ensures r.2 == Weekday(d) + 1
  {
    IsoCalendarInputs(d.year, ToOrdinal(d));
    IsoWeekFromOrdinals(d.year, ToOrdinal(d), IsoWeekOneMonday(d.year - 1), IsoWeekOneMonday(d.year), IsoWeekOneMonday(d.year + 1))
  }

  /** ISO week 1 of the years before and after year y starts 52 or 53 weeks away. */
  lemma IsoWeekGaps(y: int)
    ensures IsoWeekOneMonday(y) - IsoWeekOneMonday(y - 1) == 364 || IsoWeekOneMonday(y) - IsoWeekOneMonday(y - 1) == 371
    ensures IsoWeekOneMonday(y + 1) - IsoWeekOneMonday(y) == 364 || IsoWeekOneMonday(y + 1) - IsoWeekOneMonday(y) == 371
  {
    IsoYearLength(y - 1);
    IsoYearLength(y);
  }

  /** A day of year y, and the Mondays starting ISO week 1 of years y - 1, y and y + 1,
      meet what the week-number computation needs. */
  lemma IsoCalendarInputs(y: int, today: int)
    requires DaysBeforeYear(y) < today
    ensures IsoWeekOneMonday(y) - IsoWeekOneMonday(y - 1) == 364 || IsoWeekOneMonday(y) - IsoWeekOneMonday(y - 1) == 371
    ensures IsoWeekOneMonday(y + 1) - IsoWeekOneMonday(y) == 364 || IsoWeekOneMonday(y + 1) - IsoWeekOneMonday(y) == 371
    ensures (IsoWeekOneMonday(y - 1) + 6) % 7 == 0 && (IsoWeekOneMonday(y) + 6) % 7 == 0
    ensures today >= IsoWeekOneMonday(y) - 3
  {
    IsoWeekGaps(y);
    MonthStep(y, 1);
    assert ToOrdinal(Date(y, 1, 1)) == DaysBeforeYear(y) + 1;
  }

  function IsoWeek(d: ValidDate): (w: int)
    ensures 1 <= w <= 53
  {
    IsoCalendar(d).1
  }
}
