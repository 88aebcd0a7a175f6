/** The garbage-collection sensor entity: the calendar arithmetic that finds the next
    collection date of a schedule (the n-th weekday or week of a month, every n days, once a
    year, weekly patterns on ISO week numbers, holidays, excluded and included dates, a range
    of months) and the entity's sorted list of collection dates, from which it derives its
    state and icon. The wall clock, the holiday calendar, the text rendering of dates and the
    members of a group schedule are parameters. */
module Sensor {
  import opened PyValues
  import opened CivilDate
  import opened DateText
  import ConfigFlow

  /** The month names of the integration's `MONTH_OPTIONS`, January first. */
  const MONTH_OPTIONS: seq<string> :=
    ["jan", "feb", "mar", "apr", "may", "jun", "jul", "aug", "sep", "oct", "nov", "dec"]

  /** The verbose states for a collection today and tomorrow (`STATE_TODAY`, `STATE_TOMORROW`). */
  const STATE_TODAY: string := "today"
  const STATE_TOMORROW: string := "tomorrow"

  /** A time of day in microseconds since midnight, the resolution of `datetime.time`. */
  type TimeOfDay = t: int | 0 <= t < 86_400_000_000

  /** `time(23, 59, 59)`, the expiry of a collection day when none is configured. */
  const END_OF_DAY: TimeOfDay := 86_399_000_000

  /** A `datetime`: a date and a time of day (time zones are not modelled). */
  datatype Moment = Moment(date: ValidDate, time: TimeOfDay)

  /** A date as it may appear in a configuration: missing, a `date`, a `datetime`, text, or
      a value of some other type. */
  datatype Item = NoItem | DateItem(date: ValidDate) | MomentItem(moment: Moment) | TextItem(text: string) | OtherItem

  /** The result of a search that may not end: its outcome, or the search ran out of fuel. */
  datatype Bounded<+T> = Finished(outcome: Outcome<T>) | OutOfFuel

  /** The state an entity shows: a number of days or a text. */
  datatype SensorState = Count(n: int) | Text(text: string)

  /** `xs.index(x)`: the position of the first occurrence. */
  function IndexOf<T(==)>(xs: seq<T>, x: T): (i: int)
    requires x in xs
    ensures 0 <= i < |xs| && xs[i] == x
    ensures forall j :: 0 <= j < i ==> xs[j] != x
  {
    if xs[0] == x then 0 else 1 + IndexOf(xs[1..], x)
  }

  /** Dates ordered as Python orders them (`a <= b`). */
  predicate NotAfter(a: Date, b: Date) {
    !CalendarLess(b, a)
  }

  /** Python's `divmod(a, b)` for a non-zero divisor: the quotient is rounded down and
      the remainder takes the divisor's sign. */
  function PyDivMod(a: int, b: int): (r: (int, int))
    requires b != 0
    ensures a == r.0 * b + r.1
    ensures b > 0 ==> 0 <= r.1 < b
    ensures b < 0 ==> b < r.1 <= 0
  {
    if b > 0 then (a / b, a % b)
    else if a % (-b) == 0 then (-(a / (-b)), 0)
    else (-(a / (-b)) - 1, a % (-b) + b)
  }

  /** Python's `a % b`: the remainder of `divmod`, with the divisor's sign. */
  function PyMod(a: int, b: int): int
    requires b != 0
  {
    if b > 0 then a % b
    else if a % (-b) == 0 then 0
    else a % (-b) + b
  }

  lemma PyModOfDivMod(a: int, b: int)
    requires b != 0
    ensures PyMod(a, b) == PyDivMod(a, b).1
  {
  }

  function Times(q: int, p: int): int {
    q * p
  }

  /** a is a whole number of periods p. */
  ghost predicate Divides(p: int, a: int) {
    exists q :: a == Times(q, p)
  }

  /** Python's `a % p == 0` says that a is a whole number of periods. */
  lemma PyModZero(a: int, p: int)
    requires p != 0
    ensures PyMod(a, p) == 0 <==> Divides(p, a)
  {
    if PyMod(a, p) == 0 {
      var (q, r) := PyDivMod(a, p);
      PyModOfDivMod(a, p);
      assert a == Times(q, p);
    }
    if Divides(p, a) {
      var q :| a == Times(q, p);
      ModOfMultiple(q, p);
    }
  }

  /** A whole number of periods leaves no remainder. */
  lemma ModOfMultiple(k: int, p: int)
    requires p != 0
    ensures PyMod(k * p, p) == 0
  {
    var (q, r) := PyDivMod(k * p, p);
    PyModOfDivMod(k * p, p);
    assert (k - q) * p == r;
    if k - q >= 1 {
      MultipleAtLeast(k - q, p);
    } else if k - q <= -1 {
      MultipleAtLeast(q - k, p);
    }
  }

  /** At least one period, counted in either direction, is at least as large as the period. */
  lemma MultipleAtLeast(d: int, p: int)
    requires d >= 1 && p != 0
    ensures p > 0 ==> d * p >= p
    ensures p < 0 ==> d * p <= p
  {
    if d > 1 {
      MultipleAtLeast(d - 1, p);
      assert d * p == (d - 1) * p + p;
    }
  }

  // ---------------------------------------------------------------------------------------
  // Converting configured dates: `to_date` and `to_dates`
  // ---------------------------------------------------------------------------------------

  /** `to_date(day)`, as the code is evidently meant to work: None raises ValueError, a date is
      kept, a datetime gives its date, text must be an ISO 8601 calendar date YYYY-MM-DD
      (ValueError otherwise) and any other value raises TypeError. */
  function ToDate(v: Item): (r: Outcome<ValidDate>)
    ensures r.Raised? ==> r.error == ValueError || r.error == TypeError
    ensures r == Raised(TypeError) <==> v.OtherItem?
    ensures v.NoItem? ==> r == Raised(ValueError)
    ensures v.DateItem? ==> r == Ok(v.date)
    ensures v.MomentItem? ==> r == Ok(v.moment.date)
    ensures v.TextItem? ==> (r.Ok? <==> ParseIso(v.text).Some?)
    ensures v.TextItem? && r.Ok? ==> InPythonRange(r.value) && FormatIso(r.value) == v.text
  {
    match v
    case NoItem => Raised(ValueError)
    case DateItem(d) => Ok(d)
    case MomentItem(m) => Ok(m.date)
    case TextItem(s) =>
      (match ParseIso(s)
       case Some(d) => FormatParseIso(s); Ok(d)
       case None => Raised(ValueError))
    case OtherItem => Raised(TypeError)
  }

  /** `to_date(day)` as written: a datetime is an instance of `date`, so the first
      `isinstance` test returns it unchanged and the branch that takes its date is never
      reached. The result is the value that `to_date` returns. */
  function ToDateAsWritten(v: Item): (r: Outcome<Item>)
    ensures r.Ok? ==> r.value.DateItem? || r.value.MomentItem?
    ensures r.Raised? <==> ToDate(v).Raised?
  {
    match v
    case NoItem => Raised(ValueError)
    case DateItem(_) => Ok(v)
    case MomentItem(_) => Ok(v)
    case TextItem(s) =>
      (match ParseIso(s)
       case Some(d) => Ok(DateItem(d))
       case None => Raised(ValueError))
    case OtherItem => Raised(TypeError)
  }

  /** A datetime passes through `to_date` as written still a datetime, not a date. */
  lemma MomentPassesUnconverted(m: Moment)
    ensures ToDateAsWritten(MomentItem(m)) == Ok(MomentItem(m))
    ensures ToDate(MomentItem(m)) == Ok(m.date)
  {
  }

  /** The dates of the values that convert, in list order, read from the front. */
  function Converted(items: seq<Item>): seq<ValidDate> {
    if items == [] then []
    else (if ToDate(items[0]).Ok? then [ToDate(items[0]).value] else []) + Converted(items[1..])
  }

  /** Converting one more value at the end. */
  lemma {:induction false} ConvertedSnoc(items: seq<Item>, x: Item)
    ensures Converted(items + [x]) == Converted(items) + (if ToDate(x).Ok? then [ToDate(x).value] else [])
    decreases |items|
  {
    if items == [] {
      assert [x][1..] == [];
    } else {
      assert (items + [x])[0] == items[0];
      assert (items + [x])[1..] == items[1..] + [x];
      ConvertedSnoc(items[1..], x);
    }
  }

  /** Every converted date comes from a value of the list, and there are no more dates than
      values. */
  lemma {:induction false} ConvertedBounds(items: seq<Item>)
    ensures |Converted(items)| <= |items|
    ensures forall x :: x in Converted(items) ==> exists i :: 0 <= i < |items| && ToDate(items[i]) == Ok(x)
    decreases |items|
  {
    if items != [] {
      ConvertedBounds(items[1..]);
    }
    forall x | x in Converted(items)
      ensures exists i :: 0 <= i < |items| && ToDate(items[i]) == Ok(x)
    {
      ConvertedMembers(items, x);
    }
  }

  /** `to_dates(dates)` on a list: the values that convert, in order; values that raise
      ValueError are skipped and the first TypeError escapes. */
  function ToDates(items: seq<Item>): (r: Outcome<seq<ValidDate>>)
    ensures r.Raised? <==> exists i :: 0 <= i < |items| && items[i].OtherItem?
    ensures r.Raised? ==> r.error == TypeError
    ensures r.Ok? ==> r.value == Converted(items)
    ensures r.Ok? ==> |r.value| <= |items|
    ensures r.Ok? ==> forall x :: x in r.value ==> exists i :: 0 <= i < |items| && ToDate(items[i]) == Ok(x)
  {
    ConvertedBounds(items);
    if items == [] then Ok([])
    else
      var init := items[..|items| - 1];
      assert forall i :: 0 <= i < |init| ==> init[i] == items[i];
      match ToDates(init)
      case Raised(e) => Raised(e)
      case Ok(done) =>
        ConvertedSnoc(init, items[|items| - 1]);
        assert init + [items[|items| - 1]] == items;
        match ToDate(items[|items| - 1])
        case Ok(d) => Ok(done + [d])
        case Raised(e) => if e == TypeError then Raised(TypeError) else Ok(done)
  }

  /** Converting a list with one more value at the end: the step of the loop in `to_dates`. */
  lemma ToDatesSnoc(items: seq<Item>, x: Item)
    ensures ToDates(items + [x]) ==
              match ToDates(items)
              case Raised(e) => Raised(e)
              case Ok(done) =>
                match ToDate(x)
                case Ok(d) => Ok(done + [d])
                case Raised(e) => if e == TypeError then Raised(TypeError) else Ok(done)
  {
    assert (items + [x])[..|items|] == items;
  }

  /** A value is kept exactly when it converts: every value of a list without another type
      either appears, converted, or raised ValueError. */
  lemma {:induction false} ConvertedMembers(items: seq<Item>, x: ValidDate)
    ensures x in Converted(items) <==> exists i :: 0 <= i < |items| && ToDate(items[i]) == Ok(x)
    decreases |items|
  {
    if items != [] {
      ConvertedMembers(items[1..], x);
      if exists i :: 0 <= i < |items| && ToDate(items[i]) == Ok(x) {
        var i :| 0 <= i < |items| && ToDate(items[i]) == Ok(x);
        if i > 0 {
          assert items[1..][i - 1] == items[i];
        }
      }
      if exists i :: 0 <= i < |items[1..]| && ToDate(items[1..][i]) == Ok(x) {
        var i :| 0 <= i < |items[1..]| && ToDate(items[1..][i]) == Ok(x);
        assert items[i + 1] == items[1..][i];
      }
    }
  }

  /** A value that converts keeps its place: the converted list of a list with one more value. */
  lemma {:induction false} ToDatesKeepsDates(items: seq<Item>, d: ValidDate)
    requires ToDates(items).Ok?
    ensures ToDates(items + [DateItem(d)]) == Ok(ToDates(items).value + [d])
  {
    assert (items + [DateItem(d)])[..|items|] == items;
  }

  /** `to_dates(v)`, with None standing for a stored None (iterating it raises TypeError). */
  method ConvertDates(items: Option<seq<Item>>) returns (r: Outcome<seq<ValidDate>>)
    ensures items.None? ==> r == Raised(TypeError)
    ensures items.Some? ==> r == ToDates(items.value)
  {
    if items.None? {
      return Raised(TypeError);
    }
    var values := items.value;
    var converted: seq<ValidDate> := [];
    for i := 0 to |values|
      invariant ToDates(values[..i]) == Ok(converted)
    {
      assert values[..i + 1] == values[..i] + [values[i]];
      ToDatesSnoc(values[..i], values[i]);
      var d := ToDate(values[i]);
      if d.Ok? {
        converted := converted + [d.value];
      } else if d.error != ValueError {
        assert values[i].OtherItem?;
        return Raised(d.error);
      }
    }
    assert values[..|values|] == values;
    return Ok(converted);
  }

  // ---------------------------------------------------------------------------------------
  // The configuration of an entity and what `__init__` derives from it
  // ---------------------------------------------------------------------------------------

  /** The configuration entries `__init__` reads. A missing entry with a default holds its
      default (no include or exclude dates, a holiday offset of 1, an offset of 0); None in an
      optional entry is a stored None. */
  datatype RawConfig = RawConfig(
    frequency: string,
    collectionDays: Option<seq<string>>,
    firstMonth: Option<string>,
    lastMonth: Option<string>,
    weekdayOrderNumbers: Option<seq<int>>,
    weekOrderNumbers: Option<seq<int>>,
    includeDates: Option<seq<Item>>,
    excludeDates: Option<seq<Item>>,
    holidayMoveOffset: Option<int>,
    holidayInWeekMove: bool,
    period: Option<int>,
    firstWeek: Option<int>,
    firstDate: Item,
    annualDate: Option<string>,
    verboseState: bool,
    offset: Option<int>,
    iconNormal: Option<string>,
    iconToday: Option<string>,
    iconTomorrow: Option<string>,
    expireAfter: Option<TimeOfDay>,
    entities: Option<seq<string>>)

  /** The schedule an entity works from once `__init__` has derived its fields. */
  datatype Settings = Settings(
    frequency: string,
    collectionDays: Option<seq<string>>,
    firstMonth: int,
    lastMonth: int,
    weekdayOrderNumbers: Option<seq<int>>,
    weekOrderNumbers: Option<seq<int>>,
    forceWeekNumbers: bool,
    includeDates: seq<ValidDate>,
    excludeDates: seq<ValidDate>,
    holidayMoveOffset: Option<int>,
    holidayInWeekMove: bool,
    period: Option<int>,
    firstWeek: Option<int>,
    firstDate: Option<ValidDate>,
    annualDate: Option<string>,
    verboseState: bool,
    offset: Option<int>,
    iconNormal: Option<string>,
    iconToday: Option<string>,
    iconTomorrow: Option<string>,
    expireAfter: Option<TimeOfDay>,
    entities: Option<seq<string>>)

  /** Settings whose month range is made of real months. */
  type Schedule = s: Settings | 1 <= s.firstMonth <= 12 && 1 <= s.lastMonth <= 12
    witness Settings("blank", None, 1, 12, None, None, false, [], [], Some(1), false, None, None,
                     None, None, false, Some(0), None, None, None, None, None)

  /** The first or last month of the range: the position of the configured name in
      `MONTH_OPTIONS` counted from 1, or `fallback` when the name is not one of them. */
  function MonthNumber(v: Option<string>, fallback: int): (m: int)
    ensures v.Some? && v.value in MONTH_OPTIONS ==> 1 <= m <= 12 && MONTH_OPTIONS[m - 1] == v.value
    ensures !(v.Some? && v.value in MONTH_OPTIONS) ==> m == fallback
    ensures 1 <= fallback <= 12 ==> 1 <= m <= 12
  {
    if v.Some? && v.value in MONTH_OPTIONS then IndexOf(MONTH_OPTIONS, v.value) + 1 else fallback
  }

  /** What `__init__` derives: months default to January and December, week numbers are
      forced exactly when a non-empty week-number list is configured, the date lists are
      converted, and a first date that does not convert with ValueError becomes None. A
      TypeError from a conversion escapes. */
  function Derive(raw: RawConfig): (r: Outcome<Schedule>)
    ensures r.Ok? ==> r.value.firstMonth == MonthNumber(raw.firstMonth, 1)
                      && r.value.lastMonth == MonthNumber(raw.lastMonth, 12)
    ensures r.Ok? ==> (r.value.forceWeekNumbers <==> raw.weekOrderNumbers.Some? && raw.weekOrderNumbers.value != [])
    ensures r.Ok? ==> (r.value.firstDate.Some? <==> ToDate(raw.firstDate).Ok?)
    ensures r.Raised? ==> r.error == TypeError
    ensures r.Raised? <==> raw.includeDates.None? || raw.excludeDates.None? || ToDates(raw.includeDates.value).Raised?
                           || ToDates(raw.excludeDates.value).Raised? || raw.firstDate.OtherItem?
    ensures r.Ok? ==> r.value.includeDates == Converted(raw.includeDates.value)
                      && r.value.excludeDates == Converted(raw.excludeDates.value)
    ensures r.Ok? && r.value.firstDate.Some? ==> ToDate(raw.firstDate) == Ok(r.value.firstDate.value)
    ensures r.Ok? ==> r.value.frequency == raw.frequency && r.value.collectionDays == raw.collectionDays
                      && r.value.period == raw.period && r.value.offset == raw.offset
  {
    var included :- DateList(raw.includeDates);
    var excluded :- DateList(raw.excludeDates);
    var first := ToDate(raw.firstDate);
    if first.Raised? && first.error == TypeError then Raised(TypeError)
    else Ok(Configured(raw, included, excluded, if first.Ok? then Some(first.value) else None))
  }

  /** `to_dates(v)` on a configured value, None standing for a stored None. */
  function DateList(v: Option<seq<Item>>): (r: Outcome<seq<ValidDate>>)
    ensures r.Raised? <==> v.None? || ToDates(v.value).Raised?
    ensures r.Raised? ==> r.error == TypeError
  {
    if v.None? then Raised(TypeError) else ToDates(v.value)
  }

  /** The settings of a configuration whose date entries have been converted. */
  function Configured(raw: RawConfig, included: seq<ValidDate>, excluded: seq<ValidDate>, first: Option<ValidDate>): (s: Schedule)
    ensures s.firstMonth == MonthNumber(raw.firstMonth, 1) && s.lastMonth == MonthNumber(raw.lastMonth, 12)
    ensures s.forceWeekNumbers <==> raw.weekOrderNumbers.Some? && raw.weekOrderNumbers.value != []
    ensures s.includeDates == included && s.excludeDates == excluded && s.firstDate == first
  {
    Settings(raw.frequency, raw.collectionDays,
             MonthNumber(raw.firstMonth, 1), MonthNumber(raw.lastMonth, 12),
             raw.weekdayOrderNumbers, raw.weekOrderNumbers,
             raw.weekOrderNumbers.Some? && |raw.weekOrderNumbers.value| != 0,
             included, excluded, raw.holidayMoveOffset, raw.holidayInWeekMove,
             raw.period, raw.firstWeek, first,
             raw.annualDate, raw.verboseState, raw.offset,
             raw.iconNormal, raw.iconToday, raw.iconTomorrow, raw.expireAfter, raw.entities)
  }

  // ---------------------------------------------------------------------------------------
  // The month range: `date_inside` and `move_to_range`
  // ---------------------------------------------------------------------------------------

  /** `date_inside(d)`: the month of d is in the range, which wraps past December when the
      first month comes after the last. */
  predicate DateInside(s: Schedule, d: ValidDate) {
    if s.firstMonth <= s.lastMonth then s.firstMonth <= d.month <= s.lastMonth
    else d.month <= s.lastMonth || d.month >= s.firstMonth
  }

  /** The months met when stepping from `first` through to `last`, from December on to January. */
  predicate InCyclicRange(first: int, last: int, month: int) {
    exists k :: 0 <= k <= (last - first) % 12 && MonthAfter(first, k) == month
  }

  /** The month k months after month `first`. */
  function MonthAfter(first: int, k: int): int {
    (first - 1 + k) % 12 + 1
  }

  /** `date_inside` accepts exactly the months of the cyclic range from the first month to
      the last one. */
  lemma DateInsideCyclic(s: Schedule, d: ValidDate)
    ensures DateInside(s, d) <==> InCyclicRange(s.firstMonth, s.lastMonth, d.month)
  {
    if DateInside(s, d) {
      InsideIsCyclic(s.firstMonth, s.lastMonth, d.month);
    }
    if InCyclicRange(s.firstMonth, s.lastMonth, d.month) {
      CyclicIsInside(s.firstMonth, s.lastMonth, d.month);
    }
  }

  /** A month inside the range is met stepping from the first month to the last. */
  lemma InsideIsCyclic(f: int, l: int, m: int)
    requires 1 <= f <= 12 && 1 <= l <= 12 && 1 <= m <= 12
    requires if f <= l then f <= m <= l else m <= l || m >= f
    ensures InCyclicRange(f, l, m)
  {
    var k := (m - f) % 12;
    if f <= l {
      assert k == m - f;
    } else if m >= f {
      assert k == m - f;
      assert (l - f) % 12 == l - f + 12;
    } else {
      assert k == m - f + 12;
      assert (l - f) % 12 == l - f + 12;
    }
    assert MonthAfter(f, k) == m;
  }

  /** A month met stepping from the first month to the last is inside the range. */
  lemma CyclicIsInside(f: int, l: int, m: int)
    requires 1 <= f <= 12 && 1 <= l <= 12 && InCyclicRange(f, l, m)
    ensures if f <= l then f <= m <= l else m <= l || m >= f
  {
    var k :| 0 <= k <= (l - f) % 12 && MonthAfter(f, k) == m;
    if f <= l {
      assert (l - f) % 12 == l - f;
      assert (f - 1 + k) % 12 == f - 1 + k;
    } else {
      assert (l - f) % 12 == l - f + 12;
      if f - 1 + k < 12 {
        assert m == f + k;
      } else {
        assert m == f + k - 12;
      }
    }
  }

  /** `move_to_range(d)`: a date that is an include date or inside the range is kept; any
      other date moves to the 1st of the first month, in the next year when the range does
      not wrap and d lies past its last month. */
  function MoveToRange(s: Schedule, d: ValidDate): (r: ValidDate)
    ensures d in s.includeDates || DateInside(s, d) ==> r == d
    ensures !(d in s.includeDates || DateInside(s, d)) ==>
              r.day == 1 && r.month == s.firstMonth && DateInside(s, r) && ToOrdinal(d) < ToOrdinal(r)
  {
    if !(d in s.includeDates || DateInside(s, d)) then
      var r := if s.firstMonth <= s.lastMonth && d.month > s.lastMonth then Date(d.year + 1, s.firstMonth, 1)
               else Date(d.year, s.firstMonth, 1);
      OrdinalOrder(d, r);
      r
    else d
  }

  /** The date `move_to_range` moves to is the first date inside the range from d on: no date
      from d up to it is inside. */
  lemma MoveToRangeEarliest(s: Schedule, d: ValidDate, e: ValidDate)
    requires ToOrdinal(d) <= ToOrdinal(e) < ToOrdinal(MoveToRange(s, d))
    ensures !DateInside(s, e)
  {
    var r := MoveToRange(s, d);
    OrdinalOrder(e, r);
    OrdinalOrder(e, d);
  }

  /** A date that `move_to_range` has produced stays where it is. */
  lemma MoveToRangeIdempotent(s: Schedule, d: ValidDate)
    ensures MoveToRange(s, MoveToRange(s, d)) == MoveToRange(s, d)
  {
  }

  // ---------------------------------------------------------------------------------------
  // The n-th week and the n-th weekday of a month
  // ---------------------------------------------------------------------------------------

  function FirstOfMonth(d: ValidDate): (r: ValidDate)
    ensures r.year == d.year && r.month == d.month && r.day == 1
  {
    Date(d.year, d.month, 1)
  }

  /** Same calendar week (Monday to Sunday). */
  predicate SameWeek(a: ValidDate, b: ValidDate) {
    ToOrdinal(a) - Weekday(a) == ToOrdinal(b) - Weekday(b)
  }

  /** Moving by a whole number of days lands on the weekday reached by counting on from d. */
  lemma ShiftWeekday(d: ValidDate, n: int, target: int, weeks: int)
    requires n == target - Weekday(d) + 7 * weeks
    ensures 0 <= target <= 6 ==> Weekday(AddDays(d, n)) == target
  {
    WeekdayAddDays(d, n);
    WholeWeeks(Weekday(d), n, target, weeks);
  }

  lemma WholeWeeks(w: int, n: int, target: int, weeks: int)
    requires n == target - w + 7 * weeks
    ensures 0 <= target <= 6 ==> (w + n) % 7 == target
  {
    assert w + n == target + 7 * weeks;
  }

  /** `nth_week_date(n, d, collection_day)`: the weekday `collection_day` of the calendar week
      that is n - 1 weeks after the week holding the 1st of d's month. */
  function NthWeekDate(n: int, dateOfMonth: ValidDate, collectionDay: int): (r: ValidDate)
    ensures 0 <= collectionDay <= 6 ==> Weekday(r) == collectionDay
    ensures 0 <= collectionDay <= 6 ==>
              ToOrdinal(r) - Weekday(r) == ToOrdinal(FirstOfMonth(dateOfMonth)) - Weekday(FirstOfMonth(dateOfMonth)) + 7 * (n - 1)
  {
    var first := FirstOfMonth(dateOfMonth);
    var k := collectionDay - Weekday(first) + (n - 1) * 7;
    ShiftWeekday(first, k, collectionDay, n - 1);
    AddDays(first, k)
  }

  /** `nth_weekday_date(n, d, collection_day)`: the n-th `collection_day` of d's month, that is
      the one lying (n - 1) weeks and at most 6 days after the 1st. */
  function NthWeekdayDate(n: int, dateOfMonth: ValidDate, collectionDay: int): (r: ValidDate)
    ensures 0 <= collectionDay <= 6 ==> Weekday(r) == collectionDay
    ensures 0 <= collectionDay <= 6 ==>
              0 <= ToOrdinal(r) - ToOrdinal(FirstOfMonth(dateOfMonth)) - 7 * (n - 1) <= 6
  {
    var first := FirstOfMonth(dateOfMonth);
    var w := Weekday(first);
    var k := if collectionDay >= w then collectionDay - w + (n - 1) * 7 else 7 - w + collectionDay + (n - 1) * 7;
    ShiftWeekday(first, k, collectionDay, if collectionDay >= w then n - 1 else n);
    AddDays(first, k)
  }

  // ---------------------------------------------------------------------------------------
  // Candidate dates per frequency (`_async_find_candidate_date` -- group members aside)
  // ---------------------------------------------------------------------------------------

  /** The frequencies handled as every-n-weeks patterns. */
  const WEEKLY_FREQUENCIES: seq<string> := ["weekly", "even-weeks", "odd-weeks", "every-n-weeks"]

  /** The frequencies `_async_find_candidate_date` knows. */
  const KNOWN_FREQUENCIES: seq<string> := WEEKLY_FREQUENCIES + ["blank", "every-n-days", "monthly", "annual", "group"]

  /** `WEEKDAYS.index(collection_days[0])`: TypeError without a list, IndexError for an empty
      list, ValueError for a name that is not a weekday. */
  function CollectionDayIndex(days: Option<seq<string>>): (r: Outcome<int>)
    ensures r.Ok? <==> days.Some? && |days.value| > 0 && days.value[0] in ConfigFlow.WEEKDAYS
    ensures r.Ok? ==> 0 <= r.value <= 6 && ConfigFlow.WEEKDAYS[r.value] == days.value[0]
    ensures r == Raised(TypeError) <==> days.None?
    ensures r == Raised(IndexError) <==> days == Some([])
  {
    if days.None? then Raised(TypeError)
    else if |days.value| == 0 then Raised(IndexError)
    else if days.value[0] in ConfigFlow.WEEKDAYS then Ok(IndexOf(ConfigFlow.WEEKDAYS, days.value[0]))
    else Raised(ValueError)
  }

  /** A candidate of a frequency with always one answer, as the search sees it. */
  function Lift(o: Outcome<ValidDate>): (r: Outcome<Option<ValidDate>>)
    ensures r.Ok? <==> o.Ok?
    ensures o.Ok? ==> r.value == Some(o.value)
    ensures o.Raised? ==> r.error == o.error
  {
    match o
    case Ok(d) => Ok(Some(d))
    case Raised(e) => Raised(e)
  }

  /** The quotient and remainder behind the every-n-days step: moving a day count on by the
      part of a period it is short of a multiple lands on a multiple. */
  lemma CompletePeriod(gap: int, p: int)
    requires p != 0
    ensures PyMod(gap, p) != 0 ==> PyMod(gap + p - PyMod(gap, p), p) == 0
  {
    var (q, rem) := PyDivMod(gap, p);
    PyModOfDivMod(gap, p);
    assert gap + p - rem == (q + 1) * p;
    ModOfMultiple(q + 1, p);
  }

  /** The every-n-days candidate from day1: day1 itself when it lies a whole number of periods
      after the first date, else the next such day. A missing first date or period raises
      ValueError (the TypeError re-raised); a zero period raises ZeroDivisionError. */
  function EveryNDaysCandidate(s: Schedule, day1: ValidDate): (r: Outcome<ValidDate>)
    ensures r.Raised? <==> s.firstDate.None? || s.period.None? || s.period == Some(0)
    ensures r == Raised(ZeroDivisionError) <==> s.firstDate.Some? && s.period == Some(0)
    ensures r.Raised? ==> r.error == ValueError || r.error == ZeroDivisionError
    ensures r.Ok? && s.period.value > 0 ==>
              ToOrdinal(day1) <= ToOrdinal(r.value) < ToOrdinal(day1) + s.period.value
              && PyMod(ToOrdinal(r.value) - ToOrdinal(s.firstDate.value), s.period.value) == 0
  {
    if s.firstDate.None? || s.period.None? then Raised(ValueError)
    else if s.period.value == 0 then Raised(ZeroDivisionError)
    else
      var p := s.period.value;
      var gap := ToOrdinal(day1) - ToOrdinal(s.firstDate.value);
      CompletePeriod(gap, p);
      if PyMod(gap, p) == 0 then Ok(day1)
      else Ok(AddDays(day1, p - PyMod(gap, p)))
  }

  /** The annual candidate from day1: the configured month and day ("%m/%d") in day1's year,
      or in the next year when that date has passed. A missing or malformed date raises
      ValueError. */
  function AnnualCandidate(s: Schedule, day1: ValidDate): (r: Outcome<ValidDate>)
    ensures r.Ok? <==> s.annualDate.Some? && StrptimeMd(s.annualDate.value).Some?
    ensures r.Raised? ==> r.error == ValueError
    ensures r.Ok? ==>
              var md := StrptimeMd(s.annualDate.value).value;
              r.value.month == md.month && r.value.day == md.day
              && NotAfter(day1, r.value)
              && (r.value.year == day1.year || r.value.year == day1.year + 1)
              && (r.value.year == day1.year <==> !CalendarLess(Date(day1.year, md.month, md.day), day1))
  {
    if s.annualDate.None? then Raised(ValueError)
    else match StrptimeMd(s.annualDate.value)
      case None => Raised(ValueError)
      case Some(md) =>
        MonthDayValidEveryYear(s.annualDate.value, day1.year);
        MonthDayValidEveryYear(s.annualDate.value, day1.year + 1);
        var thisYear: ValidDate := Date(day1.year, md.month, md.day);
        var nextYear: ValidDate := Date(day1.year + 1, md.month, md.day);
        if CalendarLess(thisYear, day1) then Ok(nextYear) else Ok(thisYear)
  }

  /** The ordinal numbers the monthly schedule uses: week numbers when they are forced,
      weekday numbers otherwise. */
  function OrderNumbers(s: Schedule): Option<seq<int>> {
    if s.forceWeekNumbers then s.weekOrderNumbers else s.weekdayOrderNumbers
  }

  /** `nth_week_date` or `nth_weekday_date`, as the schedule forces week numbers or not. */
  function NthDate(force: bool, n: int, dateOfMonth: ValidDate, collectionDay: int): (r: ValidDate)
    ensures 0 <= collectionDay <= 6 ==> Weekday(r) == collectionDay
  {
    if force then NthWeekDate(n, dateOfMonth, collectionDay) else NthWeekdayDate(n, dateOfMonth, collectionDay)
  }

  /** The dates of the listed ordinal numbers in the month of dateOfMonth, in list order. */
  function NthDates(force: bool, numbers: seq<int>, dateOfMonth: ValidDate, collectionDay: int): (r: seq<ValidDate>)
    ensures |r| == |numbers|
    ensures forall i :: 0 <= i < |numbers| ==> r[i] == NthDate(force, numbers[i], dateOfMonth, collectionDay)
  {
    seq(|numbers|, i requires 0 <= i < |numbers| => NthDate(force, numbers[i], dateOfMonth, collectionDay))
  }

  /** The 1st of the month after d's month. */
  function NextMonthStart(d: ValidDate): (r: ValidDate)
    ensures r.day == 1 && CalendarLess(d, r)
    ensures r.month == d.month % 12 + 1
  {
    if d.month == 12 then Date(d.year + 1, 1, 1) else Date(d.year, d.month + 1, 1)
  }

  /** The 1st of the next month lies a whole month after the 1st of d's month. */
  lemma NextMonthLength(d: ValidDate)
    ensures ToOrdinal(NextMonthStart(d)) == ToOrdinal(FirstOfMonth(d)) + DaysInMonth(d.year, d.month)
  {
    MonthStep(d.year, d.month);
    if d.month == 12 {
      YearStep(d.year);
    }
  }

  /** The date of an ordinal number from 1 on lies at most six days before the 1st of the
      month. */
  lemma NthDateFloor(force: bool, n: int, dateOfMonth: ValidDate, collectionDay: int)
    requires n >= 1 && 0 <= collectionDay <= 6
    ensures ToOrdinal(FirstOfMonth(dateOfMonth)) - 6 <= ToOrdinal(NthDate(force, n, dateOfMonth, collectionDay))
  {
  }

  /** The date of an ordinal number from 1 on in the month after next is after day1. */
  lemma FallbackTwoMonthsOn(force: bool, n: int, day1: ValidDate, collectionDay: int)
    ensures n >= 1 && 0 <= collectionDay <= 6 ==>
              NotAfter(day1, NthDate(force, n, NextMonthStart(NextMonthStart(day1)), collectionDay))
  {
    if n >= 1 && 0 <= collectionDay <= 6 {
      var next := NextMonthStart(day1);
      var r := NthDate(force, n, NextMonthStart(next), collectionDay);
      OrdinalOrder(day1, next);
      NextMonthLength(next);
      NthDateFloor(force, n, NextMonthStart(next), collectionDay);
      OrdinalOrder(r, day1);
    }
  }

  /** The date of the first listed number (in list order) in the month of dateOfMonth that
      is not before day1, if any. */
  function FirstListedDate(force: bool, numbers: seq<int>, dateOfMonth: ValidDate, day1: ValidDate, collectionDay: int)
    : (r: Option<ValidDate>)
    ensures r.Some? ==> NotAfter(day1, r.value)
    ensures r.Some? && 0 <= collectionDay <= 6 ==> Weekday(r.value) == collectionDay
    ensures forall i :: FirstListedNotBefore(force, numbers, dateOfMonth, day1, collectionDay, i) ==>
              r == Some(NthDate(force, numbers[i], dateOfMonth, collectionDay))
    ensures r.None? <==> forall i :: 0 <= i < |numbers| ==> !NotAfter(day1, NthDate(force, numbers[i], dateOfMonth, collectionDay))
  {
    var dates := NthDates(force, numbers, dateOfMonth, collectionDay);
    match FirstNotBefore(dates, day1)
    case Some(i) =>
      FirstListedUnique(force, numbers, dateOfMonth, day1, collectionDay, i);
      Some(dates[i])
    case None => None
  }

  /** The monthly date from day1 as `_async_monthly_candidate` computes it: the date of the
      first listed number in day1's month that is not before day1, else the date of the
      first number in the next month, even when that date lies before day1. */
  function MonthlyDateAsWritten(force: bool, numbers: seq<int>, day1: ValidDate, collectionDay: int): (r: ValidDate)
    requires numbers != []
    ensures 0 <= collectionDay <= 6 ==> Weekday(r) == collectionDay
    ensures forall i :: FirstListedNotBefore(force, numbers, day1, day1, collectionDay, i) ==>
              r == NthDate(force, numbers[i], day1, collectionDay)
    ensures (forall i :: 0 <= i < |numbers| ==> !NotAfter(day1, NthDate(force, numbers[i], day1, collectionDay))) ==>
              r == NthDate(force, numbers[0], NextMonthStart(day1), collectionDay)
  {
    match FirstListedDate(force, numbers, day1, day1, collectionDay)
    case Some(d) => d
    case None => NthDate(force, numbers[0], NextMonthStart(day1), collectionDay)
  }

  /** The monthly date from day1, corrected so that it is never before day1 (see "Findings"
      in the README): the date of the first listed number (in list order) in day1's month that
      is not before day1, else the date of the first listed number in the next month that is
      not before day1, else the date of the first number in the month after. With ordinal
      numbers from 1 on it is never before day1, and wherever the code's date is not before
      day1 the two agree. */
  function MonthlyDate(force: bool, numbers: seq<int>, day1: ValidDate, collectionDay: int): (r: ValidDate)
    requires numbers != []
    ensures 0 <= collectionDay <= 6 ==> Weekday(r) == collectionDay
    ensures numbers[0] >= 1 && 0 <= collectionDay <= 6 ==> NotAfter(day1, r)
    ensures forall i :: FirstListedNotBefore(force, numbers, day1, day1, collectionDay, i) ==>
              r == NthDate(force, numbers[i], day1, collectionDay)
    ensures (forall i :: 0 <= i < |numbers| ==> !NotAfter(day1, NthDate(force, numbers[i], day1, collectionDay))) ==>
              forall j :: FirstListedNotBefore(force, numbers, NextMonthStart(day1), day1, collectionDay, j) ==>
                r == NthDate(force, numbers[j], NextMonthStart(day1), collectionDay)
    ensures (forall i :: 0 <= i < |numbers| ==> !NotAfter(day1, NthDate(force, numbers[i], day1, collectionDay)))
            && (forall i :: 0 <= i < |numbers| ==> !NotAfter(day1, NthDate(force, numbers[i], NextMonthStart(day1), collectionDay))) ==>
              r == NthDate(force, numbers[0], NextMonthStart(NextMonthStart(day1)), collectionDay)
    ensures NotAfter(day1, MonthlyDateAsWritten(force, numbers, day1, collectionDay)) ==>
              r == MonthlyDateAsWritten(force, numbers, day1, collectionDay)
  {
    match FirstListedDate(force, numbers, day1, day1, collectionDay)
    case Some(d) => d
    case None =>
      match FirstListedDate(force, numbers, NextMonthStart(day1), day1, collectionDay)
      case Some(d) =>
        assert NotAfter(day1, NthDate(force, numbers[0], NextMonthStart(day1), collectionDay)) ==>
          FirstListedNotBefore(force, numbers, NextMonthStart(day1), day1, collectionDay, 0);
        d
      case None =>
        FallbackTwoMonthsOn(force, numbers[0], day1, collectionDay);
        NthDate(force, numbers[0], NextMonthStart(NextMonthStart(day1)), collectionDay)
  }

  /** i is the first position, in list order, whose date in the month of dateOfMonth is not
      before day1. */
  predicate FirstListedNotBefore(force: bool, numbers: seq<int>, dateOfMonth: ValidDate, day1: ValidDate,
                                 collectionDay: int, i: int)
  {
    && 0 <= i < |numbers| && NotAfter(day1, NthDate(force, numbers[i], dateOfMonth, collectionDay))
    && forall j :: 0 <= j < i ==> !NotAfter(day1, NthDate(force, numbers[j], dateOfMonth, collectionDay))
  }

  /** Only one position is the first listed one not before day1. */
  lemma FirstListedUnique(force: bool, numbers: seq<int>, dateOfMonth: ValidDate, day1: ValidDate, collectionDay: int, i: int)
    requires FirstListedNotBefore(force, numbers, dateOfMonth, day1, collectionDay, i)
    ensures forall j :: FirstListedNotBefore(force, numbers, dateOfMonth, day1, collectionDay, j) ==> j == i
  {
  }

  /** `_async_monthly_candidate(day1)`: the code's monthly date on the first collection
      weekday. Iterating a missing list raises TypeError and an empty list IndexError. */
  function MonthlyCandidate(s: Schedule, day1: ValidDate): (r: Outcome<ValidDate>)
    ensures r.Ok? <==> OrderNumbers(s).Some? && OrderNumbers(s).value != [] && CollectionDayIndex(s.collectionDays).Ok?
    ensures OrderNumbers(s).None? ==> r == Raised(TypeError)
    ensures OrderNumbers(s) == Some([]) ==> r == Raised(IndexError)
    ensures r.Ok? ==> Weekday(r.value) == CollectionDayIndex(s.collectionDays).value
    ensures r.Ok? ==> r.value == MonthlyDateAsWritten(s.forceWeekNumbers, OrderNumbers(s).value, day1, CollectionDayIndex(s.collectionDays).value)
  {
    var numbers := OrderNumbers(s);
    if numbers.None? then Raised(TypeError)
    else if |numbers.value| == 0 then Raised(IndexError)
    else
      var day :- CollectionDayIndex(s.collectionDays);
      Ok(MonthlyDateAsWritten(s.forceWeekNumbers, numbers.value, day1, day))
  }

  /** The monthly candidate the period loop uses: `_async_monthly_candidate(day1)` with the
      corrected monthly date. It raises as the code's candidate does, is never before day1
      when the first ordinal number is at least 1, and is the code's candidate wherever that
      is not before day1. */
  function PeriodCandidate(s: Schedule, day1: ValidDate): (r: Outcome<ValidDate>)
    ensures r.Raised? ==> r == MonthlyCandidate(s, day1)
    ensures r.Ok? <==> MonthlyCandidate(s, day1).Ok?
    ensures r.Ok? ==> Weekday(r.value) == CollectionDayIndex(s.collectionDays).value
    ensures r.Ok? && OrderNumbers(s).value[0] >= 1 ==> NotAfter(day1, r.value)
    ensures r.Ok? && NotAfter(day1, MonthlyCandidate(s, day1).value) ==> r == MonthlyCandidate(s, day1)
    ensures r.Ok? ==> r.value == MonthlyDate(s.forceWeekNumbers, OrderNumbers(s).value, day1, CollectionDayIndex(s.collectionDays).value)
  {
    var numbers := OrderNumbers(s);
    if numbers.None? then Raised(TypeError)
    else if |numbers.value| == 0 then Raised(IndexError)
    else
      var day :- CollectionDayIndex(s.collectionDays);
      Ok(MonthlyDate(s.forceWeekNumbers, numbers.value, day1, day))
  }

  /** The (period, first week) of an every-n-weeks pattern, with the errors its use in
      `(week - first_week) % period` raises. */
  function WeekCycle(s: Schedule): (r: Outcome<(int, int)>)
    ensures r.Ok? ==> r.value.0 != 0
    ensures r.Raised? <==> s.frequency !in ["weekly", "even-weeks", "odd-weeks"]
                           && (s.period.None? || s.firstWeek.None? || s.period == Some(0))
  {
    if s.frequency == "weekly" then Ok((1, 1))
    else if s.frequency == "even-weeks" then Ok((2, 2))
    else if s.frequency == "odd-weeks" then Ok((2, 1))
    else if s.period.None? || s.firstWeek.None? then Raised(TypeError)
    else if s.period.value == 0 then Raised(ZeroDivisionError)
    else Ok((s.period.value, s.firstWeek.value))
  }

  /** c is a weekly-pattern collection date found from day1: a configured collection
      weekday, not before day1, either later in day1's week when day1's ISO week is a
      collection week, or the first collection weekday of a later collection week. */
  predicate WeeklyCollection(s: Schedule, day1: ValidDate, c: ValidDate) {
    WeekCycle(s).Ok? && CycleCollection(WeekCycle(s).value.0, WeekCycle(s).value.1, s.collectionDays, day1, c)
  }

  /** The same, for a cycle (period, first week) and the configured collection days. */
  predicate CycleCollection(period: int, firstWeek: int, days: Option<seq<string>>, day1: ValidDate, c: ValidDate)
    requires period != 0
  {
    days.Some? && CollectionDayIndex(days).Ok?
    && WeeklyShape(CollectionDayIndex(days).value, days.value, day1, c,
                   PyMod(IsoWeek(day1) - firstWeek, period) == 0,
                   PyMod(IsoWeek(c) - firstWeek, period) == 0)
  }

  /** The same, for the first collection weekday, the day names and whether the ISO weeks of
      day1 and of c are collection weeks (`(week - first_week) % period == 0`). */
  predicate WeeklyShape(first: int, days: seq<string>, day1: ValidDate, c: ValidDate, week1Due: bool, weekCDue: bool) {
    NotAfter(day1, c) && ConfigFlow.WEEKDAYS[Weekday(c)] in days
    && ((SameWeek(c, day1) && week1Due)
        || (!SameWeek(c, day1) && weekCDue && Weekday(c) == first))
  }

  /** The weekday n days after day1. */
  lemma WeekdayAfter(day1: ValidDate, c: ValidDate, n: int)
    requires ToOrdinal(c) == ToOrdinal(day1) + n
    ensures Weekday(c) == (Weekday(day1) + n) % 7
  {
    ModSevenAdd(ToOrdinal(day1) + 6, n);
  }

  /** A collection weekday later in day1's week, when that week is a collection week. */
  lemma ThisWeekCollection(first: int, days: seq<string>, day1: ValidDate, c: ValidDate, offset: int,
                           week1Due: bool, weekCDue: bool)
    requires week1Due
    requires ToOrdinal(c) == ToOrdinal(day1) + offset && 0 <= offset <= 6 - Weekday(day1)
    requires ConfigFlow.WEEKDAYS[Weekday(day1) + offset] in days
    ensures WeeklyShape(first, days, day1, c, week1Due, weekCDue)
  {
    WeekdayAfter(day1, c, offset);
    WholeWeeks(Weekday(day1), offset, Weekday(day1) + offset, 0);
    OrdinalOrder(c, day1);
  }

  /** The first collection weekday of a collection week after day1's week. */
  lemma LaterWeekCollection(first: int, days: seq<string>, day1: ValidDate, c: ValidDate, weeks: int,
                            week1Due: bool, weekCDue: bool)
    requires 0 <= first <= 6 && days != [] && ConfigFlow.WEEKDAYS[first] == days[0] && weeks >= 1
    requires ToOrdinal(c) == ToOrdinal(day1) + first - Weekday(day1) + 7 * weeks
    requires weekCDue
    ensures WeeklyShape(first, days, day1, c, week1Due, weekCDue)
  {
    var n := first - Weekday(day1) + 7 * weeks;
    WeekdayAfter(day1, c, n);
    WholeWeeks(Weekday(day1), n, first, weeks);
    OrdinalOrder(c, day1);
  }

  /** The same, stated for a cycle and the configured collection days. */
  lemma LaterCycleCollection(period: int, firstWeek: int, days: Option<seq<string>>, day1: ValidDate, c: ValidDate,
                             weeks: int)
    requires period != 0 && days.Some? && CollectionDayIndex(days).Ok? && weeks >= 1
    requires ToOrdinal(c) == ToOrdinal(day1) + CollectionDayIndex(days).value - Weekday(day1) + 7 * weeks
    requires PyMod(IsoWeek(c) - firstWeek, period) == 0
    ensures CycleCollection(period, firstWeek, days, day1, c)
  {
    LaterWeekCollection(CollectionDayIndex(days).value, days.value, day1, c, weeks,
                        PyMod(IsoWeek(day1) - firstWeek, period) == 0, PyMod(IsoWeek(c) - firstWeek, period) == 0);
  }

  /** The ISO week of d is a collection week of the cycle: `(week - first_week) % period == 0`. */
  ghost predicate DueWeek(period: int, firstWeek: int, d: ValidDate) {
    Divides(period, IsoWeek(d) - firstWeek)
  }

  /** The first j names of the list are weekdays that come before `weekday`. */
  predicate ScannedBefore(weekday: int, names: seq<string>, j: int)
    requires 0 <= j <= |names|
  {
    forall k :: 0 <= k < j ==> names[k] in ConfigFlow.WEEKDAYS && IndexOf(ConfigFlow.WEEKDAYS, names[k]) < weekday
  }

  /** Position j holds the first name, in list order, of a weekday not before `weekday`. */
  predicate FirstListedFrom(weekday: int, names: seq<string>, j: int) {
    0 <= j < |names| && names[j] in ConfigFlow.WEEKDAYS && IndexOf(ConfigFlow.WEEKDAYS, names[j]) >= weekday
    && ScannedBefore(weekday, names, j)
  }

  /** A scan that stops at position j at a name that is not a weekday: ValueError, before
      the whole list is passed. */
  lemma ScanFails(weekday: int, names: seq<string>, j: int)
    requires 0 <= j < |names| && names[j] !in ConfigFlow.WEEKDAYS && ScannedBefore(weekday, names, j)
    ensures !ScannedBefore(weekday, names, |names|)
    ensures exists name :: name in names && name !in ConfigFlow.WEEKDAYS
    ensures exists k :: 0 <= k < |names| && names[k] !in ConfigFlow.WEEKDAYS && ScannedBefore(weekday, names, k)
    ensures !(forall name :: name in names ==> name in ConfigFlow.WEEKDAYS)
  {
    assert names[j] in names;
  }

  /** A scan that stops at position j at a weekday not before `weekday`: its offset from
      `weekday`, a listed day of the rest of the week. */
  lemma ScanFinds(weekday: int, names: seq<string>, j: int)
    requires 0 <= weekday <= 6 && FirstListedFrom(weekday, names, j)
    ensures !ScannedBefore(weekday, names, |names|)
    ensures var offset := IndexOf(ConfigFlow.WEEKDAYS, names[j]) - weekday;
            0 <= offset <= 6 - weekday && ConfigFlow.WEEKDAYS[weekday + offset] in names
  {
    assert names[j] in names;
  }

  /** c is the first collection day of the w-th week after day1's week (`day1 + iterate_by_week`). */
  predicate WeeksAheadOf(day1: ValidDate, first: int, w: int, c: ValidDate) {
    ToOrdinal(c) == ToOrdinal(day1) + first - Weekday(day1) + 7 * w
  }

  /** None of the weeks 1 .. w - 1 after day1's week is a collection week. */
  ghost predicate NoDueWeekBefore(period: int, firstWeek: int, first: int, day1: ValidDate, w: int)
    requires period != 0
  {
    forall v, e :: 1 <= v < w && WeeksAheadOf(day1, first, v, e) ==> !DueWeek(period, firstWeek, e)
  }

  /** c is the first collection day of the first collection week after day1's week. */
  ghost predicate FirstDueWeekAhead(period: int, firstWeek: int, first: int, day1: ValidDate, c: ValidDate)
    requires period != 0
  {
    exists w :: w >= 1 && WeeksAheadOf(day1, first, w, c) && DueWeek(period, firstWeek, c)
      && NoDueWeekBefore(period, firstWeek, first, day1, w)
  }

  /** The loop of `iterate_by_week` stops at the first collection week. */
  lemma FoundWeek(period: int, firstWeek: int, first: int, day1: ValidDate, w: int, c: ValidDate)
    requires period != 0 && w >= 1 && NoDueWeekBefore(period, firstWeek, first, day1, w)
    requires ToOrdinal(c) == ToOrdinal(day1) + first - Weekday(day1) + 7 * w
    requires PyMod(IsoWeek(c) - firstWeek, period) == 0
    ensures FirstDueWeekAhead(period, firstWeek, first, day1, c)
  {
    PyModZero(IsoWeek(c) - firstWeek, period);
    assert WeeksAheadOf(day1, first, w, c) && DueWeek(period, firstWeek, c);
  }

  /** The loop of `iterate_by_week` passes a week that is not a collection week. */
  lemma PassedWeek(period: int, firstWeek: int, first: int, day1: ValidDate, w: int, c: ValidDate)
    requires period != 0 && NoDueWeekBefore(period, firstWeek, first, day1, w)
    requires WeeksAheadOf(day1, first, w, c) && PyMod(IsoWeek(c) - firstWeek, period) != 0
    ensures NoDueWeekBefore(period, firstWeek, first, day1, w + 1)
  {
    PyModZero(IsoWeek(c) - firstWeek, period);
    assert !DueWeek(period, firstWeek, c);
    forall v, e | 1 <= v < w + 1 && WeeksAheadOf(day1, first, v, e)
      ensures !DueWeek(period, firstWeek, e)
    {
      if v == w {
        OrdinalInjective(c, e);
      } else {
        assert 1 <= v < w;
      }
    }
  }

  /** The date `_async_find_candidate_date` picks for a cycle: in a collection week, the
      first listed day, in list order, that is not before day1's weekday; when day1's week is
      not a collection week or no listed day remains in it, the first collection day of the
      first collection week after it. */
  ghost predicate WeeklyPick(period: int, firstWeek: int, days: Option<seq<string>>, day1: ValidDate, c: ValidDate)
    requires period != 0
  {
    days.Some? && CollectionDayIndex(days).Ok? &&
    if PyMod(IsoWeek(day1) - firstWeek, period) == 0 && !ScannedBefore(Weekday(day1), days.value, |days.value|) then
      exists j :: FirstListedFrom(Weekday(day1), days.value, j)
        && ToOrdinal(c) == ToOrdinal(day1) + IndexOf(ConfigFlow.WEEKDAYS, days.value[j]) - Weekday(day1)
    else FirstDueWeekAhead(period, firstWeek, CollectionDayIndex(days).value, day1, c)
  }

  /** The pick from day1's own week. */
  lemma PickThisWeek(period: int, firstWeek: int, days: Option<seq<string>>, day1: ValidDate, c: ValidDate, offset: int)
    requires period != 0 && days.Some? && CollectionDayIndex(days).Ok?
    requires PyMod(IsoWeek(day1) - firstWeek, period) == 0
    requires exists j :: FirstListedFrom(Weekday(day1), days.value, j)
               && offset == IndexOf(ConfigFlow.WEEKDAYS, days.value[j]) - Weekday(day1)
    requires ToOrdinal(c) == ToOrdinal(day1) + offset
    ensures WeeklyPick(period, firstWeek, days, day1, c)
  {
    var j :| FirstListedFrom(Weekday(day1), days.value, j)
             && offset == IndexOf(ConfigFlow.WEEKDAYS, days.value[j]) - Weekday(day1);
    assert !ScannedBefore(Weekday(day1), days.value, |days.value|) by {
      assert !(days.value[j] in ConfigFlow.WEEKDAYS && IndexOf(ConfigFlow.WEEKDAYS, days.value[j]) < Weekday(day1));
    }
  }

  /** The pick from a later week. */
  lemma PickLaterWeek(period: int, firstWeek: int, days: Option<seq<string>>, day1: ValidDate, c: ValidDate)
    requires period != 0 && days.Some? && CollectionDayIndex(days).Ok?
    requires PyMod(IsoWeek(day1) - firstWeek, period) != 0 || ScannedBefore(Weekday(day1), days.value, |days.value|)
    requires FirstDueWeekAhead(period, firstWeek, CollectionDayIndex(days).value, day1, c)
    ensures WeeklyPick(period, firstWeek, days, day1, c)
  {
  }

  /** c is a monthly collection date: on the first collection weekday and, with a period other
      than 1, in a month a whole number of periods after the first month. */
  predicate MonthlyCollection(s: Schedule, c: ValidDate) {
    CollectionDayIndex(s.collectionDays).Ok? && Weekday(c) == CollectionDayIndex(s.collectionDays).value
    && (s.period.Some? && s.period.value != 1 && s.period.value != 0 ==> PyMod(c.month - s.firstMonth, s.period.value) == 0)
  }

  /** The monthly candidate can be computed: an ordinal list with an entry, and a first
      collection day that is a weekday. */
  predicate MonthlyReady(s: Schedule) {
    OrderNumbers(s).Some? && OrderNumbers(s).value != [] && CollectionDayIndex(s.collectionDays).Ok?
  }

  /** The k-th candidate of the period loop after c: each the monthly candidate from the day
      after the one before. */
  function MonthlyChain(s: Schedule, c: ValidDate, k: nat): ValidDate
    requires MonthlyReady(s)
    decreases k, 1
  {
    if k == 0 then c else ChainLink(s, c, k)
  }

  /** The k-th link of the chain: the monthly date from the day after the link before. */
  function ChainLink(s: Schedule, c: ValidDate, k: nat): ValidDate
    requires MonthlyReady(s) && k > 0
    decreases k, 0
  {
    MonthlyDate(s.forceWeekNumbers, OrderNumbers(s).value, AddDays(MonthlyChain(s, c, k - 1), 1),
                CollectionDayIndex(s.collectionDays).value)
  }

  /** The month of c is a whole number of periods after the first month. */
  predicate DueMonth(s: Schedule, c: ValidDate)
    requires s.period.Some? && s.period.value != 0
  {
    PyMod(c.month - s.firstMonth, s.period.value) == 0
  }

  /** DueMonth is the test of the period loop's guard. */
  lemma DueMonthTest(s: Schedule, d: ValidDate)
    requires s.period.Some? && s.period.value != 0
    ensures DueMonth(s, d) <==> PyMod(d.month - s.firstMonth, s.period.value) == 0
  {
  }

  /** None of the first k candidates of the period loop from c lies in a due month. */
  ghost predicate NoDueMonthBefore(s: Schedule, c: ValidDate, k: nat)
    requires MonthlyReady(s) && s.period.Some? && s.period.value != 0
  {
    forall j: nat :: j < k ==> !DueMonth(s, MonthlyChain(s, c, j))
  }

  /** r is the first candidate of the period loop from c that lies in a due month. */
  ghost predicate FirstDueInChain(s: Schedule, c: ValidDate, r: ValidDate)
    requires MonthlyReady(s) && s.period.Some? && s.period.value != 0
  {
    exists k: nat :: r == MonthlyChain(s, c, k) && DueMonth(s, r) && NoDueMonthBefore(s, c, k)
  }

  /** One more turn of the period loop: the next candidate is the next link of the chain. */
  lemma ChainNext(s: Schedule, c: ValidDate, k: nat)
    requires MonthlyReady(s)
    ensures MonthlyChain(s, c, k + 1) == PeriodCandidate(s, AddDays(MonthlyChain(s, c, k), 1)).value
  {
  }

  /** Every link of the chain is on the first collection weekday. */
  lemma {:induction false} ChainWeekday(s: Schedule, c: ValidDate, k: nat)
    requires MonthlyReady(s) && Weekday(c) == CollectionDayIndex(s.collectionDays).value
    ensures Weekday(MonthlyChain(s, c, k)) == CollectionDayIndex(s.collectionDays).value
  {
    if k > 0 {
      ChainNext(s, c, k - 1);
    }
  }

  /** The first link of the chain in a due month is a monthly collection date. */
  lemma FirstDueIsCollection(s: Schedule, c: ValidDate, r: ValidDate)
    requires MonthlyReady(s) && Weekday(c) == CollectionDayIndex(s.collectionDays).value
    requires s.period.Some? && s.period.value != 0 && FirstDueInChain(s, c, r)
    ensures MonthlyCollection(s, r)
  {
    var k: nat :| r == MonthlyChain(s, c, k) && DueMonth(s, r) && NoDueMonthBefore(s, c, k);
    ChainWeekday(s, c, k);
    DueMonthTest(s, r);
  }

  /** One more turn of the period loop: one more month passed that is not due. */
  lemma MonthPassed(s: Schedule, c: ValidDate, k: nat)
    requires MonthlyReady(s) && s.period.Some? && s.period.value != 0
    requires NoDueMonthBefore(s, c, k) && !DueMonth(s, MonthlyChain(s, c, k))
    ensures NoDueMonthBefore(s, c, k + 1)
  {
  }

  /** The period loop stops at the first candidate in a due month. */
  lemma ChainFound(s: Schedule, c: ValidDate, k: nat, current: ValidDate)
    requires MonthlyReady(s) && s.period.Some? && s.period.value != 0
    requires NoDueMonthBefore(s, c, k) && current == MonthlyChain(s, c, k)
    requires DueMonth(s, current)
    ensures FirstDueInChain(s, c, current)
  {
    assert current == MonthlyChain(s, c, k) && DueMonth(s, current) && NoDueMonthBefore(s, c, k);
  }

  // ---------------------------------------------------------------------------------------
  // Holidays and include dates
  // ---------------------------------------------------------------------------------------

  /** The number of days a holiday moves a collection: the holiday move offset, or 1 when
      that is None or 0. */
  function HolidayStep(s: Schedule): (k: int)
    ensures k != 0
    ensures s.holidayMoveOffset.Some? && s.holidayMoveOffset.value != 0 ==> k == s.holidayMoveOffset.value
    ensures s.holidayMoveOffset.None? || s.holidayMoveOffset == Some(0) ==> k == 1
  {
    if s.holidayMoveOffset.None? || s.holidayMoveOffset.value == 0 then 1 else s.holidayMoveOffset.value
  }

  /** `_skip_holiday(d)`. */
  function SkipHoliday(s: Schedule, d: ValidDate): (r: ValidDate)
    ensures ToOrdinal(r) == ToOrdinal(d) + HolidayStep(s)
  {
    AddDays(d, HolidayStep(s))
  }

  /** `while d in holidays: d = _skip_holiday(d)`: d moved on by the holiday step until it
      is no holiday. */
  function PastHolidays(s: Schedule, holidays: seq<ValidDate>, d: ValidDate): (r: ValidDate)
    ensures r !in holidays
    ensures d !in holidays ==> r == d
    ensures HolidayStep(s) > 0 ==> ToOrdinal(d) <= ToOrdinal(r)
    ensures HolidayStep(s) < 0 ==> ToOrdinal(r) <= ToOrdinal(d)
    decreases if HolidayStep(s) > 0 then MaxOrdinal(holidays) - ToOrdinal(d) else ToOrdinal(d) - MinOrdinal(holidays)
  {
    if d in holidays then PastHolidays(s, holidays, SkipHoliday(s, d)) else d
  }

  /** d moved k holiday steps. */
  function Stepped(s: Schedule, d: ValidDate, k: int): ValidDate {
    AddDays(d, k * HolidayStep(s))
  }

  /** No holiday step leaves d where it is. */
  lemma SteppedZero(s: Schedule, d: ValidDate)
    ensures Stepped(s, d, 0) == d
  {
    OrdinalInjective(Stepped(s, d, 0), d);
  }

  /** One holiday step and then j more is j + 1 holiday steps. */
  lemma SteppedShift(s: Schedule, d: ValidDate, j: int)
    ensures Stepped(s, d, j + 1) == Stepped(s, SkipHoliday(s, d), j)
  {
    assert (j + 1) * HolidayStep(s) == j * HolidayStep(s) + HolidayStep(s);
    OrdinalInjective(Stepped(s, d, j + 1), Stepped(s, SkipHoliday(s, d), j));
  }

  /** From a holiday d, the days stepped over from the day after the first step are the days
      stepped over from d, shifted by one step. */
  lemma SteppedOverFromHoliday(s: Schedule, holidays: seq<ValidDate>, d: ValidDate, k: nat)
    requires d in holidays
    requires forall j :: 0 <= j < k ==> Stepped(s, SkipHoliday(s, d), j) in holidays
    ensures forall j :: 0 <= j < k + 1 ==> Stepped(s, d, j) in holidays
  {
    SteppedZero(s, d);
    forall j | 0 <= j < k + 1
      ensures Stepped(s, d, j) in holidays
    {
      if j > 0 {
        SteppedShift(s, d, j - 1);
      }
    }
  }

  /** From a holiday d, k steps past holidays from the first step are k + 1 steps from d. */
  lemma PastHolidaysFromHoliday(s: Schedule, holidays: seq<ValidDate>, d: ValidDate, k: nat)
    requires d in holidays
    requires PastHolidays(s, holidays, SkipHoliday(s, d)) == Stepped(s, SkipHoliday(s, d), k)
    ensures PastHolidays(s, holidays, d) == Stepped(s, d, k + 1)
  {
    SteppedShift(s, d, k);
  }

  /** Moving past holidays takes the least number of holiday steps that lands on a day that
      is no holiday: every day stepped over is a holiday. */
  lemma {:induction false} PastHolidaysSteps(s: Schedule, holidays: seq<ValidDate>, d: ValidDate)
    ensures exists k: nat :: PastHolidays(s, holidays, d) == Stepped(s, d, k)
                             && forall j :: 0 <= j < k ==> Stepped(s, d, j) in holidays
    decreases if HolidayStep(s) > 0 then MaxOrdinal(holidays) - ToOrdinal(d) else ToOrdinal(d) - MinOrdinal(holidays)
  {
    if d in holidays {
      var next := SkipHoliday(s, d);
      PastHolidaysSteps(s, holidays, next);
      var k: nat :| PastHolidays(s, holidays, next) == Stepped(s, next, k)
                    && forall j :: 0 <= j < k ==> Stepped(s, next, j) in holidays;
      SteppedOverFromHoliday(s, holidays, d, k);
      PastHolidaysFromHoliday(s, holidays, d, k);
    } else {
      SteppedZero(s, d);
    }
  }

  /** A holiday lies in d's week up to d: from the Monday of that week to d itself. */
  predicate HolidayInWeek(holidays: seq<ValidDate>, d: ValidDate) {
    exists i :: 0 <= i < |holidays| && ToOrdinal(d) - Weekday(d) <= ToOrdinal(holidays[i]) <= ToOrdinal(d)
  }

  /** Bounds of the holiday ordinals, used as the measure of the holiday-skipping loop. */
  function MaxOrdinal(dates: seq<ValidDate>): (m: int)
    ensures forall x :: x in dates ==> ToOrdinal(x) <= m
  {
    if dates == [] then 0
    else
      var rest := MaxOrdinal(dates[1..]);
      assert forall x :: x in dates ==> x == dates[0] || x in dates[1..];
      if ToOrdinal(dates[0]) > rest then ToOrdinal(dates[0]) else rest
  }

  function MinOrdinal(dates: seq<ValidDate>): (m: int)
    ensures forall x :: x in dates ==> m <= ToOrdinal(x)
  {
    if dates == [] then 0
    else
      var rest := MinOrdinal(dates[1..]);
      assert forall x :: x in dates ==> x == dates[0] || x in dates[1..];
      if ToOrdinal(dates[0]) < rest then ToOrdinal(dates[0]) else rest
  }

  /** The position of the first date in list order that is not before day1. */
  function FirstNotBefore(dates: seq<ValidDate>, day1: ValidDate): (r: Option<nat>)
    ensures r.Some? ==> r.value < |dates| && NotAfter(day1, dates[r.value])
    ensures r.Some? ==> forall j :: 0 <= j < r.value ==> !NotAfter(day1, dates[j])
    ensures r.None? ==> forall j :: 0 <= j < |dates| ==> !NotAfter(day1, dates[j])
  {
    if dates == [] then None
    else if NotAfter(day1, dates[0]) then Some(0)
    else match FirstNotBefore(dates[1..], day1)
      case None => None
      case Some(i) => Some(i + 1)
  }

  /** `_insert_include_date(day1, next_date)`: the first include date (in list order) not
      before day1 replaces next_date when there is no next date or it comes earlier. */
  function InsertIncludeDate(s: Schedule, day1: ValidDate, next: Option<ValidDate>): (r: Option<ValidDate>)
    ensures next.Some? ==> r.Some?
    ensures r != next ==> (r.Some? && r.value in s.includeDates && NotAfter(day1, r.value)
                           && (next.None? || CalendarLess(r.value, next.value)))
    ensures next.None? ==> (r.None? <==> forall x :: x in s.includeDates ==> !NotAfter(day1, x))
    ensures r != next ==> exists i :: FirstDateFrom(s.includeDates, day1, i) && r == Some(s.includeDates[i])
    ensures forall i :: FirstDateFrom(s.includeDates, day1, i) && (next.None? || CalendarLess(s.includeDates[i], next.value)) ==>
              r == Some(s.includeDates[i])
  {
    match FirstNotBefore(s.includeDates, day1)
    case Some(i) =>
      assert forall j :: FirstDateFrom(s.includeDates, day1, j) ==> j == i;
      if next.None? || CalendarLess(s.includeDates[i], next.value) then
        assert FirstDateFrom(s.includeDates, day1, i);
        Some(s.includeDates[i])
      else next
    case None => next
  }

  /** i is the position of the first date in list order that is not before day1. */
  predicate FirstDateFrom(dates: seq<ValidDate>, day1: ValidDate, i: int) {
    0 <= i < |dates| && NotAfter(day1, dates[i]) && forall j :: 0 <= j < i ==> !NotAfter(day1, dates[j])
  }

  /** Where the search of `_async_find_next_date` goes on after a turn whose candidate, shifted
      and past holidays, is `candidate`, as the code does it: at the date `move_to_range` moves
      the candidate to when it moves it, else at the day after day1. */
  function NextSearchStartAsWritten(s: Schedule, day1: ValidDate, candidate: ValidDate): (r: ValidDate)
    ensures MoveToRange(s, candidate) != candidate ==>
              r.day == 1 && r.month == s.firstMonth && DateInside(s, r) && CalendarLess(candidate, r)
    ensures MoveToRange(s, candidate) == candidate ==> ToOrdinal(r) == ToOrdinal(day1) + 1
  {
    var moved := MoveToRange(s, candidate);
    if moved != candidate then moved else AddDays(day1, 1)
  }

  /** Where the search goes on, corrected so that it always moves forward (see "Findings" in
      the README): at the date `move_to_range` moves the candidate to when that is after day1,
      else at the day after day1. Wherever the candidate is not before day1 it is the code's
      restart point. */
  function NextSearchStart(s: Schedule, day1: ValidDate, candidate: ValidDate): (r: ValidDate)
    ensures CalendarLess(day1, r)
    ensures NotAfter(day1, candidate) ==> r == NextSearchStartAsWritten(s, day1, candidate)
    ensures r != AddDays(day1, 1) ==> MoveToRange(s, candidate) != candidate && r == MoveToRange(s, candidate)
  {
    var moved := MoveToRange(s, candidate);
    OrdinalOrder(day1, AddDays(day1, 1));
    if moved != candidate && CalendarLess(day1, moved) then moved
    else
      OrdinalOrder(day1, candidate);
      OrdinalOrder(candidate, moved);
      AddDays(day1, 1)
  }

  // ---------------------------------------------------------------------------------------
  // The sorted list of collection dates
  // ---------------------------------------------------------------------------------------

  predicate Sorted(dates: seq<ValidDate>) {
    forall i, j :: 0 <= i < j < |dates| ==> NotAfter(dates[i], dates[j])
  }

  /** A date not after any date of a sorted list stays sorted in front of it. */
  lemma PrependSorted(d: ValidDate, dates: seq<ValidDate>)
    requires Sorted(dates)
    requires forall y :: y in dates ==> NotAfter(d, y)
    ensures Sorted([d] + dates)
  {
    var r := [d] + dates;
    forall i, j | 0 <= i < j < |r|
      ensures NotAfter(r[i], r[j])
    {
      assert r[j] == dates[j - 1];
      if i > 0 {
        assert r[i] == dates[i - 1];
      }
    }
  }

  /** Inserting a date into a sorted list in order. */
  function InsertDate(dates: seq<ValidDate>, x: ValidDate): (r: seq<ValidDate>)
    requires Sorted(dates)
    ensures Sorted(r) && multiset(r) == multiset(dates) + multiset{x}
  {
    if dates == [] then [x]
    else if NotAfter(x, dates[0]) then
      PrependSorted(x, dates);
      [x] + dates
    else
      assert dates == [dates[0]] + dates[1..];
      var rest := InsertDate(dates[1..], x);
      InsertedFollow(dates, x, rest);
      PrependSorted(dates[0], rest);
      [dates[0]] + rest
  }

  /** After the head of a sorted list, and a date that follows it, come only dates that follow it. */
  lemma InsertedFollow(dates: seq<ValidDate>, x: ValidDate, rest: seq<ValidDate>)
    requires Sorted(dates) && dates != [] && CalendarLess(dates[0], x)
    requires multiset(rest) == multiset(dates[1..]) + multiset{x}
    ensures forall y :: y in rest ==> NotAfter(dates[0], y)
  {
    forall y | y in rest
      ensures NotAfter(dates[0], y)
    {
      assert y in multiset(rest);
      if y != x {
        assert y in multiset(dates[1..]);
        var k :| 0 <= k < |dates[1..]| && dates[1..][k] == y;
        assert dates[k + 1] == y;
      }
    }
  }

  /** `list.sort()` on dates: a sorted rearrangement of the list. */
  function SortDates(dates: seq<ValidDate>): (r: seq<ValidDate>)
    ensures Sorted(r) && multiset(r) == multiset(dates)
  {
    if dates == [] then []
    else
      assert dates == dates[..|dates| - 1] + [dates[|dates| - 1]];
      InsertDate(SortDates(dates[..|dates| - 1]), dates[|dates| - 1])
  }

  /** A list of dates has only one sorted arrangement, so `SortDates` is the list that any
      correct sort produces. */
  lemma {:induction false} SortedArrangementUnique(a: seq<ValidDate>, b: seq<ValidDate>)
    requires Sorted(a) && Sorted(b) && multiset(a) == multiset(b)
    ensures a == b
    decreases |a|
  {
    assert |multiset(a)| == |a| && |multiset(b)| == |b|;
    if a != [] {
      HeadIsLeast(a, b[0]);
      HeadIsLeast(b, a[0]);
      assert a[0] == b[0];
      assert a == [a[0]] + a[1..] && b == [b[0]] + b[1..];
      assert multiset(a) == multiset{a[0]} + multiset(a[1..]);
      assert multiset(b) == multiset{b[0]} + multiset(b[1..]);
      assert multiset(a[1..]) == multiset(a) - multiset{a[0]};
      assert multiset(b[1..]) == multiset(b) - multiset{b[0]};
      SortedTail(a);
      SortedTail(b);
      SortedArrangementUnique(a[1..], b[1..]);
    }
  }

  /** The head of a sorted list is not after any of its dates. */
  lemma HeadIsLeast(dates: seq<ValidDate>, y: ValidDate)
    requires Sorted(dates) && y in multiset(dates)
    ensures NotAfter(dates[0], y)
  {
    var k :| 0 <= k < |dates| && dates[k] == y;
    if k > 0 {
      assert NotAfter(dates[0], dates[k]);
    }
  }

  lemma SortedTail(dates: seq<ValidDate>)
    requires Sorted(dates) && dates != []
    ensures Sorted(dates[1..])
  {
    forall i, j | 0 <= i < j < |dates| - 1
      ensures NotAfter(dates[1..][i], dates[1..][j])
    {
      assert dates[1..][i] == dates[i + 1] && dates[1..][j] == dates[j + 1];
    }
  }

  /** `list.remove(x)`: the list without the first occurrence of x. */
  function RemoveFirst(dates: seq<ValidDate>, x: ValidDate): (r: seq<ValidDate>)
    requires x in dates
    ensures |r| == |dates| - 1
    ensures multiset(r) == multiset(dates) - multiset{x}
  {
    if dates[0] == x then
      assert dates == [dates[0]] + dates[1..];
      dates[1..]
    else
      assert dates == [dates[0]] + dates[1..];
      [dates[0]] + RemoveFirst(dates[1..], x)
  }

  /** Removing a date keeps a sorted list sorted. */
  lemma {:induction false} RemoveKeepsSorted(dates: seq<ValidDate>, x: ValidDate)
    requires x in dates && Sorted(dates)
    ensures Sorted(RemoveFirst(dates, x))
  {
    SortedTail(dates);
    if dates[0] != x {
      RemoveKeepsSorted(dates[1..], x);
      var rest := RemoveFirst(dates[1..], x);
      forall y | y in rest
        ensures NotAfter(dates[0], y)
      {
        assert y in multiset(rest);
        assert y in multiset(dates);
        HeadIsLeast(dates, y);
      }
      PrependSorted(dates[0], rest);
    }
  }

  // ---------------------------------------------------------------------------------------
  // The entity
  // ---------------------------------------------------------------------------------------

  /** The window `_async_load_collection_dates` fills: from January 1 of the year before
      today's to December 31 of the year after. */
  function WindowStart(today: ValidDate): ValidDate {
    Date(today.year - 1, 1, 1)
  }

  function WindowEnd(today: ValidDate): ValidDate {
    Date(today.year + 1, 12, 31)
  }

  predicate InWindow(today: ValidDate, d: ValidDate) {
    NotAfter(WindowStart(today), d) && NotAfter(d, WindowEnd(today))
  }

  /** How far a found date is from the end of the window; the measure of the loading loop. */
  function Remaining(found: Bounded<Option<ValidDate>>, end: ValidDate): int {
    if found.Finished? && found.outcome.Ok? && found.outcome.value.Some? then
      ToOrdinal(end) - ToOrdinal(found.outcome.value.value)
    else -1
  }

  /** A garbage collection sensor: its schedule, the holidays and collection dates it has
      loaded, and what it shows (next date, days to go, state and icon). */
  class GarbageCollection {
    const settings: Schedule
    /** `hass.data[DOMAIN][SENSOR_PLATFORM][entity_id].async_next_date(day1)` for a member of
        a group: KeyError when no such entity is registered. */
    const memberNextDate: (string, ValidDate) -> Outcome<Option<ValidDate>>
    /** `verbose_format.format(date=next_date.strftime(date_format), days=days)`. */
    const verboseText: (ValidDate, int) -> string

    var holidays: seq<ValidDate>
    var collectionDates: seq<ValidDate>
    var nextDate: Option<ValidDate>
    var lastUpdated: Option<Moment>
    var lastCollection: Option<Moment>
    var days: Option<int>
    var state: SensorState
    var icon: Option<string>

    /** The state `__init__` leaves: nothing loaded and nothing shown yet. */
    predicate Initial()
      reads this
    {
      holidays == [] && collectionDates == [] && nextDate.None? && lastUpdated.None?
      && lastCollection.None? && days.None?
      && state == (if settings.verboseState then Text("") else Count(2))
      && icon == settings.iconNormal
    }

    /** What the entity shows and remembers besides its date lists. */
    function Shown(): (Option<ValidDate>, Option<Moment>, Option<Moment>, Option<int>, SensorState, Option<string>)
      reads this
    {
      (nextDate, lastUpdated, lastCollection, days, state, icon)
    }

    constructor(settings: Schedule, memberNextDate: (string, ValidDate) -> Outcome<Option<ValidDate>>,
                verboseText: (ValidDate, int) -> string)
      ensures this.settings == settings && this.memberNextDate == memberNextDate && this.verboseText == verboseText
      ensures Initial()
    {
      this.settings := settings;
      this.memberNextDate := memberNextDate;
      this.verboseText := verboseText;
      holidays := [];
      collectionDates := [];
      nextDate := None;
      lastUpdated := None;
      lastCollection := None;
      days := None;
      state := if settings.verboseState then Text("") else Count(2);
      icon := settings.iconNormal;
    }

    /** c is the answer of a group from day1: the earliest next date of its members, None
        when none of them has one. */
    predicate GroupEarliest(entities: seq<string>, day1: ValidDate, c: Option<ValidDate>) {
      (forall e :: e in entities ==> memberNextDate(e, day1).Ok?)
      && (c.None? ==> forall e :: e in entities ==> memberNextDate(e, day1) == Ok(None))
      && (c.Some? ==> (exists e :: e in entities && memberNextDate(e, day1) == Ok(c))
                      && forall e :: e in entities && memberNextDate(e, day1).value.Some? ==>
                           NotAfter(c.value, memberNextDate(e, day1).value.value))
    }

    /** The group candidate from day1. A missing entity list (TypeError) and an unknown
        member (KeyError) raise ValueError; other errors of a member escape. */
    method GroupCandidate(day1: ValidDate) returns (r: Outcome<Option<ValidDate>>)
      ensures settings.entities.None? ==> r == Raised(ValueError)
      ensures r.Ok? ==> settings.entities.Some? && GroupEarliest(settings.entities.value, day1, r.value)
      ensures settings.entities.Some? && (forall e :: e in settings.entities.value ==> memberNextDate(e, day1).Ok?) ==> r.Ok?
      ensures r.Raised? && settings.entities.Some? ==>
                exists e :: e in settings.entities.value && memberNextDate(e, day1).Raised?
                            && r.error == (if memberNextDate(e, day1).error in {KeyError, TypeError} then ValueError
                                           else memberNextDate(e, day1).error)
    {
      if settings.entities.None? {
        return Raised(ValueError);
      }
      var entities := settings.entities.value;
      var candidate: Option<ValidDate> := None;
      for i := 0 to |entities|
        invariant forall j :: 0 <= j < i ==> memberNextDate(entities[j], day1).Ok?
        invariant candidate.None? ==> forall j :: 0 <= j < i ==> memberNextDate(entities[j], day1) == Ok(None)
        invariant candidate.Some? ==> exists j :: 0 <= j < i && memberNextDate(entities[j], day1) == Ok(candidate)
        invariant candidate.Some? ==> forall j :: 0 <= j < i && memberNextDate(entities[j], day1).value.Some? ==>
                                         NotAfter(candidate.value, memberNextDate(entities[j], day1).value.value)
      {
        var d := memberNextDate(entities[i], day1);
        if d.Raised? {
          return Raised(if d.error in {KeyError, TypeError} then ValueError else d.error);
        }
        if d.value.Some? && (candidate.None? || CalendarLess(d.value.value, candidate.value)) {
          candidate := d.value;
        }
      }
      return Ok(candidate);
    }

    /** The scan of day1's week in `_async_find_candidate_date`: the days from day1 to the
        first listed collection day not before day1's weekday, or -1 when there is none; a name
        that is not a weekday raises ValueError. */
    static method WeekOffset(weekday: int, names: seq<string>) returns (r: Outcome<int>)
      requires 0 <= weekday <= 6
      ensures r.Ok? ==> r.value == -1 || (0 <= r.value <= 6 - weekday && ConfigFlow.WEEKDAYS[weekday + r.value] in names)
      ensures r.Ok? && r.value != -1 ==>
                exists j :: FirstListedFrom(weekday, names, j) && r.value == IndexOf(ConfigFlow.WEEKDAYS, names[j]) - weekday
      ensures r == Ok(-1) <==> ScannedBefore(weekday, names, |names|)
      ensures r.Raised? ==> r.error == ValueError && exists name :: name in names && name !in ConfigFlow.WEEKDAYS
      ensures r.Raised? ==> exists j :: 0 <= j < |names| && names[j] !in ConfigFlow.WEEKDAYS && ScannedBefore(weekday, names, j)
      ensures (forall name :: name in names ==> name in ConfigFlow.WEEKDAYS) ==> r.Ok?
    {
      for i := 0 to |names|
        invariant ScannedBefore(weekday, names, i)
      {
        if names[i] !in ConfigFlow.WEEKDAYS {
          ScanFails(weekday, names, i);
          return Raised(ValueError);
        }
        var dayIndex := IndexOf(ConfigFlow.WEEKDAYS, names[i]);
        if dayIndex >= weekday {
          assert FirstListedFrom(weekday, names, i);
          ScanFinds(weekday, names, i);
          return Ok(dayIndex - weekday);
        }
      }
      return Ok(-1);
    }

    /** The date n days after d (`d + timedelta(days=n)`). */
    static method Shift(d: ValidDate, n: int) returns (c: ValidDate)
      ensures ToOrdinal(c) == ToOrdinal(d) + n
    {
      c := AddDays(d, n);
    }

    /** The date `offset` days after day1 in day1's collection week. */
    static method ThisWeekDate(day1: ValidDate, period: int, firstWeek: int, days: Option<seq<string>>, offset: int)
      returns (c: ValidDate)
      requires period != 0 && PyMod(IsoWeek(day1) - firstWeek, period) == 0
      requires days.Some? && CollectionDayIndex(days).Ok?
      requires 0 <= offset <= 6 - Weekday(day1) && ConfigFlow.WEEKDAYS[Weekday(day1) + offset] in days.value
      ensures ToOrdinal(c) == ToOrdinal(day1) + offset
      ensures CycleCollection(period, firstWeek, days, day1, c)
    {
      c := Shift(day1, offset);
      ThisWeekCollection(CollectionDayIndex(days).value, days.value, day1, c, offset,
                         PyMod(IsoWeek(day1) - firstWeek, period) == 0, PyMod(IsoWeek(c) - firstWeek, period) == 0);
    }

    /** The `iterate_by_week` loop: the first collection day of the first week after day1's
        week whose ISO week number is a collection week; None when the fuel runs out first. */
    static method WeeksAhead(day1: ValidDate, period: int, firstWeek: int, days: Option<seq<string>>, fuel: nat)
      returns (r: Option<ValidDate>)
      requires period != 0 && days.Some? && CollectionDayIndex(days).Ok?
      ensures r.Some? ==> CycleCollection(period, firstWeek, days, day1, r.value)
      ensures r.Some? ==> FirstDueWeekAhead(period, firstWeek, CollectionDayIndex(days).value, day1, r.value)
      ensures r.None? ==> NoDueWeekBefore(period, firstWeek, CollectionDayIndex(days).value, day1, fuel + 1)
    {
      var first := CollectionDayIndex(days).value;
      var iterateByWeek := 7 - Weekday(day1) + first;
      var weeks := 1;
      while weeks <= fuel
        invariant 1 <= weeks
        invariant iterateByWeek == first - Weekday(day1) + 7 * weeks
        invariant NoDueWeekBefore(period, firstWeek, first, day1, weeks)
        decreases fuel - weeks
      {
        var candidate := Shift(day1, iterateByWeek);
        if PyMod(IsoWeek(candidate) - firstWeek, period) == 0 {
          LaterCycleCollection(period, firstWeek, days, day1, candidate, weeks);
          FoundWeek(period, firstWeek, first, day1, weeks, candidate);
          return Some(candidate);
        }
        PassedWeek(period, firstWeek, first, day1, weeks, candidate);
        iterateByWeek := iterateByWeek + 7;
        weeks := weeks + 1;
      }
      return None;
    }

    /** The every-n-weeks candidate from day1 for a cycle (period, first week): later in day1's
        week when that is a collection week and a collection day is still to come, else the
        first collection day of the next collection week, searched week by week. */
    static method WeeklyFrom(day1: ValidDate, period: int, firstWeek: int, days: Option<seq<string>>, fuel: nat)
      returns (r: Bounded<ValidDate>)
      requires period != 0
      ensures r.Finished? && r.outcome.Ok? ==> CycleCollection(period, firstWeek, days, day1, r.outcome.value)
      ensures r.Finished? && r.outcome.Ok? ==> WeeklyPick(period, firstWeek, days, day1, r.outcome.value)
      ensures r.Finished? && r.outcome.Raised? ==>
                CollectionDayIndex(days).Raised? || exists name :: name in days.value && name !in ConfigFlow.WEEKDAYS
    {
      if PyMod(IsoWeek(day1) - firstWeek, period) == 0 {
        if days.None? {
          return Finished(Raised(TypeError));
        }
        var offset := WeekOffset(Weekday(day1), days.value);
        if offset.Raised? {
          return Finished(Raised(offset.error));
        }
        if offset.value != -1 {
          if CollectionDayIndex(days).Raised? {
            return Finished(Raised(CollectionDayIndex(days).error));
          }
          var c := ThisWeekDate(day1, period, firstWeek, days, offset.value);
          PickThisWeek(period, firstWeek, days, day1, c, offset.value);
          return Finished(Ok(c));
        }
      }
      var first := CollectionDayIndex(days);
      if first.Raised? {
        return Finished(Raised(first.error));
      }
      var later := WeeksAhead(day1, period, firstWeek, days, fuel);
      if later.None? {
        return OutOfFuel;
      }
      PickLaterWeek(period, firstWeek, days, day1, later.value);
      return Finished(Ok(later.value));
    }

    /** The weekly, even-weeks, odd-weeks and every-n-weeks candidate from day1. */
    method WeeklyCandidate(day1: ValidDate, fuel: nat) returns (r: Bounded<ValidDate>)
      ensures WeekCycle(settings).Raised? ==> r == Finished(Raised(WeekCycle(settings).error))
      ensures r.Finished? && r.outcome.Ok? ==> WeeklyCollection(settings, day1, r.outcome.value)
      ensures r.Finished? && r.outcome.Ok? ==>
                WeekCycle(settings).Ok? &&
                WeeklyPick(WeekCycle(settings).value.0, WeekCycle(settings).value.1, settings.collectionDays, day1, r.outcome.value)
      ensures r.Finished? && r.outcome.Raised? && WeekCycle(settings).Ok? ==>
                CollectionDayIndex(settings.collectionDays).Raised?
                || exists name :: name in settings.collectionDays.value && name !in ConfigFlow.WEEKDAYS
    {
      var cycle := WeekCycle(settings);
      if cycle.Raised? {
        return Finished(Raised(cycle.error));
      }
      r := WeeklyFrom(day1, cycle.value.0, cycle.value.1, settings.collectionDays, fuel);
    }

    /** The monthly candidate from day1; with a period other than 1 the search goes on from
        the day after each candidate until one lies a whole number of periods after the first
        month. */
    method MonthlyWithPeriod(day1: ValidDate, fuel: nat) returns (r: Bounded<ValidDate>)
      ensures settings.period.None? || settings.period == Some(1) || MonthlyCandidate(settings, day1).Raised? ==>
                r == Finished(MonthlyCandidate(settings, day1))
      ensures r.Finished? && r.outcome.Ok? ==> MonthlyCollection(settings, r.outcome.value)
      ensures settings.period == Some(0) && MonthlyCandidate(settings, day1).Ok? ==> r == Finished(Raised(ZeroDivisionError))
      ensures settings.period.Some? && settings.period.value != 0 && settings.period.value != 1 && r.Finished?
              && MonthlyCandidate(settings, day1).Ok? ==>
                MonthlyReady(settings) && r.outcome.Ok? &&
                FirstDueInChain(settings, PeriodCandidate(settings, day1).value, r.outcome.value)
      ensures settings.period.Some? && settings.period.value != 0 && settings.period.value != 1 && r.OutOfFuel? ==>
                MonthlyReady(settings) && NoDueMonthBefore(settings, PeriodCandidate(settings, day1).value, fuel + 1)
    {
      var first := MonthlyCandidate(settings, day1);
      if settings.period.None? || settings.period.value == 1 || first.Raised? {
        return Finished(first);
      }
      if settings.period.value == 0 {
        return Finished(Raised(ZeroDivisionError));
      }
      var start := PeriodCandidate(settings, day1).value;
      r := PeriodMonth(settings, start, fuel);
      if r.Finished? {
        FirstDueIsCollection(settings, start, r.outcome.value);
      }
    }

    /** The monthly candidate after `candidate` (`candidate + 1 day`), for a schedule whose
        monthly candidate cannot raise: the next link of the period loop's chain. */
    static method NextMonthly(s: Schedule, candidate: ValidDate, ghost start: ValidDate, ghost k: nat) returns (c: ValidDate)
      requires MonthlyReady(s) && candidate == MonthlyChain(s, start, k)
      ensures c == MonthlyChain(s, start, k + 1)
    {
      c := PeriodCandidate(s, AddDays(candidate, 1)).value;
      ChainNext(s, start, k);
    }

    /** The `while` loop of the monthly frequency with a period: monthly candidates, each from
        the day after the last, until one is in a month a whole number of periods after the
        first month. */
    static method PeriodMonth(s: Schedule, candidate: ValidDate, fuel: nat) returns (r: Bounded<ValidDate>)
      requires s.period.Some? && s.period.value != 0 && s.period.value != 1
      requires MonthlyReady(s)
      ensures r.Finished? ==> r.outcome.Ok? && FirstDueInChain(s, candidate, r.outcome.value)
      ensures r.OutOfFuel? ==> NoDueMonthBefore(s, candidate, fuel + 1)
    {
      var current := candidate;
      var steps: nat := 0;
      while !DueMonth(s, current)
        invariant steps <= fuel
        invariant current == MonthlyChain(s, candidate, steps)
        invariant NoDueMonthBefore(s, candidate, steps)
        decreases fuel - steps
      {
        MonthPassed(s, candidate, steps);
        if steps == fuel {
          return OutOfFuel;
        }
        current := NextMonthly(s, current, candidate, steps);
        steps := steps + 1;
      }
      ChainFound(s, candidate, steps, current);
      return Finished(Ok(current));
    }

    /** `_async_find_candidate_date(day1)`: the next date the frequency alone allows from day1. */
    method FindCandidate(day1: ValidDate, fuel: nat) returns (r: Bounded<Option<ValidDate>>)
      ensures settings.frequency == "blank" ==> r == Finished(Ok(None))
      ensures settings.frequency in WEEKLY_FREQUENCIES && r.Finished? && r.outcome.Ok? ==>
                r.outcome.value.Some? && WeeklyCollection(settings, day1, r.outcome.value.value)
      ensures settings.frequency in WEEKLY_FREQUENCIES && r.Finished? && r.outcome.Ok? ==>
                r.outcome.value.Some? && WeekCycle(settings).Ok? &&
                WeeklyPick(WeekCycle(settings).value.0, WeekCycle(settings).value.1, settings.collectionDays, day1,
                           r.outcome.value.value)
      ensures settings.frequency in WEEKLY_FREQUENCIES && WeekCycle(settings).Raised? ==>
                r == Finished(Raised(WeekCycle(settings).error))
      ensures settings.frequency == "every-n-days" ==> r == Finished(Lift(EveryNDaysCandidate(settings, day1)))
      ensures settings.frequency == "monthly" && (settings.period.None? || settings.period == Some(1)) ==>
                r == Finished(Lift(MonthlyCandidate(settings, day1)))
      ensures settings.frequency == "monthly" && r.Finished? && r.outcome.Ok? ==>
                r.outcome.value.Some? && MonthlyCollection(settings, r.outcome.value.value)
      ensures settings.frequency == "monthly" && settings.period.Some? && settings.period.value != 0
              && settings.period.value != 1 && r.Finished? && r.outcome.Ok? ==>
                r.outcome.value.Some? && MonthlyReady(settings) && MonthlyCandidate(settings, day1).Ok? &&
                FirstDueInChain(settings, PeriodCandidate(settings, day1).value, r.outcome.value.value)
      ensures settings.frequency == "monthly" && MonthlyCandidate(settings, day1).Raised? ==>
                r == Finished(Raised(MonthlyCandidate(settings, day1).error))
      ensures settings.frequency == "annual" ==> r == Finished(Lift(AnnualCandidate(settings, day1)))
      ensures settings.frequency == "group" ==> r.Finished?
      ensures settings.frequency == "group" && r.outcome.Ok? ==>
                settings.entities.Some? && GroupEarliest(settings.entities.value, day1, r.outcome.value)
      ensures settings.frequency == "group" && settings.entities.None? ==> r == Finished(Raised(ValueError))
      ensures settings.frequency !in KNOWN_FREQUENCIES ==> r == Finished(Raised(ValueError))
    {
      if settings.frequency == "blank" {
        return Finished(Ok(None));
      } else if settings.frequency in WEEKLY_FREQUENCIES {
        var c := WeeklyCandidate(day1, fuel);
        if c.OutOfFuel? {
          return OutOfFuel;
        }
        return Finished(Lift(c.outcome));
      } else if settings.frequency == "every-n-days" {
        return Finished(Lift(EveryNDaysCandidate(settings, day1)));
      } else if settings.frequency == "monthly" {
        var c := MonthlyWithPeriod(day1, fuel);
        if c.OutOfFuel? {
          return OutOfFuel;
        }
        return Finished(Lift(c.outcome));
      } else if settings.frequency == "annual" {
        return Finished(Lift(AnnualCandidate(settings, day1)));
      } else if settings.frequency == "group" {
        var c := GroupCandidate(day1);
        return Finished(c);
      }
      return Finished(Raised(ValueError));
    }

    /** `_async_skip_holidays(candidate)`: with the in-week move, a holiday earlier in the
        candidate's week (or on it) moves the candidate once; then the candidate moves on past
        every holiday it lands on, in the direction of the holiday move offset. */
    method SkipHolidays(candidate: ValidDate) returns (r: ValidDate)
      ensures r !in holidays
      ensures r == candidate <==> candidate !in holidays && !(settings.holidayInWeekMove && HolidayInWeek(holidays, candidate))
      ensures HolidayStep(settings) > 0 ==> ToOrdinal(candidate) <= ToOrdinal(r)
      ensures HolidayStep(settings) < 0 ==> ToOrdinal(r) <= ToOrdinal(candidate)
      ensures r == PastHolidays(settings, holidays,
                                if settings.holidayInWeekMove && HolidayInWeek(holidays, candidate)
                                then SkipHoliday(settings, candidate) else candidate)
    {
      var step := HolidayStep(settings);
      var moved := settings.holidayInWeekMove && HolidayInWeek(holidays, candidate);
      r := candidate;
      if moved {
        r := SkipHoliday(settings, r);
      }
      ghost var start := r;
      while r in holidays
        invariant PastHolidays(settings, holidays, r) == PastHolidays(settings, holidays, start)
        invariant step > 0 ==> ToOrdinal(candidate) <= ToOrdinal(r)
        invariant step < 0 ==> ToOrdinal(r) <= ToOrdinal(candidate)
        invariant r == candidate <==> !moved && ToOrdinal(r) == ToOrdinal(candidate)
        invariant !moved && candidate !in holidays ==> r == candidate
        decreases if step > 0 then MaxOrdinal(holidays) - ToOrdinal(r) else ToOrdinal(r) - MinOrdinal(holidays)
      {
        r := SkipHoliday(settings, r);
      }
    }

    /** d may be collected as found: not excluded, not a holiday, inside the month range. */
    predicate Collectable(d: ValidDate)
      reads this`holidays
    {
      d !in settings.excludeDates && d !in holidays && MoveToRange(settings, d) == d
    }

    /** `_async_find_next_date(first_date)`: from a look-back before first_date (moved into
        the month range), candidates are found, shifted by the offset and past holidays, and the
        first one inside the range, not before first_date and not excluded is taken; an
        earlier include date then takes its place. After each turn the search goes on from
        `NextSearchStart`, the corrected restart point. A TypeError or ValueError of the search
        gives None; a missing offset or holiday move offset makes the look-back raise TypeError. */
    method FindNextDate(firstDate: ValidDate, fuel: nat) returns (r: Bounded<Option<ValidDate>>, ghost reached: ValidDate)
      ensures settings.frequency == "blank" ==> r == Finished(Ok(None))
      ensures settings.frequency != "blank" && (settings.offset.None? || settings.holidayMoveOffset.None?) ==>
                r == Finished(Raised(TypeError))
      ensures r.Finished? && r.outcome.Raised? ==>
                r.outcome.error != ValueError
                && (r.outcome.error == TypeError ==> settings.offset.None? || settings.holidayMoveOffset.None?)
      ensures r.Finished? && r.outcome.Ok? && r.outcome.value.Some? ==>
                NotAfter(firstDate, reached) && Collectable(reached)
                && r.outcome.value == InsertIncludeDate(settings, firstDate, Some(reached))
      ensures r.Finished? && r.outcome.Ok? && r.outcome.value.Some? ==>
                NotAfter(firstDate, r.outcome.value.value)
                && (r.outcome.value.value in settings.includeDates || Collectable(r.outcome.value.value))
    {
      reached := firstDate;
      if settings.frequency == "blank" {
        return Finished(Ok(None)), reached;
      }
      if settings.offset.None? || settings.holidayMoveOffset.None? {
        return Finished(Raised(TypeError)), reached;
      }
      var offset := settings.offset.value;
      var lookBack := if offset >= settings.holidayMoveOffset.value then offset else settings.holidayMoveOffset.value;
      if settings.holidayInWeekMove && Weekday(firstDate) > lookBack {
        lookBack := Weekday(firstDate);
      }
      var day1 := MoveToRange(settings, AddDays(firstDate, -lookBack));
      var next: Option<ValidDate> := None;
      var steps: nat := 0;
      while next.None?
        invariant steps <= fuel
        invariant next.Some? ==> NotAfter(firstDate, next.value) && Collectable(next.value)
        decreases fuel - steps
      {
        if steps == fuel {
          return OutOfFuel, reached;
        }
        steps := steps + 1;
        var found := FindCandidate(day1, fuel);
        if found.OutOfFuel? {
          return OutOfFuel, reached;
        }
        if found.outcome.Raised? {
          if found.outcome.error in {TypeError, ValueError} {
            return Finished(Ok(None)), reached;
          }
          return Finished(Raised(found.outcome.error)), reached;
        }
        if found.outcome.value.None? {
          return Finished(Ok(None)), reached;
        }
        var candidate := SkipHolidays(AddDays(found.outcome.value.value, offset));
        if MoveToRange(settings, candidate) == candidate && NotAfter(firstDate, candidate)
           && candidate !in settings.excludeDates {
          next := Some(candidate);
        }
        day1 := NextSearchStart(settings, day1, candidate);
      }
      reached := next.value;
      return Finished(Ok(InsertIncludeDate(settings, firstDate, next))), reached;
    }

    /** `_async_load_collection_dates()` with today's date, the holidays `async_load_holidays`
        produced and whether that timed out given as inputs: the dates found from the start of
        the window on, one after another until one falls outside the window, sorted. */
    method LoadCollectionDates(today: ValidDate, loadedHolidays: seq<ValidDate>, timedOut: bool, fuel: nat)
      returns (r: Bounded<()>)
      modifies this
      ensures Shown() == old(Shown())
      ensures settings.frequency == "blank" ==>
                r == Finished(Ok(())) && collectionDates == old(collectionDates) && holidays == old(holidays)
      ensures settings.frequency != "blank" ==> holidays == loadedHolidays
      ensures settings.frequency != "blank" && timedOut ==> r == Finished(Ok(())) && collectionDates == []
      ensures settings.frequency != "blank" && r == Finished(Ok(())) ==> Sorted(collectionDates)
      ensures settings.frequency != "blank" ==>
                forall d :: d in collectionDates ==> InWindow(today, d) && (d in settings.includeDates || Collectable(d))
    {
      if settings.frequency == "blank" {
        return Finished(Ok(()));
      }
      collectionDates := [];
      holidays := loadedHolidays;
      if timedOut {
        return Finished(Ok(()));
      }
      var start, end := WindowStart(today), WindowEnd(today);
      var dates: seq<ValidDate> := [];
      var found, reached := FindNextDate(start, fuel);
      while found.Finished? && found.outcome.Ok? && found.outcome.value.Some?
            && NotAfter(start, found.outcome.value.value) && NotAfter(found.outcome.value.value, end)
        modifies {}
        invariant forall d :: d in dates ==> InWindow(today, d) && (d in settings.includeDates || Collectable(d))
        invariant found.Finished? && found.outcome.Ok? && found.outcome.value.Some? ==>
                    NotAfter(start, found.outcome.value.value)
                    && (found.outcome.value.value in settings.includeDates || Collectable(found.outcome.value.value))
        decreases Remaining(found, end)
      {
        var d := found.outcome.value.value;
        OrdinalOrder(end, d);
        dates := dates + [d];
        var after := AddDays(d, 1);
        OrdinalOrder(d, after);
        found, reached := FindNextDate(after, fuel);
        if found.Finished? && found.outcome.Ok? && found.outcome.value.Some? {
          OrdinalOrder(found.outcome.value.value, after);
        }
      }
      if found.OutOfFuel? {
        collectionDates := dates;
        return OutOfFuel;
      }
      if found.outcome.Raised? {
        collectionDates := dates;
        return Finished(Raised(found.outcome.error));
      }
      SameDates(dates, SortDates(dates));
      collectionDates := SortDates(dates);
      return Finished(Ok(()));
    }

    /** `add_date(d)`: KeyError when d is already listed, else the list with d, sorted. */
    method AddDate(d: ValidDate) returns (r: Outcome<()>)
      modifies this
      ensures holidays == old(holidays) && Shown() == old(Shown())
      ensures d in old(collectionDates) ==> r == Raised(KeyError) && collectionDates == old(collectionDates)
      ensures d !in old(collectionDates) ==> r == Ok(()) && collectionDates == SortDates(old(collectionDates) + [d])
    {
      if d in collectionDates {
        return Raised(KeyError);
      }
      collectionDates := SortDates(collectionDates + [d]);
      return Ok(());
    }

    /** `remove_date(d)`: ValueError when d is not listed, else the list without it. */
    method RemoveDate(d: ValidDate) returns (r: Outcome<()>)
      modifies this
      ensures holidays == old(holidays) && Shown() == old(Shown())
      ensures d !in old(collectionDates) ==> r == Raised(ValueError) && collectionDates == old(collectionDates)
      ensures d in old(collectionDates) ==> r == Ok(()) && collectionDates == RemoveFirst(old(collectionDates), d)
    {
      if d !in collectionDates {
        return Raised(ValueError);
      }
      collectionDates := RemoveFirst(collectionDates, d);
      return Ok(());
    }

    /** Today's collection is over: past the expiry time (23:59:59 unless configured), or
        marked collected at or before now. */
    predicate Expired(now: Moment)
      reads this`lastCollection
    {
      now.time > (if settings.expireAfter.Some? then settings.expireAfter.value else END_OF_DAY)
      || (lastCollection.Some? && lastCollection.value.date == now.date && now.time >= lastCollection.value.time)
    }

    /** d can be offered as the next date: not before firstDate, and not today's collection
        when that is over (unless today is ignored). */
    predicate Eligible(d: ValidDate, firstDate: ValidDate, ignoreToday: bool, now: Moment)
      reads this`lastCollection
    {
      NotAfter(firstDate, d) && !(!ignoreToday && d == now.date && Expired(now))
    }

    /** The first eligible date of a list. */
    function FirstEligible(dates: seq<ValidDate>, firstDate: ValidDate, ignoreToday: bool, now: Moment): (r: Option<ValidDate>)
      reads this`lastCollection
      ensures r.Some? ==> exists i :: 0 <= i < |dates| && dates[i] == r.value
                                      && Eligible(r.value, firstDate, ignoreToday, now)
                                      && forall j :: 0 <= j < i ==> !Eligible(dates[j], firstDate, ignoreToday, now)
      ensures r.None? ==> forall i :: 0 <= i < |dates| ==> !Eligible(dates[i], firstDate, ignoreToday, now)
    {
      if dates == [] then None
      else if Eligible(dates[0], firstDate, ignoreToday, now) then Some(dates[0])
      else
        var rest := FirstEligible(dates[1..], firstDate, ignoreToday, now);
        assert rest.Some? ==> exists i :: 1 <= i < |dates| && dates[i] == rest.value
                                         && forall j :: 0 <= j < i ==> !Eligible(dates[j], firstDate, ignoreToday, now) by {
          if rest.Some? {
            var i :| 0 <= i < |dates[1..]| && dates[1..][i] == rest.value
                     && forall j :: 0 <= j < i ==> !Eligible(dates[1..][j], firstDate, ignoreToday, now);
            assert forall j :: 0 <= j < i + 1 ==> !Eligible(dates[j], firstDate, ignoreToday, now) by {
              forall j | 0 <= j < i + 1
                ensures !Eligible(dates[j], firstDate, ignoreToday, now)
              {
                if j > 0 {
                  assert dates[j] == dates[1..][j - 1];
                }
              }
            }
          }
        }
        rest
    }

    /** `async_next_date(first_date, ignore_today)` at the moment `now`. */
    method NextDate(firstDate: ValidDate, ignoreToday: bool, now: Moment) returns (r: Option<ValidDate>)
      ensures r == FirstEligible(collectionDates, firstDate, ignoreToday, now)
    {
      for i := 0 to |collectionDates|
        invariant FirstEligible(collectionDates, firstDate, ignoreToday, now) == FirstEligible(collectionDates[i..], firstDate, ignoreToday, now)
      {
        assert collectionDates[i..][1..] == collectionDates[i + 1..];
        var d := collectionDates[i];
        if !NotAfter(firstDate, d) {
          continue;
        }
        if !ignoreToday && d == now.date {
          var expiration := if settings.expireAfter.Some? then settings.expireAfter.value else END_OF_DAY;
          if now.time > expiration
             || (lastCollection.Some? && lastCollection.value.date == now.date && now.time >= lastCollection.value.time) {
            continue;
          }
        }
        return Some(d);
      }
      return None;
    }

    /** `async_update_state()` at the moment `now`: the next date from today, the days until
        it, and the state and icon for more than one day, tomorrow or today. Without a next
        date only the day count is cleared. */
    method UpdateState(now: Moment)
      modifies this
      ensures collectionDates == old(collectionDates) && holidays == old(holidays) && lastCollection == old(lastCollection)
      ensures nextDate == FirstEligible(collectionDates, now.date, false, now)
      ensures lastUpdated == Some(now)
      ensures nextDate.None? ==> days.None? && state == old(state) && icon == old(icon)
      ensures nextDate.Some? ==> days == Some(DaysBetween(nextDate.value, now.date)) && days.value >= 0
      ensures nextDate.Some? && days.value > 1 ==>
                state == (if settings.verboseState then Text(verboseText(nextDate.value, days.value)) else Count(2))
                && icon == settings.iconNormal
      ensures days == Some(1) ==> state == (if settings.verboseState then Text(STATE_TOMORROW) else Count(1))
                                  && icon == settings.iconTomorrow
      ensures days == Some(0) ==> state == (if settings.verboseState then Text(STATE_TODAY) else Count(0))
                                  && icon == settings.iconToday
    {
      var next := NextDate(now.date, false, now);
      var newDays, newState, newIcon := None, state, icon;
      if next.Some? {
        OrdinalOrder(next.value, now.date);
        var n := DaysBetween(next.value, now.date);
        newDays := Some(n);
        if n > 1 {
          newState := if settings.verboseState then Text(verboseText(next.value, n)) else Count(2);
          newIcon := settings.iconNormal;
        } else if n == 0 {
          newState := if settings.verboseState then Text(STATE_TODAY) else Count(0);
          newIcon := settings.iconToday;
        } else if n == 1 {
          newState := if settings.verboseState then Text(STATE_TOMORROW) else Count(1);
          newIcon := settings.iconTomorrow;
        }
      }
      nextDate, lastUpdated, days, state, icon := next, Some(now), newDays, newState, newIcon;
    }
  }

  /** A sensor for a stored configuration: `__init__` with the derived schedule. A TypeError
      from converting the date entries escapes. */
  method NewSensor(raw: RawConfig, memberNextDate: (string, ValidDate) -> Outcome<Option<ValidDate>>,
                   verboseText: (ValidDate, int) -> string)
    returns (r: Outcome<GarbageCollection>)
    ensures r.Raised? <==> Derive(raw).Raised?
    ensures r.Raised? ==> r.error == TypeError
    ensures r.Ok? ==> fresh(r.value) && r.value.settings == Derive(raw).value && r.value.Initial()
  {
    var settings := Derive(raw);
    if settings.Raised? {
      return Raised(settings.error);
    }
    var sensor := new GarbageCollection(settings.value, memberNextDate, verboseText);
    return Ok(sensor);
  }

  /** Rearranged lists hold the same dates. */
  lemma SameDates(a: seq<ValidDate>, b: seq<ValidDate>)
    requires multiset(a) == multiset(b)
    ensures forall x :: x in a <==> x in b
  {
    forall x
      ensures x in a <==> x in b
    {
      assert x in a <==> x in multiset(a);
      assert x in b <==> x in multiset(b);
    }
  }

  /** Adding a date to a sorted list gives the list with the date inserted in order. */
  lemma AddToSorted(dates: seq<ValidDate>, d: ValidDate)
    requires Sorted(dates)
    ensures SortDates(dates + [d]) == InsertDate(dates, d)
  {
    SortedArrangementUnique(SortDates(dates + [d]), InsertDate(dates, d));
  }

  // ---------------------------------------------------------------------------------------
  // Two configurations whose searches never end
  // ---------------------------------------------------------------------------------------

  /** Ordinals of dates in 2021, counted from 1 January of year 1. */
  lemma Ordinal2021(d: ValidDate)
    requires d.year == 2021
    ensures ToOrdinal(d) == 737790 + DaysBeforeMonth(2021, d.month) + d.day
  {
    assert DaysBeforeYear(2021) == 737790;
  }

  /** The Monday of the first week of June 2021 is 31 May, before 29 June. */
  lemma JuneFirstWeekPassed()
    ensures !NotAfter(Date(2021, 6, 29), NthWeekDate(1, Date(2021, 6, 29), 0))
  {
    Ordinal2021(Date(2021, 6, 1));
    Ordinal2021(Date(2021, 6, 29));
    assert Weekday(Date(2021, 6, 1)) == 1;
    OrdinalOrder(NthWeekDate(1, Date(2021, 6, 29), 0), Date(2021, 6, 29));
  }

  /** The Monday of the first week of July 2021 is 28 June. */
  lemma JulyFirstWeekStart()
    ensures NthWeekDate(1, Date(2021, 7, 1), 0) == Date(2021, 6, 28)
  {
    Ordinal2021(Date(2021, 7, 1));
    Ordinal2021(Date(2021, 6, 28));
    assert Weekday(Date(2021, 7, 1)) == 3;
    OrdinalInjective(NthWeekDate(1, Date(2021, 7, 1), 0), Date(2021, 6, 28));
  }

  /** With no date of the month left, the code's monthly date falls back to the first
      number's date in the next month, and the first week of July 2021 starts on 28 June: the
      code's monthly date of the first week's Monday from 29 June 2021 is the day before. */
  lemma FallbackBeforeDay1(day1: ValidDate)
    requires day1 == Date(2021, 6, 29)
    ensures MonthlyDateAsWritten(true, [1], day1, 0) == Date(2021, 6, 28)
  {
    JuneMondaysPassed(day1);
    JulyFirstMonday(day1);
    FallbackOfOne(true, 1, day1, 0);
  }

  /** With one ordinal number whose date in day1's month has passed, the code's monthly date
      is that number's date in the next month. */
  lemma FallbackOfOne(force: bool, n: int, day1: ValidDate, collectionDay: int)
    requires !NotAfter(day1, NthDate(force, n, day1, collectionDay))
    ensures MonthlyDateAsWritten(force, [n], day1, collectionDay) == NthDate(force, n, NextMonthStart(day1), collectionDay)
  {
    assert [n][0] == n;
  }

  /** The day after 28 June 2021. */
  lemma NextDay2021(d: ValidDate)
    requires d == Date(2021, 6, 28)
    ensures AddDays(d, 1) == Date(2021, 6, 29)
  {
    Ordinal2021(d);
    Ordinal2021(Date(2021, 6, 29));
    OrdinalInjective(AddDays(d, 1), Date(2021, 6, 29));
  }

  /** As the code computes it, a schedule collecting on the Monday of the first week of every
      other month from January stalls from 29 June 2021: the candidate is 28 June, the
      candidate from the day after it is 28 June again, and June is not a due month, so the
      period loop of `_async_find_candidate_date` never ends. */
  lemma FirstWeekMondaysStall()
    ensures MonthlyDateAsWritten(true, [1], Date(2021, 6, 29), 0) == Date(2021, 6, 28)
    ensures MonthlyDateAsWritten(true, [1], AddDays(Date(2021, 6, 28), 1), 0) == Date(2021, 6, 28)
    ensures PyMod(Date(2021, 6, 28).month - 1, 2) != 0
  {
    FallbackBeforeDay1(Date(2021, 6, 29));
    NextDay2021(Date(2021, 6, 28));
  }

  /** With ordinal numbers from 1 on, each candidate of the period loop is strictly later than
      the one before, so the loop never stays on one date. */
  lemma ChainAdvances(s: Schedule, c: ValidDate, k: nat)
    requires MonthlyReady(s) && OrderNumbers(s).value[0] >= 1
    ensures CalendarLess(MonthlyChain(s, c, k), MonthlyChain(s, c, k + 1))
  {
    var link := MonthlyChain(s, c, k);
    var after := AddDays(link, 1);
    ChainNext(s, c, k);
    OrdinalOrder(after, MonthlyChain(s, c, k + 1));
    OrdinalOrder(link, MonthlyChain(s, c, k + 1));
  }

  /** The 1st of August 2021 is a Sunday, so the Monday of August's first week is 26 July. */
  lemma AugustFirstWeekStart()
    ensures NthWeekDate(1, Date(2021, 8, 1), 0) == Date(2021, 7, 26)
  {
    Ordinal2021(Date(2021, 8, 1));
    Ordinal2021(Date(2021, 7, 26));
    assert Weekday(Date(2021, 8, 1)) == 6;
    OrdinalInjective(NthWeekDate(1, Date(2021, 8, 1), 0), Date(2021, 7, 26));
  }

  /** 28 June 2021 comes before 29 June and 12 July after it. */
  lemma AroundJune29()
    ensures !NotAfter(Date(2021, 6, 29), Date(2021, 6, 28))
    ensures NotAfter(Date(2021, 6, 29), Date(2021, 7, 12))
  {
    Ordinal2021(Date(2021, 6, 28));
    Ordinal2021(Date(2021, 6, 29));
    Ordinal2021(Date(2021, 7, 12));
  }

  /** The Monday of the third week of June 2021 is 14 June, before 29 June. */
  lemma JuneThirdWeekPassed()
    ensures !NotAfter(Date(2021, 6, 29), NthWeekDate(3, Date(2021, 6, 29), 0))
  {
    Ordinal2021(Date(2021, 6, 1));
    Ordinal2021(Date(2021, 6, 29));
    assert Weekday(Date(2021, 6, 1)) == 1;
    OrdinalOrder(NthWeekDate(3, Date(2021, 6, 29), 0), Date(2021, 6, 29));
  }

  /** The first- and third-week Mondays of June 2021, 31 May and 14 June, are before 29 June. */
  lemma JuneMondaysPassed(day1: ValidDate)
    requires day1 == Date(2021, 6, 29)
    ensures !NotAfter(day1, NthDate(true, 1, day1, 0)) && !NotAfter(day1, NthDate(true, 3, day1, 0))
  {
    JuneFirstWeekPassed();
    JuneThirdWeekPassed();
  }

  /** The first-week Monday of July 2021 is 28 June. */
  lemma JulyFirstMonday(day1: ValidDate)
    requires day1 == Date(2021, 6, 29)
    ensures NthDate(true, 1, NextMonthStart(day1), 0) == Date(2021, 6, 28)
  {
    assert NextMonthStart(day1) == Date(2021, 7, 1);
    JulyFirstWeekStart();
  }

  /** The third-week Monday of July 2021 is 12 July. */
  lemma JulyThirdMonday(day1: ValidDate)
    requires day1 == Date(2021, 6, 29)
    ensures NthDate(true, 3, NextMonthStart(day1), 0) == Date(2021, 7, 12)
  {
    assert NextMonthStart(day1) == Date(2021, 7, 1);
    JulyThirdWeekStart();
  }

  /** Two months on from 29 June 2021 is August, whose first-week Monday is 26 July. */
  lemma AugustFromJune(day1: ValidDate)
    requires day1 == Date(2021, 6, 29)
    ensures NthDate(true, 1, NextMonthStart(NextMonthStart(day1)), 0) == Date(2021, 7, 26)
  {
    var next := NextMonthStart(day1);
    assert next == Date(2021, 7, 1);
    assert NextMonthStart(next) == Date(2021, 8, 1);
    AugustFirstWeekStart();
  }

  /** With one ordinal number whose dates in day1's month and the next have passed, the
      corrected monthly date is that number's date in the month after next. */
  lemma OneNumberTwoMonthsOn(force: bool, n: int, day1: ValidDate, collectionDay: int)
    requires !NotAfter(day1, NthDate(force, n, day1, collectionDay))
    requires !NotAfter(day1, NthDate(force, n, NextMonthStart(day1), collectionDay))
    ensures MonthlyDate(force, [n], day1, collectionDay) == NthDate(force, n, NextMonthStart(NextMonthStart(day1)), collectionDay)
  {
    OnlyPassed(force, n, day1, day1, collectionDay);
    OnlyPassed(force, n, NextMonthStart(day1), day1, collectionDay);
  }

  /** The one date of a one-number list in the month of dateOfMonth has passed. */
  lemma OnlyPassed(force: bool, n: int, dateOfMonth: ValidDate, day1: ValidDate, collectionDay: int)
    requires !NotAfter(day1, NthDate(force, n, dateOfMonth, collectionDay))
    ensures forall i :: 0 <= i < |[n]| ==> !NotAfter(day1, NthDate(force, [n][i], dateOfMonth, collectionDay))
  {
    var numbers := [n];
    assert numbers[0] == n;
  }

  /** The corrected monthly date of the first week's Monday from 29 June 2021: June's, 31 May,
      and July's, 28 June, are before day1, so it is the first week's Monday of August,
      26 July. */
  lemma CorrectedFallback(day1: ValidDate)
    requires day1 == Date(2021, 6, 29)
    ensures MonthlyDate(true, [1], day1, 0) == Date(2021, 7, 26)
  {
    JuneMondaysPassed(day1);
    JulyFirstMonday(day1);
    AroundJune29();
    AugustFromJune(day1);
    OneNumberTwoMonthsOn(true, 1, day1, 0);
  }

  /** The Monday of the third week of July 2021 is 12 July. */
  lemma JulyThirdWeekStart()
    ensures NthWeekDate(3, Date(2021, 7, 1), 0) == Date(2021, 7, 12)
  {
    Ordinal2021(Date(2021, 7, 1));
    Ordinal2021(Date(2021, 7, 12));
    assert Weekday(Date(2021, 7, 1)) == 3;
    OrdinalInjective(NthWeekDate(3, Date(2021, 7, 1), 0), Date(2021, 7, 12));
  }

  /** Both dates of a two-number list in the month of dateOfMonth have passed. */
  lemma BothPassed(force: bool, a: int, b: int, dateOfMonth: ValidDate, day1: ValidDate, collectionDay: int)
    requires !NotAfter(day1, NthDate(force, a, dateOfMonth, collectionDay))
    requires !NotAfter(day1, NthDate(force, b, dateOfMonth, collectionDay))
    ensures forall i :: 0 <= i < |[a, b]| ==> !NotAfter(day1, NthDate(force, [a, b][i], dateOfMonth, collectionDay))
  {
    var numbers := [a, b];
    assert numbers[0] == a && numbers[1] == b;
  }

  /** When the first number's date in a month has passed and the second's has not, the second
      is the first listed date not before day1. */
  lemma SecondListedFirst(force: bool, a: int, b: int, dateOfMonth: ValidDate, day1: ValidDate, collectionDay: int)
    requires !NotAfter(day1, NthDate(force, a, dateOfMonth, collectionDay))
    requires NotAfter(day1, NthDate(force, b, dateOfMonth, collectionDay))
    ensures FirstListedNotBefore(force, [a, b], dateOfMonth, day1, collectionDay, 1)
  {
    var numbers := [a, b];
    assert numbers[0] == a && numbers[1] == b;
  }

  /** With two ordinal numbers whose dates in day1's month have passed, the code takes the
      first number's date in the next month, and the corrected date is the second's when only
      the first of the next month's has passed. */
  lemma TwoNumbersNextMonth(force: bool, a: int, b: int, day1: ValidDate, collectionDay: int)
    requires !NotAfter(day1, NthDate(force, a, day1, collectionDay))
    requires !NotAfter(day1, NthDate(force, b, day1, collectionDay))
    requires !NotAfter(day1, NthDate(force, a, NextMonthStart(day1), collectionDay))
    requires NotAfter(day1, NthDate(force, b, NextMonthStart(day1), collectionDay))
    ensures MonthlyDate(force, [a, b], day1, collectionDay) == NthDate(force, b, NextMonthStart(day1), collectionDay)
    ensures MonthlyDateAsWritten(force, [a, b], day1, collectionDay) == NthDate(force, a, NextMonthStart(day1), collectionDay)
  {
    BothPassed(force, a, b, day1, day1, collectionDay);
    SecondListedFirst(force, a, b, NextMonthStart(day1), day1, collectionDay);
  }

  /** The Mondays of the first and third weeks from 29 June 2021: both of June's have passed,
      and so has July's first-week Monday (28 June), so the corrected date is July's
      third-week Monday, 12 July, where the code as written answers 28 June. */
  lemma TwoWeekNumbersCorrected(day1: ValidDate)
    requires day1 == Date(2021, 6, 29)
    ensures MonthlyDate(true, [1, 3], day1, 0) == Date(2021, 7, 12)
    ensures MonthlyDateAsWritten(true, [1, 3], day1, 0) == Date(2021, 6, 28)
  {
    JuneMondaysPassed(day1);
    JulyFirstMonday(day1);
    JulyThirdMonday(day1);
    AroundJune29();
    TwoNumbersNextMonth(true, 1, 3, day1, 0);
  }

  /** The corrected candidate of the schedule that stalls: from 29 June 2021 it is 26 July,
      in July, which is due, so the period loop ends at once. */
  lemma FirstWeekMondaysCorrected(s: Schedule, day1: ValidDate)
    requires s.forceWeekNumbers && s.weekOrderNumbers == Some([1]) && s.collectionDays == Some(["mon"])
    requires s.period == Some(2) && s.firstMonth == 1 && day1 == Date(2021, 6, 29)
    ensures PeriodCandidate(s, day1) == Ok(Date(2021, 7, 26))
    ensures DueMonth(s, Date(2021, 7, 26))
  {
    MondayFirstWeekCandidate(s, day1);
    CorrectedFallback(day1);
  }

  /** The corrected candidate of a first-week-Monday schedule is its corrected monthly date. */
  lemma MondayFirstWeekCandidate(s: Schedule, day1: ValidDate)
    requires s.forceWeekNumbers && s.weekOrderNumbers == Some([1]) && s.collectionDays == Some(["mon"])
    ensures PeriodCandidate(s, day1) == Ok(MonthlyDate(true, [1], day1, 0))
  {
    assert CollectionDayIndex(s.collectionDays) == Ok(0);
  }

  /** A weekly Monday schedule for March to November that collects the day before. */
  const MarchToNovemberEve: Schedule :=
    Settings("weekly", Some(["mon"]), 3, 11, None, None, false, [], [], Some(1), false, None, None,
             None, None, false, Some(-1), None, None, None, None, None)

  /** In a week of the cycle, a Monday-only schedule picks day1 itself when day1 is a Monday. */
  lemma MondayPicksItself(day1: ValidDate, c: ValidDate)
    requires Weekday(day1) == 0 && WeeklyPick(1, 1, Some(["mon"]), day1, c)
    ensures c == day1
  {
    assert PyMod(IsoWeek(day1) - 1, 1) == 0;
    assert !ScannedBefore(0, ["mon"], 1);
    var j :| FirstListedFrom(0, ["mon"], j) && ToOrdinal(c) == ToOrdinal(day1) + IndexOf(ConfigFlow.WEEKDAYS, ["mon"][j]);
    OrdinalInjective(c, day1);
  }

  /** 1 March 2021 is a Monday, and the day before it is 28 February. */
  lemma March2021()
    ensures Weekday(Date(2021, 3, 1)) == 0
    ensures AddDays(Date(2021, 3, 1), -1) == Date(2021, 2, 28)
  {
    Ordinal2021(Date(2021, 3, 1));
    Ordinal2021(Date(2021, 2, 28));
    OrdinalInjective(AddDays(Date(2021, 3, 1), -1), Date(2021, 2, 28));
  }

  /** In 2021 the search of `_async_find_next_date` goes round for ever: 1 March is a Monday,
      so the weekly candidate from it is 1 March itself; the day before, 28 February, lies
      outside the range, and `move_to_range` sends the search back to 1 March. */
  lemma FindNextDateCycle(c: ValidDate)
    requires WeeklyPick(1, 1, MarchToNovemberEve.collectionDays, Date(2021, 3, 1), c)
    ensures c == Date(2021, 3, 1)
    ensures AddDays(c, MarchToNovemberEve.offset.value) == Date(2021, 2, 28)
    ensures MoveToRange(MarchToNovemberEve, Date(2021, 2, 28)) == Date(2021, 3, 1)
    ensures NextSearchStartAsWritten(MarchToNovemberEve, Date(2021, 3, 1), Date(2021, 2, 28)) == Date(2021, 3, 1)
  {
    March2021();
    MondayPicksItself(Date(2021, 3, 1), c);
  }

  /** The corrected search of the same schedule goes on from 2 March instead. */
  lemma FindNextDateMovesOn()
    ensures NextSearchStart(MarchToNovemberEve, Date(2021, 3, 1), Date(2021, 2, 28)) == Date(2021, 3, 2)
  {
    Ordinal2021(Date(2021, 3, 1));
    Ordinal2021(Date(2021, 3, 2));
    OrdinalInjective(AddDays(Date(2021, 3, 1), 1), Date(2021, 3, 2));
  }
}
