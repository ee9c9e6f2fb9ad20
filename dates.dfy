/**
 * Local calendar days as the date code sees them through JavaScript's `Date`:
 * `new Date(year, monthIndex, day)` at local midnight, read back with
 * `getFullYear`, `getMonth` and `getDate`, and compared with `getTime`.
 * A day is kept as its proleptic Gregorian year, month (1 to 12) and day of
 * month; comparing the `getTime` of two local midnights is comparing these
 * triples in order.
 */
module CivilDates {
  /** A calendar day; `month` is 1-based (JavaScript's `getMonth() + 1`). */
  datatype Date = Date(year: int, month: int, day: int)

  predicate IsLeapYear(y: int) {
    (y % 4 == 0 && y % 100 != 0) || y % 400 == 0
  }

  function DaysInMonth(y: int, m: int): (n: int)
    requires 1 <= m <= 12
    ensures 28 <= n <= 31
    ensures m == 2 ==> (n == 29 <==> IsLeapYear(y))
  {
    if m == 2 then (if IsLeapYear(y) then 29 else 28)
    else if m == 4 || m == 6 || m == 9 || m == 11 then 30
    else 31
  }

  /** A day that exists in the calendar. */
  predicate Valid(d: Date) {
    1 <= d.month <= 12 && 1 <= d.day <= DaysInMonth(d.year, d.month)
  }

  /** The month before `(y, m)`. */
  function PrevMonth(y: int, m: int): (r: (int, int))
    requires 1 <= m <= 12
    ensures 1 <= r.1 <= 12
  {
    if m == 1 then (y - 1, 12) else (y, m - 1)
  }

  /** The month after `(y, m)`. */
  function NextMonth(y: int, m: int): (r: (int, int))
    requires 1 <= m <= 12
    ensures 1 <= r.1 <= 12
  {
    if m == 12 then (y + 1, 1) else (y, m + 1)
  }

  /**
   * A day of month outside `1..DaysInMonth` rolls into the neighbouring
   * months, as `new Date` does with its day argument.
   */
  function RollDay(y: int, m: int, d: int): (r: Date)
    requires 1 <= m <= 12
    ensures Valid(r)
    ensures 1 <= d <= DaysInMonth(y, m) ==> r == Date(y, m, d)
    decreases if d < 1 then 1 else 0, if d < 1 then -d else d
  {
    if d < 1 then
      var (py, pm) := PrevMonth(y, m);
      RollDay(py, pm, d + DaysInMonth(py, pm))
    else if d > DaysInMonth(y, m) then
      var (ny, nm) := NextMonth(y, m);
      RollDay(ny, nm, d - DaysInMonth(y, m))
    else Date(y, m, d)
  }

  /** MakeFullYear of ECMA-262: a two-digit year 0 to 99 means 1900 to 1999. */
  function FullYear(y: int): (r: int)
    ensures 0 <= y <= 99 ==> r == 1900 + y
    ensures !(0 <= y <= 99) ==> r == y
  {
    if 0 <= y <= 99 then 1900 + y else y
  }

  /**
   * `new Date(year, monthIndex, day)`: a month index outside `0..11` moves
   * whole years and a day outside the month rolls into the neighbouring ones.
   */
  function MakeDate(year: int, monthIndex: int, day: int): (r: Date)
    ensures Valid(r)
  {
    RollDay(FullYear(year) + monthIndex / 12, monthIndex % 12 + 1, day)
  }

  /** `a.getTime() < b.getTime()` for two local midnights. */
  predicate Before(a: Date, b: Date) {
    a.year < b.year || (a.year == b.year && (a.month < b.month || (a.month == b.month && a.day < b.day)))
  }

  /** `a.getTime() <= b.getTime()` for two local midnights. */
  predicate AtOrBefore(a: Date, b: Date) {
    Before(a, b) || a == b
  }

  /** The number of days from 1970-01-01 to `d`, by the usual era arithmetic. */
  function DayNumber(d: Date): int
    requires Valid(d)
  {
    var y := if d.month <= 2 then d.year - 1 else d.year;
    var era := y / 400;
    var yoe := y - era * 400;
    var mp := if d.month > 2 then d.month - 3 else d.month + 9;
    var doy := (153 * mp + 2) / 5 + d.day - 1;
    var doe := yoe * 365 + yoe / 4 - yoe / 100 + doy;
    era * 146097 + doe - 719468
  }

  /** `getDay()`: 0 for Sunday through 6 for Saturday (1970-01-01 was a Thursday). */
  function Weekday(d: Date): (w: int)
    requires Valid(d)
    ensures 0 <= w < 7
  {
    (DayNumber(d) + 4) % 7
  }

  // ---------------------------------------------------------------------------

  /** `Before` is the strict order of the days and `AtOrBefore` its reflexive closure. */
  lemma BeforeIsStrictTotalOrder(a: Date, b: Date, c: Date)
    ensures !Before(a, a)
    ensures Before(a, b) && Before(b, c) ==> Before(a, c)
    ensures a == b || Before(a, b) || Before(b, a)
    ensures AtOrBefore(a, b) <==> !Before(b, a)
  {
  }

  /** Rolling a positive day only moves forward: the year never decreases. */
  lemma {:induction false} RollDayNotEarlier(y: int, m: int, d: int)
    requires 1 <= m <= 12 && d >= 1
    ensures RollDay(y, m, d).year >= y
    decreases d
  {
    if d > DaysInMonth(y, m) {
      var (ny, nm) := NextMonth(y, m);
      RollDayNotEarlier(ny, nm, d - DaysInMonth(y, m));
    }
  }

  /** Day zero rolls back to the last day of the previous month, as `new Date(y, m, 0)` does. */
  lemma DayZeroIsPreviousMonthEnd(year: int, monthIndex: int)
    ensures var (py, pm) := PrevMonth(FullYear(year) + monthIndex / 12, monthIndex % 12 + 1);
      MakeDate(year, monthIndex, 0) == Date(py, pm, DaysInMonth(py, pm))
  {
  }

  /** `new Date(year, m - 1, 0)` is the last day of the month before `m`. */
  lemma DayZeroOfMonth(year: int, m: int)
    requires 1 <= m <= 12
    ensures var (py, pm) := PrevMonth(FullYear(year), m);
      MakeDate(year, m - 1, 0) == Date(py, pm, DaysInMonth(py, pm))
  {
    assert (m - 1) / 12 == 0 && (m - 1) % 12 + 1 == m;
    DayZeroIsPreviousMonthEnd(year, m - 1);
  }

  /** `new Date(year, m, 0)` is the last day of month `m`. */
  lemma DayZeroOfNextMonth(year: int, m: int)
    requires 1 <= m <= 12
    ensures MakeDate(year, m, 0) == Date(FullYear(year), m, DaysInMonth(FullYear(year), m))
  {
    DayZeroIsPreviousMonthEnd(year, m);
  }

  /** `new Date(year, m - 1, d)` is day `d` of month `m` when that day exists. */
  lemma MakeDateInMonth(year: int, m: int, d: int)
    requires 1 <= m <= 12 && 1 <= d <= DaysInMonth(FullYear(year), m)
    ensures MakeDate(year, m - 1, d) == Date(FullYear(year), m, d)
  {
  }

  /** `new Date(year, m - 2, d)` is day `d` of the month before `m`. */
  lemma MakeDateInPrevMonth(year: int, m: int, d: int)
    requires 1 <= m <= 12
    requires var (py, pm) := PrevMonth(FullYear(year), m); 1 <= d <= DaysInMonth(py, pm)
    ensures var (py, pm) := PrevMonth(FullYear(year), m); MakeDate(year, m - 2, d) == Date(py, pm, d)
  {
  }

  /** `new Date(year, m, d)` is day `d` of the month after `m`. */
  lemma MakeDateInNextMonth(year: int, m: int, d: int)
    requires 1 <= m <= 12
    requires var (ny, nm) := NextMonth(FullYear(year), m); 1 <= d <= DaysInMonth(ny, nm)
    ensures var (ny, nm) := NextMonth(FullYear(year), m); MakeDate(year, m, d) == Date(ny, nm, d)
  {
  }

  /** Month index 12 is January of the following year, and -1 December of the preceding one. */
  lemma MonthIndexCarries(year: int, day: int)
    requires year >= 101 && 1 <= day <= 31
    ensures MakeDate(year, 12, day) == MakeDate(year + 1, 0, day)
    ensures MakeDate(year, -1, day) == MakeDate(year - 1, 11, day)
  {
  }

  /** A few known days: the epoch is day 0, a Thursday, and three later weekdays. */
  lemma KnownDays()
    ensures DayNumber(Date(1970, 1, 1)) == 0
    ensures Weekday(Date(1970, 1, 1)) == 4
    ensures Weekday(Date(2000, 3, 1)) == 3
    ensures Weekday(Date(2024, 1, 1)) == 1
    ensures Weekday(Date(2025, 6, 1)) == 0
  {
    EpochIsThursday();
    KnownWeekday2000();
    KnownWeekday2024();
    KnownWeekday2025();
  }

  lemma EpochIsThursday()
    ensures DayNumber(Date(1970, 1, 1)) == 0 && Weekday(Date(1970, 1, 1)) == 4
  {
  }

  lemma KnownWeekday2000()
    ensures Weekday(Date(2000, 3, 1)) == 3
  {
  }

  lemma KnownWeekday2024()
    ensures Weekday(Date(2024, 1, 1)) == 1
  {
  }

  lemma KnownWeekday2025()
    ensures Weekday(Date(2025, 6, 1)) == 0
  {
  }

  /** A two-digit year lands in the twentieth century: `new Date(24, 0, 1)` is 1924-01-01. */
  lemma TwoDigitYear()
    ensures MakeDate(24, 0, 1) == Date(1924, 1, 1)
  {
  }
}
