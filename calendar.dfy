/**
 * The date-range calendar: the 6-week grid of days it draws for a month,
 * its parsing of date strings to local days, and the tests that mark a day
 * as the start, the end, inside the chosen range or inside the range being
 * chosen.
 *
 * `new Date(text)` on a string that is neither `yyyy-MM-dd` nor contains a
 * `T` is implementation-defined; it enters as the parameter `parse`, the
 * local day of the instant it parses to, or `None` for an invalid date.
 */
module Calendar {
  import opened Wrappers
  import opened JsText
  import opened CivilDates

  // ---------------------------------------------------------------------------
  // The grid of days

  /** `showOutsideDays` fills six weeks of seven days. */
  const GridCells := 42

  /**
   * The month the grid shows, as `new Date` reads `month.getFullYear()` and
   * `month.getMonth()`: a year 0 to 99 is taken as 1900 to 1999.
   */
  function Shown(month: Date): (r: (int, int))
    requires Valid(month)
    ensures 1 <= r.1 <= 12
  {
    (FullYear(month.year), month.month)
  }

  /** `firstDay.getDay()`: the weekday of the first of the month. */
  function FirstWeekday(month: Date): (w: int)
    requires Valid(month)
    ensures 0 <= w < 7
  {
    Weekday(Date(Shown(month).0, Shown(month).1, 1))
  }

  /** `lastDay.getDate()`: the length of the month. */
  function MonthLength(month: Date): (n: int)
    requires Valid(month)
    ensures 28 <= n <= 31
  {
    DaysInMonth(Shown(month).0, Shown(month).1)
  }

  /** How many days of the previous month lead the grid. */
  function LeadCount(month: Date, showOutsideDays: bool): (n: int)
    requires Valid(month)
    ensures 0 <= n < 7
  {
    if showOutsideDays then FirstWeekday(month) else 0
  }

  /** How many days of the next month fill the grid to 42. */
  function TrailCount(month: Date, showOutsideDays: bool): (n: int)
    requires Valid(month)
    ensures 0 <= n <= 14
  {
    if showOutsideDays then GridCells - LeadCount(month, showOutsideDays) - MonthLength(month) else 0
  }

  /** The last `w` days of the month before the shown one, in order. */
  function PrevMonthTail(month: Date, w: int): (cells: seq<Date>)
    requires Valid(month) && 0 <= w <= 28
    ensures |cells| == w
  {
    var (py, pm) := PrevMonth(Shown(month).0, Shown(month).1);
    var end := DaysInMonth(py, pm);
    seq(w, k requires 0 <= k < w => Date(py, pm, end - (w - 1 - k)))
  }

  /** Days 1 to `r` of the month after the shown one. */
  function NextMonthHead(month: Date, r: int): (cells: seq<Date>)
    requires Valid(month) && 0 <= r <= 28
    ensures |cells| == r
  {
    var (ny, nm) := NextMonth(Shown(month).0, Shown(month).1);
    seq(r, k requires 0 <= k < r => Date(ny, nm, k + 1))
  }

  /** The leading cells: the last `LeadCount` days of the previous month, in order. */
  function LeadingDays(month: Date, showOutsideDays: bool): (cells: seq<Date>)
    requires Valid(month)
    ensures |cells| == LeadCount(month, showOutsideDays)
  {
    PrevMonthTail(month, LeadCount(month, showOutsideDays))
  }

  /** The cells of the month itself, days 1 to its length. */
  function MonthDays(month: Date): (cells: seq<Date>)
    requires Valid(month)
    ensures |cells| == MonthLength(month)
  {
    var n := MonthLength(month);
    seq(n, k requires 0 <= k < n => Date(Shown(month).0, Shown(month).1, k + 1))
  }

  /** The trailing cells: days 1 to `TrailCount` of the next month. */
  function TrailingDays(month: Date, showOutsideDays: bool): (cells: seq<Date>)
    requires Valid(month)
    ensures |cells| == TrailCount(month, showOutsideDays)
  {
    NextMonthHead(month, TrailCount(month, showOutsideDays))
  }

  /** The grid of a month: leading, own and trailing days. */
  function CalendarDays(month: Date, showOutsideDays: bool): seq<Date>
    requires Valid(month)
  {
    LeadingDays(month, showOutsideDays) + MonthDays(month) + TrailingDays(month, showOutsideDays)
  }

  /**
   * The first loop of `getCalendarDays`: for `i` from `firstDayOfWeek - 1`
   * down to 0 it pushes `new Date(year, monthIndex - 1, daysInPrevMonth - i)`.
   */
  method PushPreviousMonthDays(month: Date, firstDayOfWeek: int) returns (days: seq<Date>)
    requires Valid(month) && 0 <= firstDayOfWeek < 7
    ensures days == PrevMonthTail(month, firstDayOfWeek)
  {
    var year, monthIndex := month.year, month.month - 1;
    DayZeroOfMonth(year, month.month);
    var daysInPrevMonth := MakeDate(year, monthIndex, 0).day;
    ghost var lead := PrevMonthTail(month, firstDayOfWeek);
    days := [];
    var i := firstDayOfWeek - 1;
    while i >= 0
      invariant -1 <= i < firstDayOfWeek
      invariant days == lead[..firstDayOfWeek - 1 - i]
    {
      MakeDateInPrevMonth(year, month.month, daysInPrevMonth - i);
      assert lead[..firstDayOfWeek - i] == lead[..firstDayOfWeek - 1 - i] + [MakeDate(year, monthIndex - 1, daysInPrevMonth - i)];
      days := days + [MakeDate(year, monthIndex - 1, daysInPrevMonth - i)];
      i := i - 1;
    }
  }

  /** The second loop: for `i` from 1 to `daysInMonth` it pushes `new Date(year, monthIndex, i)`. */
  method PushMonthDays(month: Date) returns (days: seq<Date>)
    requires Valid(month)
    ensures days == MonthDays(month)
  {
    var year, monthIndex := month.year, month.month - 1;
    DayZeroOfNextMonth(year, month.month);
    var daysInMonth := MakeDate(year, monthIndex + 1, 0).day;
    ghost var mid := MonthDays(month);
    days := [];
    var i := 1;
    while i <= daysInMonth
      invariant 1 <= i <= daysInMonth + 1
      invariant days == mid[..i - 1]
    {
      MakeDateInMonth(year, month.month, i);
      assert mid[..i] == mid[..i - 1] + [MakeDate(year, monthIndex, i)];
      days := days + [MakeDate(year, monthIndex, i)];
      i := i + 1;
    }
  }

  /** The third loop: for `i` from 1 to `remainingDays` it pushes `new Date(year, monthIndex + 1, i)`. */
  method PushNextMonthDays(month: Date, remainingDays: int) returns (days: seq<Date>)
    requires Valid(month) && 0 <= remainingDays <= 28
    ensures days == NextMonthHead(month, remainingDays)
  {
    var year, monthIndex := month.year, month.month - 1;
    ghost var trail := NextMonthHead(month, remainingDays);
    days := [];
    var i := 1;
    while i <= remainingDays
      invariant 1 <= i <= remainingDays + 1
      invariant days == trail[..i - 1]
    {
      MakeDateInNextMonth(year, month.month, i);
      assert trail[..i] == trail[..i - 1] + [MakeDate(year, monthIndex + 1, i)];
      days := days + [MakeDate(year, monthIndex + 1, i)];
      i := i + 1;
    }
  }

  /**
   * `getCalendarDays(month, showOutsideDays)`: the previous month's last
   * days when outside days are shown and the month does not start on a
   * Sunday, the month's own days, and with outside days the next month's
   * first days up to 42 cells.
   */
  method GetCalendarDays(month: Date, showOutsideDays: bool) returns (days: seq<Date>)
    requires Valid(month)
    ensures days == CalendarDays(month, showOutsideDays)
  {
    var firstDayOfWeek := FirstWeekday(month);
    days := [];
    if showOutsideDays && firstDayOfWeek > 0 {
      days := PushPreviousMonthDays(month, firstDayOfWeek);
    }
    assert days == LeadingDays(month, showOutsideDays);
    var own := PushMonthDays(month);
    days := days + own;
    if showOutsideDays {
      var remainingDays := GridCells - |days|;
      var next := PushNextMonthDays(month, remainingDays);
      days := days + next;
    } else {
      assert TrailingDays(month, showOutsideDays) == [];
    }
  }

  /** With outside days the grid always has 42 cells, whatever the month. */
  lemma GridHasSixWeeks(month: Date)
    requires Valid(month)
    ensures |CalendarDays(month, true)| == GridCells
  {
  }

  /**
   * With outside days, the grid starts with the previous month's last
   * `firstDayOfWeek` days in ascending order and ending on its last day, then
   * holds the month's days 1 to its length, then the next month's days from 1
   * on; the first of the month falls in the column of its weekday.
   */
  lemma GridLayout(month: Date)
    requires Valid(month)
    ensures var cells, (y, m) := CalendarDays(month, true), Shown(month);
      var w, n := FirstWeekday(month), DaysInMonth(y, m);
      var (py, pm) := PrevMonth(y, m);
      var (ny, nm) := NextMonth(y, m);
      && |cells| == GridCells
      && (forall k :: 0 <= k < w ==> cells[k] == Date(py, pm, DaysInMonth(py, pm) - (w - 1 - k)))
      && cells[w] == Date(y, m, 1) && Weekday(cells[w]) == w
      && (forall j :: w <= j < w + n ==> cells[j] == Date(y, m, j - w + 1))
      && (forall j :: w + n <= j < GridCells ==> cells[j] == Date(ny, nm, j - w - n + 1))
  {
    var lead, mid, trail := LeadingDays(month, true), MonthDays(month), TrailingDays(month, true);
    assert CalendarDays(month, true) == lead + mid + trail;
    assert forall k :: 0 <= k < |lead| ==> (lead + mid + trail)[k] == lead[k];
    assert forall j :: |lead| <= j < |lead| + |mid| ==> (lead + mid + trail)[j] == mid[j - |lead|];
    assert forall j :: |lead| + |mid| <= j < |lead| + |mid| + |trail| ==> (lead + mid + trail)[j] == trail[j - |lead| - |mid|];
  }

  /** Without outside days the grid is exactly the month's days 1 to its length. */
  lemma GridWithoutOutsideDays(month: Date)
    requires Valid(month)
    ensures var (y, m) := Shown(month);
      CalendarDays(month, false) == seq(DaysInMonth(y, m), k requires 0 <= k < DaysInMonth(y, m) => Date(y, m, k + 1))
  {
  }

  // ---------------------------------------------------------------------------
  // Parsing date strings

  /** The value of `new Date(...)`: a local day, or an invalid date (`getTime()` is NaN). */
  datatype Stamp = Day(date: Date) | InvalidTime

  /** `/^\d{4}-\d{2}-\d{2}$/.test(s)`. */
  predicate IsIsoDay(s: string) {
    |s| == 10 && s[4] == '-' && s[7] == '-'
    && AllDigits(s[..4]) && AllDigits(s[5..7]) && AllDigits(s[8..])
  }

  /** The day a `yyyy-MM-dd` string names, read field by field with `new Date(y, m - 1, d)`. */
  function IsoDay(s: string): Date
    requires IsIsoDay(s)
  {
    MakeDate(DigitsValue(s[..4]), DigitsValue(s[5..7]) - 1, DigitsValue(s[8..]))
  }

  /** `const [y, m, d] = text.split('-').map(Number); new Date(y, m - 1, d)`. */
  function DashedDay(text: string): Stamp {
    var parts := Split(text, '-');
    if |parts| < 3 then InvalidTime
    else
      match (NumberOf(parts[0]), NumberOf(parts[1]), NumberOf(parts[2]))
      case (Some(y), Some(m), Some(d)) => Day(MakeDate(y, m - 1, d))
      case _ => InvalidTime
  }

  /**
   * `normalizeDate(dateStr)` on a string: a missing or empty string is no
   * date; `yyyy-MM-dd` is read field by field; a string with a `T` is read
   * the same way up to its first `T`; anything else goes through `parse`.
   */
  function NormalizeDate(dateStr: Option<string>, parse: string -> Option<Date>): (r: Option<Stamp>)
    ensures !Truthy(dateStr) ==> r == None
    ensures Truthy(dateStr) && IsIsoDay(dateStr.value) ==> r == Some(Day(IsoDay(dateStr.value)))
  {
    if !Truthy(dateStr) then None
    else
      var s := dateStr.value;
      if IsIsoDay(s) then Some(Day(IsoDay(s)))
      else if 'T' in s then Some(DashedDay(Split(s, 'T')[0]))
      else match parse(s)
        case None => None
        case Some(d) => Some(Day(MakeDate(d.year, d.month - 1, d.day)))
  }

  /** `normalizeDay(date)`: the local midnight of a day of the grid. */
  function NormalizeDay(d: Date): Date {
    MakeDate(d.year, d.month - 1, d.day)
  }

  /** `a.getTime() < b.getTime()`; false when either is NaN. */
  predicate StampBefore(a: Stamp, b: Stamp) {
    a.Day? && b.Day? && Before(a.date, b.date)
  }

  /** `a.getTime() <= b.getTime()`; false when either is NaN. */
  predicate StampAtOrBefore(a: Stamp, b: Stamp) {
    a.Day? && b.Day? && AtOrBefore(a.date, b.date)
  }

  /** `a.getTime() === b.getTime()`; false when either is NaN. */
  predicate StampSame(a: Stamp, b: Stamp) {
    a.Day? && b.Day? && a.date == b.date
  }

  /** `isDateInRange(date)`: both ends must parse (an invalid date still passes the null test). */
  predicate IsDateInRange(date: Date, startDate: Option<string>, endDate: Option<string>, parse: string -> Option<Date>) {
    var start, end := NormalizeDate(startDate, parse), NormalizeDate(endDate, parse);
    start.Some? && end.Some?
    && StampAtOrBefore(start.value, Day(NormalizeDay(date)))
    && StampAtOrBefore(Day(NormalizeDay(date)), end.value)
  }

  /** `isDateStart(date)`. */
  predicate IsDateStart(date: Date, startDate: Option<string>, parse: string -> Option<Date>) {
    Truthy(startDate)
    && var start := NormalizeDate(startDate, parse);
       start.Some? && StampSame(Day(NormalizeDay(date)), start.value)
  }

  /** `isDateEnd(date)`. */
  predicate IsDateEnd(date: Date, endDate: Option<string>, parse: string -> Option<Date>) {
    Truthy(endDate)
    && var end := NormalizeDate(endDate, parse);
       end.Some? && StampSame(Day(NormalizeDay(date)), end.value)
  }

  /** `isDateInTempRange(date)`. */
  predicate IsDateInTempRange(date: Date, tempStart: Option<string>, tempEnd: Option<string>, parse: string -> Option<Date>) {
    if !Truthy(tempStart) then false
    else
      var start := NormalizeDate(tempStart, parse);
      if start.None? then false
      else
        var day := Day(NormalizeDay(date));
        if Truthy(tempEnd) then
          var end := NormalizeDate(tempEnd, parse);
          end.Some? && StampBefore(start.value, day) && StampBefore(day, end.value)
        else StampBefore(start.value, day)
  }

  // ---------------------------------------------------------------------------

  /** A day of the grid from a year past 99 is its own local midnight. */
  lemma NormalizeDayKeepsDay(d: Date)
    requires Valid(d) && !(0 <= d.year <= 99)
    ensures NormalizeDay(d) == d
  {
  }

  /**
   * Normalising a day twice is normalising it once: a day of the years 0 to
   * 99 moves into the 1900s, and from there on it stays put.
   */
  lemma NormalizeDayIdempotent(d: Date)
    requires Valid(d)
    ensures NormalizeDay(NormalizeDay(d)) == NormalizeDay(d)
  {
    if 0 <= d.year <= 99 {
      assert (d.month - 1) / 12 == 0 && (d.month - 1) % 12 + 1 == d.month;
      RollDayNotEarlier(FullYear(d.year), d.month, d.day);
    } else {
      NormalizeDayKeepsDay(d);
    }
    NormalizeDayKeepsDay(NormalizeDay(d));
  }

  /** `yyyy-MM-dd` and `yyyy-MM-ddT…` with the same date part name the same day. */
  lemma {:induction false} SameDatePrefixSameDay(p: string, rest: string, parse: string -> Option<Date>)
    requires IsIsoDay(p)
    ensures NormalizeDate(Some(p + "T" + rest), parse) == NormalizeDate(Some(p), parse)
  {
    var s := p + "T" + rest;
    assert !IsIsoDay(s);
    assert s[10] == 'T';
    var k := IndexOf(s, 'T');
    IsoDayHasNoT(p);
    assert forall j :: 0 <= j < 10 ==> s[j] == p[j];
    assert k == 10;
    assert Split(s, 'T')[0] == p;
    DashedIsoDay(p);
  }

  lemma IsoDayHasNoT(p: string)
    requires IsIsoDay(p)
    ensures forall j :: 0 <= j < |p| ==> p[j] != 'T'
  {
    forall j | 0 <= j < |p|
      ensures p[j] != 'T'
    {
      if j < 4 {
        assert p[..4][j] == p[j];
      } else if 5 <= j < 7 {
        assert p[5..7][j - 5] == p[j];
      } else if j >= 8 {
        assert p[8..][j - 8] == p[j];
      }
    }
  }

  /** `split('-')` cuts a `yyyy-MM-dd` string into its year, month and day fields. */
  lemma IsoDaySplit(p: string)
    requires IsIsoDay(p)
    ensures Split(p, '-') == [p[..4], p[5..7], p[8..]]
  {
    var i0 := IndexOf(p, '-');
    assert i0 == 4;
    var q := p[5..];
    var i1 := IndexOf(q, '-');
    assert q[0] == p[5..7][0] && q[1] == p[5..7][1];
    assert i1 == 2;
    var r := q[3..];
    assert r == p[8..];
    var i2 := IndexOf(r, '-');
    assert i2 == |r|;
    assert Split(r, '-') == [p[8..]];
    assert q[..2] == p[5..7];
    assert Split(q, '-') == [p[5..7]] + Split(r, '-');
    assert Split(p, '-') == [p[..4]] + Split(q, '-');
  }

  /** Read through `split('-')`, a `yyyy-MM-dd` string names the same day as its fields. */
  lemma DashedIsoDay(p: string)
    requires IsIsoDay(p)
    ensures DashedDay(p) == Day(IsoDay(p))
  {
    IsoDaySplit(p);
  }

  /**
   * The range is inclusive at both ends, and a day is in it exactly when
   * both ends parse to days and the day lies between them; a missing end
   * leaves every day outside.
   */
  lemma InRangeIff(date: Date, startDate: Option<string>, endDate: Option<string>, parse: string -> Option<Date>)
    ensures var start, end, day := NormalizeDate(startDate, parse), NormalizeDate(endDate, parse), NormalizeDay(date);
      IsDateInRange(date, startDate, endDate, parse) <==>
        (start.Some? && start.value.Day? && end.Some? && end.value.Day?
         && AtOrBefore(start.value.date, day) && AtOrBefore(day, end.value.date))
    ensures !Truthy(startDate) || !Truthy(endDate) ==> !IsDateInRange(date, startDate, endDate, parse)
  {
  }

  /** Both end days of a parsed range are in it, when the start is not after the end. */
  lemma RangeEndsIncluded(a: Date, b: Date, startDate: string, endDate: string, parse: string -> Option<Date>)
    requires Valid(a) && Valid(b) && !(0 <= a.year <= 99) && !(0 <= b.year <= 99) && AtOrBefore(a, b)
    requires NormalizeDate(Some(startDate), parse) == Some(Day(a))
    requires NormalizeDate(Some(endDate), parse) == Some(Day(b))
    ensures IsDateInRange(a, Some(startDate), Some(endDate), parse)
    ensures IsDateInRange(b, Some(startDate), Some(endDate), parse)
    ensures IsDateStart(a, Some(startDate), parse) && IsDateEnd(b, Some(endDate), parse)
  {
    NormalizeDayKeepsDay(a);
    NormalizeDayKeepsDay(b);
  }

  /**
   * The range being chosen: without a start nothing is in it; with an end,
   * the days strictly between start and end; without one, the days strictly
   * after the start.
   */
  lemma TempRangeCases(date: Date, tempStart: Option<string>, tempEnd: Option<string>, parse: string -> Option<Date>)
    ensures !Truthy(tempStart) ==> !IsDateInTempRange(date, tempStart, tempEnd, parse)
    ensures var start, end, day := NormalizeDate(tempStart, parse), NormalizeDate(tempEnd, parse), NormalizeDay(date);
      Truthy(tempStart) && Truthy(tempEnd) ==>
        (IsDateInTempRange(date, tempStart, tempEnd, parse) <==>
          start.Some? && start.value.Day? && end.Some? && end.value.Day?
          && Before(start.value.date, day) && Before(day, end.value.date))
    ensures var start, day := NormalizeDate(tempStart, parse), NormalizeDay(date);
      Truthy(tempStart) && !Truthy(tempEnd) ==>
        (IsDateInTempRange(date, tempStart, tempEnd, parse) <==>
          start.Some? && start.value.Day? && Before(start.value.date, day))
  {
  }

  /** The start day itself is never in the range being chosen. */
  lemma TempStartExcluded(d: Date, tempStart: string, tempEnd: Option<string>, parse: string -> Option<Date>)
    requires Valid(d) && !(0 <= d.year <= 99)
    requires NormalizeDate(Some(tempStart), parse) == Some(Day(d))
    ensures !IsDateInTempRange(d, Some(tempStart), tempEnd, parse)
  {
    NormalizeDayKeepsDay(d);
  }
}
