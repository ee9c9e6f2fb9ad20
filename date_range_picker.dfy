/**
 * The date-range picker: two clicks on the calendar choose a range. The
 * first click remembers a start day; the second emits the two days in
 * order as `yyyy-MM-dd` strings and closes the popover. Opening the popover
 * forgets a half-chosen range. While a start is remembered, the calendar is
 * shown the range being chosen instead of the saved one.
 */
module DateRangePicker {
  import opened Wrappers
  import opened JsText
  import opened CivilDates
  import opened Calendar

  /** `${getFullYear()}-${MM}-${dd}` of a day, month and day padded to two digits. */
  function DayString(d: Date): string {
    IntToString(d.year) + "-" + PadStart2(IntToString(d.month)) + "-" + PadStart2(IntToString(d.day))
  }

  /** `formatLocalDate(date)`: the day spelled after normalising it to local midnight. */
  function FormatLocalDate(d: Date): string {
    DayString(NormalizeDay(d))
  }

  /** `selectionPhase`: `'idle'`, or `'start'` once a start day is remembered. */
  datatype Phase = Idle | Start

  /** What `onSelect` receives. */
  datatype Selection = Selection(startDate: string, completionDate: string)

  /** The picker's own state: whether the popover is open, the phase and the remembered start. */
  datatype PickerState = PickerState(open: bool, phase: Phase, tempStart: Option<Date>)

  /** The state a picker is created in. */
  const Initial := PickerState(false, Idle, None)

  /**
   * `handleDateSelect(selectedDate)`: the state after a click on a day and
   * what is passed to `onSelect`, if anything.
   */
  function Select(st: PickerState, selected: Date): (r: (PickerState, Option<Selection>))
  {
    var sel := NormalizeDay(selected);
    if st.phase == Idle then
      (st.(phase := Start, tempStart := Some(sel)), None)
    else if st.tempStart.Some? then
      var t := NormalizeDay(st.tempStart.value);
      var closed := PickerState(false, Idle, None);
      if sel == t then
        (closed, Some(Selection(FormatLocalDate(t), FormatLocalDate(t))))
      else if Before(sel, t) then
        (closed, Some(Selection(FormatLocalDate(sel), FormatLocalDate(t))))
      else
        (closed, Some(Selection(FormatLocalDate(t), FormatLocalDate(sel))))
    else (st, None)
  }

  /** `setOpen(o)` followed by the effect on `open`: opening starts the choice afresh. */
  function OpenChange(st: PickerState, o: bool): (r: PickerState)
    ensures r.open == o
    ensures o ==> r.phase == Idle && r.tempStart == None
    ensures !o ==> r.phase == st.phase && r.tempStart == st.tempStart
  {
    if o then PickerState(o, Idle, None) else st.(open := o)
  }

  /** A remembered start exists exactly in phase start, and it is a real day. */
  predicate Consistent(st: PickerState) {
    (st.phase == Start <==> st.tempStart.Some?)
    && (st.tempStart.Some? ==> Valid(st.tempStart.value))
  }

  /** The picker. */
  class Picker {
    var open: bool
    var phase: Phase
    var tempStart: Option<Date>

    function State(): PickerState
      reads this
    {
      PickerState(open, phase, tempStart)
    }

    constructor()
      ensures State() == Initial
    {
      open, phase, tempStart := false, Idle, None;
    }

    /** `handleDateSelect(selectedDate)`; the result is the argument of `onSelect`, if it is called. */
    method HandleDateSelect(selectedDate: Date) returns (emitted: Option<Selection>)
      modifies this
      ensures (State(), emitted) == Select(old(State()), selectedDate)
    {
      var selectedNormalized := NormalizeDay(selectedDate);
      emitted := None;
      if phase == Idle {
        tempStart := Some(selectedNormalized);
        phase := Start;
      } else if tempStart.Some? {
        var tempStartNormalized := NormalizeDay(tempStart.value);
        if selectedNormalized == tempStartNormalized {
          var dateStr := FormatLocalDate(tempStartNormalized);
          emitted := Some(Selection(dateStr, dateStr));
          open := false;
          phase := Idle;
          tempStart := None;
          return;
        }
        var finalStart, finalEnd := tempStartNormalized, selectedNormalized;
        if Before(selectedNormalized, tempStartNormalized) {
          finalStart, finalEnd := selectedNormalized, tempStartNormalized;
        }
        emitted := Some(Selection(FormatLocalDate(finalStart), FormatLocalDate(finalEnd)));
        open := false;
        phase := Idle;
        tempStart := None;
      }
    }

    /** `onOpenChange`, followed by the effect that runs when `open` becomes true. */
    method SetOpen(o: bool)
      modifies this
      ensures State() == OpenChange(old(State()), o)
    {
      open := o;
      if open {
        phase := Idle;
        tempStart := None;
      }
    }
  }

  /** `formatDateRange()`: the label of the trigger button, `None` for the placeholder. */
  function FormatDateRange(startDate: Option<string>, completionDate: Option<string>): (r: Option<string>)
    ensures r.None? <==> !Truthy(startDate)
    ensures Truthy(startDate) && !Truthy(completionDate) ==> r == startDate
    ensures Truthy(startDate) && Truthy(completionDate) && startDate.value == completionDate.value ==> r == startDate
    ensures Truthy(startDate) && Truthy(completionDate) && startDate.value != completionDate.value ==>
      var s, e := startDate.value, completionDate.value;
      r.Some? && |r.value| == |s| + 3 + |e|
      && r.value[..|s|] == s && r.value[|s|..|s| + 3] == " ~ " && r.value[|s| + 3..] == e
  {
    if Truthy(startDate) && Truthy(completionDate) then
      if startDate.value == completionDate.value then startDate
      else Some(startDate.value + " ~ " + completionDate.value)
    else if Truthy(startDate) then startDate
    else None
  }

  /** The `startDate`, `endDate` and `tempStart` the calendar is given (its `tempEnd` is always null). */
  datatype CalendarProps = CalendarProps(startDate: Option<string>, endDate: Option<string>, tempStart: Option<string>)

  /** `x || null` for a string prop. */
  function OrNull(x: Option<string>): (r: Option<string>)
    ensures Truthy(x) ==> r == x
    ensures !Truthy(x) ==> r == None
  {
    if Truthy(x) then x else None
  }

  /** The calendar's props: the saved range is hidden while a start is remembered. */
  function PropsFor(st: PickerState, startDate: Option<string>, completionDate: Option<string>): CalendarProps {
    CalendarProps(
      if st.phase == Start then None else OrNull(startDate),
      if st.phase == Start then None else OrNull(completionDate),
      if st.phase == Start && st.tempStart.Some? then Some(DayString(st.tempStart.value)) else None)
  }

  // ---------------------------------------------------------------------------
  // Spelling days

  /** The three fields of a day's spelling read back as its year, month and day. */
  lemma DayStringFields(d: Date)
    requires Valid(d) && 1000 <= d.year <= 9999
    ensures var s := DayString(d);
      && IsIsoDay(s)
      && DigitsValue(s[..4]) == d.year && DigitsValue(s[5..7]) == d.month && DigitsValue(s[8..]) == d.day
  {
    TwoDigitRoundTrip(d.month);
    TwoDigitRoundTrip(d.day);
    NatToStringRoundTrip(d.year);
    DayStringSlices(d);
  }

  /** The three fields of `DayString(d)` sit at offsets 0, 5 and 8, with dashes at 4 and 7. */
  lemma DayStringSlices(d: Date)
    requires Valid(d) && 1000 <= d.year <= 9999
    ensures var s := DayString(d);
      && |s| == 10 && s[4] == '-' && s[7] == '-'
      && s[..4] == NatToString(d.year)
      && s[5..7] == PadStart2(NatToString(d.month))
      && s[8..] == PadStart2(NatToString(d.day))
  {
    var ys, ms, ds := NatToString(d.year), PadStart2(NatToString(d.month)), PadStart2(NatToString(d.day));
    FourDigitSpelling(d.year);
    TwoDigitRoundTrip(d.month);
    TwoDigitRoundTrip(d.day);
    assert DayString(d) == ys + "-" + ms + "-" + ds;
    DashedSlices(ys, ms, ds);
  }

  /** Where the parts of a dashed four-two-two spelling sit. */
  lemma DashedSlices(ys: string, ms: string, ds: string)
    requires |ys| == 4 && |ms| == 2 && |ds| == 2
    ensures var s := ys + "-" + ms + "-" + ds;
      && |s| == 10 && s[4] == '-' && s[7] == '-'
      && s[..4] == ys && s[5..7] == ms && s[8..] == ds
  {
    var s := ys + "-" + ms + "-" + ds;
    assert s[..4] == ys;
    assert s[5..7] == ms;
    assert s[8..] == ds;
  }

  /** A day of a four-digit year is spelled `yyyy-MM-dd`, and the calendar reads it back as that day. */
  lemma DayStringRoundTrip(d: Date, parse: string -> Option<Date>)
    requires Valid(d) && 1000 <= d.year <= 9999
    ensures IsIsoDay(DayString(d))
    ensures NormalizeDate(Some(DayString(d)), parse) == Some(Day(d))
  {
    DayStringFields(d);
    MakeDateInMonth(d.year, d.month, d.day);
    assert IsoDay(DayString(d)) == MakeDate(d.year, d.month - 1, d.day);
  }

  /** Two days of four-digit years are spelled alike only when they are the same day. */
  lemma DayStringInjective(a: Date, b: Date, parse: string -> Option<Date>)
    requires Valid(a) && 1000 <= a.year <= 9999
    requires Valid(b) && 1000 <= b.year <= 9999
    ensures DayString(a) == DayString(b) <==> a == b
  {
    DayStringRoundTrip(a, parse);
    DayStringRoundTrip(b, parse);
  }

  /** On a day of a four-digit year, `formatLocalDate` is its plain spelling. */
  lemma FormatLocalDateOfDay(d: Date)
    requires Valid(d) && 1000 <= d.year <= 9999
    ensures FormatLocalDate(d) == DayString(d)
  {
    NormalizeDayKeepsDay(d);
  }

  // ---------------------------------------------------------------------------
  // The two clicks

  /** A new picker is consistent, and clicks and opening keep it so. */
  lemma ConsistencyKept(st: PickerState, selected: Date, o: bool)
    requires Consistent(st)
    ensures Consistent(Initial)
    ensures Consistent(Select(st, selected).0)
    ensures Consistent(OpenChange(st, o))
  {
  }

  /** The first click remembers the normalised day and emits nothing; the popover stays as it is. */
  lemma FirstClick(st: PickerState, selected: Date)
    requires st.phase == Idle
    ensures Select(st, selected) == (PickerState(st.open, Start, Some(NormalizeDay(selected))), None)
  {
  }

  /**
   * The second click emits the remembered start and the clicked day, the
   * earlier one first, and leaves the popover closed with nothing
   * remembered.
   */
  lemma SecondClick(st: PickerState, selected: Date)
    requires st.phase == Start && st.tempStart.Some?
    ensures var (a, b) := (NormalizeDay(st.tempStart.value), NormalizeDay(selected));
      var (after, emitted) := Select(st, selected);
      && after == PickerState(false, Idle, None)
      && emitted.Some?
      && exists lo, hi ::
           && ((lo == a && hi == b) || (lo == b && hi == a))
           && AtOrBefore(lo, hi)
           && emitted.value == Selection(FormatLocalDate(lo), FormatLocalDate(hi))
  {
    var (a, b) := (NormalizeDay(st.tempStart.value), NormalizeDay(selected));
    if b == a || !Before(b, a) {
      assert AtOrBefore(a, b);
    } else {
      assert AtOrBefore(b, a);
    }
  }

  /** Phase start without a remembered day ignores the click. */
  lemma StartWithoutDayIgnored(st: PickerState, selected: Date)
    requires st.phase == Start && st.tempStart.None?
    ensures Select(st, selected) == (st, None)
  {
  }

  /** Two clicks from the idle phase choose the same range in either order. */
  lemma ClickOrderIrrelevant(st: PickerState, a: Date, b: Date)
    requires st.phase == Idle
    requires Valid(a) && Valid(b)
    ensures Select(Select(st, a).0, b).1 == Select(Select(st, b).0, a).1
  {
    NormalizeDayIdempotent(a);
    NormalizeDayIdempotent(b);
    BeforeIsStrictTotalOrder(NormalizeDay(a), NormalizeDay(b), NormalizeDay(a));
  }

  /**
   * For days of four-digit years, the emitted strings parse back to the two
   * days in order, the calendar shows both as the ends of the range, and
   * the button shows one date for a single day and `start ~ end` otherwise.
   */
  lemma SecondClickRange(t: Date, selected: Date, parse: string -> Option<Date>)
    requires Valid(t) && 1000 <= t.year <= 9999
    requires Valid(selected) && 1000 <= selected.year <= 9999
    ensures var emitted := Select(PickerState(true, Start, Some(t)), selected).1;
      var lo := if Before(selected, t) then selected else t;
      var hi := if Before(selected, t) then t else selected;
      && emitted.Some?
      && NormalizeDate(Some(emitted.value.startDate), parse) == Some(Day(lo))
      && NormalizeDate(Some(emitted.value.completionDate), parse) == Some(Day(hi))
      && AtOrBefore(lo, hi)
      && IsDateInRange(lo, Some(emitted.value.startDate), Some(emitted.value.completionDate), parse)
      && IsDateInRange(hi, Some(emitted.value.startDate), Some(emitted.value.completionDate), parse)
      && FormatDateRange(Some(emitted.value.startDate), Some(emitted.value.completionDate))
           == (if t == selected then Some(DayString(t)) else Some(DayString(lo) + " ~ " + DayString(hi)))
  {
    NormalizeDayKeepsDay(t);
    NormalizeDayKeepsDay(selected);
    FormatLocalDateOfDay(t);
    FormatLocalDateOfDay(selected);
    var lo := if Before(selected, t) then selected else t;
    var hi := if Before(selected, t) then t else selected;
    DayStringRoundTrip(lo, parse);
    DayStringRoundTrip(hi, parse);
    DayStringInjective(lo, hi, parse);
    RangeEndsIncluded(lo, hi, DayString(lo), DayString(hi), parse);
  }

  // ---------------------------------------------------------------------------
  // Opening and the calendar's props

  /** Opening the popover forgets a half-chosen range; closing it keeps the phase. */
  lemma OpenResets(st: PickerState)
    ensures OpenChange(st, true) == PickerState(true, Idle, None)
    ensures OpenChange(st, false) == st.(open := false)
  {
  }

  /**
   * While a start day is remembered the calendar marks no saved range: no
   * day is in range, a start or an end, whatever the saved strings are.
   */
  lemma PropsWhileChoosing(t: Date, open: bool, startDate: Option<string>, completionDate: Option<string>, d: Date, parse: string -> Option<Date>)
    ensures var p := PropsFor(PickerState(open, Start, Some(t)), startDate, completionDate);
      && p.tempStart == Some(DayString(t))
      && !IsDateInRange(d, p.startDate, p.endDate, parse)
      && !IsDateStart(d, p.startDate, parse)
      && !IsDateEnd(d, p.endDate, parse)
  {
  }

  /** While a day of a four-digit year is remembered, the range being chosen is exactly the days after it. */
  lemma ChoosingTempRange(t: Date, open: bool, startDate: Option<string>, completionDate: Option<string>, d: Date, parse: string -> Option<Date>)
    requires Valid(t) && 1000 <= t.year <= 9999
    ensures var p := PropsFor(PickerState(open, Start, Some(t)), startDate, completionDate);
      IsDateInTempRange(d, p.tempStart, None, parse) <==> Before(t, NormalizeDay(d))
  {
    DayStringRoundTrip(t, parse);
  }

  /** In phase idle the calendar gets the saved range, a missing or empty end as null, and no range being chosen. */
  lemma PropsWhileIdle(open: bool, tempStart: Option<Date>, startDate: Option<string>, completionDate: Option<string>)
    ensures var p := PropsFor(PickerState(open, Idle, tempStart), startDate, completionDate);
      && p.startDate == (if Truthy(startDate) then startDate else None)
      && p.endDate == (if Truthy(completionDate) then completionDate else None)
      && p.tempStart == None
  {
  }
}
