/**
 * The spreadsheet export of a site's timeline: one row per item, grouped by
 * section and then by sub-section, the section name shown only on the
 * first row of a section and the sub-section name only on the first row
 * of a sub-section, and dates shortened to `MM.DD`. The sheet is the site
 * name, an empty row, the header row and then the item rows.
 *
 * `new Date(text)` on a string that is not `yyyy-MM-dd` enters as the
 * parameter `parse`, as in the calendar.
 */
module ExportExcel {
  import opened Wrappers
  import opened JsText
  import opened Domain
  import opened Grouping
  import opened CivilDates
  import opened Calendar
  import opened TimelineView
  import opened DateRangePicker

  /** A sheet row, one string per cell. */
  type Row = seq<string>

  /** The header row: phase, sub-phase, task name, start date, completion date. */
  const Headers: Row := ["단계", "세부단계", "태스크명", "시작날짜", "완료날짜"]

  /** `MM.DD` of a day, both padded to two digits. */
  function MonthDay(d: Date): string {
    PadStart2(IntToString(d.month)) + "." + PadStart2(IntToString(d.day))
  }

  /**
   * `formatDate(dateStr)`: empty for a missing date, the month and day
   * fields of a `yyyy-MM-dd` string, otherwise `MM.DD` of the day the string
   * parses to, and empty when it does not parse.
   */
  function FormatDate(dateStr: Option<string>, parse: string -> Option<Date>): (r: string)
    ensures !Truthy(dateStr) ==> r == ""
    ensures Truthy(dateStr) && !IsIsoDay(dateStr.value) && parse(dateStr.value).None? ==> r == ""
  {
    if !Truthy(dateStr) then ""
    else
      var s := dateStr.value;
      if IsIsoDay(s) then
        IsoDaySplit(s);
        var parts := Split(s, '-');
        parts[1] + "." + parts[2]
      else match parse(s)
        case None => ""
        case Some(d) => MonthDay(d)
  }

  /** `item.subsection || item.subSection || ''`. */
  function SubKey(item: TimelineItem): string {
    OrElse(item.subsection, item.subSection)
  }

  /** `item.task || item.title || ''`. */
  function TaskName(item: TimelineItem): string {
    OrElse(item.task, item.title)
  }

  /** The cells of a row that come from its item: task name, start date and completion date. */
  function Cells(item: TimelineItem, parse: string -> Option<Date>): Row {
    [TaskName(item), FormatDate(item.startDate, parse), FormatDate(item.completionDate, parse)]
  }

  /** The row of one item, with the section and sub-section labels shown or left blank. */
  function ItemRow(item: TimelineItem, showSection: bool, showSub: bool, section: string, sub: string,
                   parse: string -> Option<Date>): (row: Row)
    ensures |row| == 5 && row[2..] == Cells(item, parse)
    ensures row[0] == (if showSection then section else "")
    ensures row[1] == (if showSub then sub else "")
  {
    [if showSection then section else "", if showSub then sub else ""] + Cells(item, parse)
  }

  /** The row `exportTimelineToExcel` spells out cell by cell is `ItemRow`. */
  lemma ItemRowSpelled(item: TimelineItem, showSection: bool, showSub: bool, section: string, sub: string,
                       parse: string -> Option<Date>)
    ensures ItemRow(item, showSection, showSub, section, sub, parse)
            == [if showSection then section else "", if showSub then sub else "",
                TaskName(item), FormatDate(item.startDate, parse), FormatDate(item.completionDate, parse)]
  {
  }

  /** The distinct sub-section keys of a section's items, in order of first occurrence. */
  function SubSections(items: seq<TimelineItem>): seq<string> {
    Distinct(Map(items, SubKey))
  }

  /** The items of one sub-section. */
  function SubSectionItems(items: seq<TimelineItem>, sub: string): seq<TimelineItem> {
    Where(items, SubKey, sub)
  }

  /** The rows of one sub-section; `first` says whether it is the section's first. */
  function SubSectionRows(items: seq<TimelineItem>, section: string, sub: string, first: bool,
                          parse: string -> Option<Date>): (rows: seq<Row>)
    ensures |rows| == |items|
  {
    seq(|items|, k requires 0 <= k < |items| => ItemRow(items[k], first && k == 0, k == 0, section, sub, parse))
  }

  /** The rows of a section, sub-section by sub-section. */
  function SectionRowGroups(t: seq<TimelineItem>, section: string, parse: string -> Option<Date>): seq<seq<Row>> {
    var items := SectionItems(t, section);
    var subs := SubSections(items);
    seq(|subs|, j requires 0 <= j < |subs| => SubSectionRows(SubSectionItems(items, subs[j]), section, subs[j], j == 0, parse))
  }

  /** The rows of the export, section by section. */
  function ExportRowGroups(t: seq<TimelineItem>, parse: string -> Option<Date>): seq<seq<Row>> {
    var secs := Sections(t);
    seq(|secs|, i requires 0 <= i < |secs| => Flatten(SectionRowGroups(t, secs[i], parse)))
  }

  lemma ExportRowGroupsAt(t: seq<TimelineItem>, parse: string -> Option<Date>, i: nat)
    requires i < |Sections(t)|
    ensures ExportRowGroups(t, parse)[i] == Flatten(SectionRowGroups(t, Sections(t)[i], parse))
  {
  }

  /** The rows of the export. */
  function ExportRows(t: seq<TimelineItem>, parse: string -> Option<Date>): seq<Row> {
    Flatten(ExportRowGroups(t, parse))
  }

  /** The items in the order the export lists them: by section, then by sub-section. */
  function GroupedItems(t: seq<TimelineItem>): seq<TimelineItem> {
    var secs := Sections(t);
    Flatten(seq(|secs|, i requires 0 <= i < |secs| => Flatten(GroupBy(SectionItems(t, secs[i]), SubKey))))
  }

  /**
   * The innermost loop of `exportTimelineToExcel`: one row per item of a
   * sub-section, each clearing both flags; `isFirstInSection` comes in
   * from the loop over sub-sections and goes back out.
   */
  method PushSubSectionRows(subSectionItems: seq<TimelineItem>, section: string, subSection: string,
                            isFirstInSection: bool, parse: string -> Option<Date>)
    returns (rows: seq<Row>, stillFirst: bool)
    ensures rows == SubSectionRows(subSectionItems, section, subSection, isFirstInSection, parse)
    ensures stillFirst <==> isFirstInSection && subSectionItems == []
  {
    rows := [];
    stillFirst := isFirstInSection;
    var isFirstInSubSection := true;
    ghost var spec := SubSectionRows(subSectionItems, section, subSection, isFirstInSection, parse);
    var k := 0;
    while k < |subSectionItems|
      invariant 0 <= k <= |subSectionItems|
      invariant rows == spec[..k]
      invariant stillFirst <==> isFirstInSection && k == 0
      invariant isFirstInSubSection <==> k == 0
    {
      var item := subSectionItems[k];
      var taskName := TaskName(item);
      var row := [if stillFirst then section else "", if isFirstInSubSection then subSection else "",
                  taskName, FormatDate(item.startDate, parse), FormatDate(item.completionDate, parse)];
      ItemRowSpelled(item, stillFirst, isFirstInSubSection, section, subSection, parse);
      assert spec[k] == row;
      assert spec[..k + 1] == spec[..k] + [row];
      rows := rows + [row];
      stillFirst := false;
      isFirstInSubSection := false;
      k := k + 1;
    }
    assert spec[..k] == spec;
  }

  /** The loop over the sub-sections of one section, with `isFirstInSection` set before it. */
  method PushSectionRows(timeline: seq<TimelineItem>, section: string, parse: string -> Option<Date>)
    returns (rows: seq<Row>)
    ensures rows == Flatten(SectionRowGroups(timeline, section, parse))
  {
    var sectionItems := SectionItems(timeline, section);
    var subSections := SubSections(sectionItems);
    ghost var groups := SectionRowGroups(timeline, section, parse);
    GroupByGroups(sectionItems, SubKey);
    rows := [];
    var isFirstInSection := true;
    var j := 0;
    while j < |subSections|
      invariant 0 <= j <= |subSections|
      invariant rows == Flatten(groups[..j])
      invariant isFirstInSection <==> j == 0
    {
      var subSection := subSections[j];
      var subSectionItems := SubSectionItems(sectionItems, subSection);
      assert subSectionItems == GroupBy(sectionItems, SubKey)[j];
      var subRows;
      subRows, isFirstInSection := PushSubSectionRows(subSectionItems, section, subSection, isFirstInSection, parse);
      FlattenPrefix(groups, j);
      rows := rows + subRows;
      j := j + 1;
    }
    assert groups[..j] == groups;
  }

  /**
   * The rows `exportTimelineToExcel` builds: the loop over the sections,
   * each pushing the rows of its sub-sections.
   */
  method BuildRows(timeline: seq<TimelineItem>, parse: string -> Option<Date>) returns (rows: seq<Row>)
    ensures rows == ExportRows(timeline, parse)
  {
    var sections := Sections(timeline);
    ghost var groups := ExportRowGroups(timeline, parse);
    assert |groups| == |sections|;
    rows := [];
    var i := 0;
    while i < |sections|
      invariant 0 <= i <= |sections|
      invariant rows == Flatten(groups[..i])
    {
      var sectionRows := PushSectionRows(timeline, sections[i], parse);
      ExportRowGroupsAt(timeline, parse, i);
      FlattenPrefix(groups, i);
      rows := rows + sectionRows;
      i := i + 1;
    }
    assert groups[..i] == groups;
  }

  /** What the export reads of a site: its name and, if present, its timeline. */
  datatype ExportSite = ExportSite(name: string, timeline: Option<seq<TimelineItem>>)

  /** The cells of the sheet: the site name, an empty row, the headers, then the item rows. */
  function SheetOf(name: string, rows: seq<Row>): (sheet: seq<Row>)
    ensures |sheet| == |rows| + 3
    ensures sheet[0] == [name] && sheet[1] == [] && sheet[2] == Headers
    ensures forall r :: 0 <= r < |rows| ==> sheet[r + 3] == rows[r]
  {
    [[name], [], Headers] + rows
  }

  /**
   * `exportTimelineToExcel(site)`: the sheet it writes, or `None` when
   * there is no site or the site has no timeline and nothing is written.
   */
  method ExportTimelineToExcel(site: Option<ExportSite>, parse: string -> Option<Date>) returns (sheet: Option<seq<Row>>)
    ensures site.None? || site.value.timeline.None? <==> sheet.None?
    ensures sheet.Some? ==> sheet.value == SheetOf(site.value.name, ExportRows(site.value.timeline.value, parse))
  {
    if site.None? || site.value.timeline.None? {
      return None;
    }
    var rows := BuildRows(site.value.timeline.value, parse);
    sheet := Some(SheetOf(site.value.name, rows));
  }

  // ---------------------------------------------------------------------------
  // Dates

  /** A `yyyy-MM-dd` string is shortened to its month and day fields, `MM.DD`. */
  lemma FormatIsoDate(s: string, parse: string -> Option<Date>)
    requires IsIsoDay(s)
    ensures FormatDate(Some(s), parse) == s[5..7] + "." + s[8..]
    ensures |FormatDate(Some(s), parse)| == 5
  {
    IsoDaySplit(s);
  }

  /**
   * A date the picker saved is shortened to the month and day of that day,
   * the same cells the parsing branch gives for it.
   */
  lemma FormatPickedDate(d: Date, parse: string -> Option<Date>)
    requires Valid(d) && 1000 <= d.year <= 9999
    ensures FormatDate(Some(DayString(d)), parse) == MonthDay(d)
  {
    var s := DayString(d);
    DayStringFields(d);
    FormatIsoDate(s, parse);
    DayStringSlices(d);
  }

  // ---------------------------------------------------------------------------
  // Rows

  /** Rows that follow items: one five-cell row per item, carrying that item's cells. */
  predicate Follows(rows: seq<Row>, items: seq<TimelineItem>, parse: string -> Option<Date>) {
    |rows| == |items|
    && forall r :: 0 <= r < |rows| ==> |rows[r]| == 5 && rows[r][2..] == Cells(items[r], parse)
  }

  lemma FollowsConcat(a: seq<Row>, b: seq<Row>, x: seq<TimelineItem>, y: seq<TimelineItem>, parse: string -> Option<Date>)
    requires Follows(a, x, parse) && Follows(b, y, parse)
    ensures Follows(a + b, x + y, parse)
  {
    forall r | 0 <= r < |a + b|
      ensures |(a + b)[r]| == 5 && (a + b)[r][2..] == Cells((x + y)[r], parse)
    {
      if r >= |a| {
        assert (a + b)[r] == b[r - |a|] && (x + y)[r] == y[r - |a|];
      }
    }
  }

  lemma {:induction false} FlattenFollows(rs: seq<seq<Row>>, gs: seq<seq<TimelineItem>>, parse: string -> Option<Date>)
    requires |rs| == |gs|
    requires forall i :: 0 <= i < |rs| ==> Follows(rs[i], gs[i], parse)
    ensures Follows(Flatten(rs), Flatten(gs), parse)
  {
    if rs != [] {
      FlattenFollows(rs[1..], gs[1..], parse);
      FollowsConcat(rs[0], Flatten(rs[1..]), gs[0], Flatten(gs[1..]), parse);
    }
  }

  /** The rows of a section follow its items grouped by sub-section. */
  lemma SectionFollows(t: seq<TimelineItem>, section: string, parse: string -> Option<Date>)
    ensures Follows(Flatten(SectionRowGroups(t, section, parse)), Flatten(GroupBy(SectionItems(t, section), SubKey)), parse)
  {
    var rs, gs := SectionRowGroups(t, section, parse), GroupBy(SectionItems(t, section), SubKey);
    forall j | 0 <= j < |rs|
      ensures Follows(rs[j], gs[j], parse)
    {
    }
    FlattenFollows(rs, gs, parse);
  }

  /**
   * The export has one five-cell row per timeline item: read in order, the
   * rows carry the task name and dates of the items taken section by
   * section and sub-section by sub-section, and those are exactly the
   * timeline's items.
   */
  lemma ExportRowsFollowItems(t: seq<TimelineItem>, parse: string -> Option<Date>)
    ensures |ExportRows(t, parse)| == |t|
    ensures multiset(GroupedItems(t)) == multiset(t)
    ensures Follows(ExportRows(t, parse), GroupedItems(t), parse)
  {
    var secs := Sections(t);
    var rs := ExportRowGroups(t, parse);
    var gs := seq(|secs|, i requires 0 <= i < |secs| => Flatten(GroupBy(SectionItems(t, secs[i]), SubKey)));
    var hs := seq(|secs|, i requires 0 <= i < |secs| => SectionItems(t, secs[i]));
    forall i | 0 <= i < |secs|
      ensures Follows(rs[i], gs[i], parse) && multiset(gs[i]) == multiset(hs[i])
    {
      SectionFollows(t, secs[i], parse);
      GroupByPartition(SectionItems(t, secs[i]), SubKey);
    }
    FlattenFollows(rs, gs, parse);
    FlattenMultisetPointwise(gs, hs);
    assert hs == GroupBy(t, SectionOf);
    GroupByPartition(t, SectionOf);
    assert |multiset(GroupedItems(t))| == |multiset(t)|;
  }

  /** Only the first row of the first group of a list of groups can have a non-blank first cell. */
  lemma {:induction false} FlattenRestBlank(groups: seq<seq<Row>>)
    requires groups != [] && groups[0] != []
    requires forall j, m :: 0 <= j < |groups| && 0 <= m < |groups[j]| && (j > 0 || m > 0) ==>
               |groups[j][m]| > 0 && groups[j][m][0] == ""
    ensures forall row :: row in Flatten(groups)[1..] ==> |row| > 0 && row[0] == ""
  {
    var g0, rest := groups[0], Flatten(groups[1..]);
    assert Flatten(groups)[1..] == g0[1..] + rest;
    forall row | row in Flatten(groups)[1..]
      ensures |row| > 0 && row[0] == ""
    {
      if row in g0[1..] {
        var m :| 0 <= m < |g0[1..]| && g0[1..][m] == row;
        assert row == groups[0][m + 1];
      } else {
        FlattenContains(groups[1..], row);
        var j :| 0 <= j < |groups[1..]| && row in groups[1..][j];
        var m :| 0 <= m < |groups[j + 1]| && groups[j + 1][m] == row;
      }
    }
  }

  /** The first row of a section is the row of its first item, labelled with the section and that item's sub-section. */
  lemma SectionFirstRow(t: seq<TimelineItem>, section: string, parse: string -> Option<Date>)
    requires SectionItems(t, section) != []
    ensures var groups, items := SectionRowGroups(t, section, parse), SectionItems(t, section);
      && groups != [] && groups[0] != []
      && groups[0][0] == ItemRow(items[0], true, true, section, SubKey(items[0]), parse)
  {
    var items := SectionItems(t, section);
    DistinctHead(Map(items, SubKey));
    WhereHead(items, SubKey);
  }

  /**
   * A section's rows start with the row of its first item, which shows the
   * section name and that item's sub-section; every later row of the
   * section leaves the section cell blank.
   */
  lemma SectionLabelOnce(t: seq<TimelineItem>, section: string, parse: string -> Option<Date>)
    requires section in Sections(t)
    ensures var rows, items := Flatten(SectionRowGroups(t, section, parse)), SectionItems(t, section);
      && rows != [] && items != []
      && rows[0] == ItemRow(items[0], true, true, section, SubKey(items[0]), parse)
      && forall row :: row in rows[1..] ==> |row| > 0 && row[0] == ""
  {
    assert SectionItems(t, section) != [] by {
      SectionsPartition(t);
      var k :| 0 <= k < |Sections(t)| && Sections(t)[k] == section;
    }
    SectionFirstRow(t, section, parse);
    var groups := SectionRowGroups(t, section, parse);
    assert Flatten(groups) == groups[0] + Flatten(groups[1..]);
    SectionRowGroupsBlank(t, section, parse);
    FlattenRestBlank(groups);
  }

  /**
   * A section has one row group per sub-section, and in each group only the
   * first row shows the sub-section key; every other row leaves that cell blank.
   */
  lemma SubSectionLabelOnce(t: seq<TimelineItem>, section: string, parse: string -> Option<Date>)
    ensures var groups, subs := SectionRowGroups(t, section, parse), SubSections(SectionItems(t, section));
      && |groups| == |subs|
      && forall j, m :: 0 <= j < |groups| && 0 <= m < |groups[j]| ==>
        |groups[j][m]| == 5 && groups[j][m][1] == (if m == 0 then subs[j] else "")
  {
    var groups, items := SectionRowGroups(t, section, parse), SectionItems(t, section);
    var subs := SubSections(items);
    forall j, m | 0 <= j < |groups| && 0 <= m < |groups[j]|
      ensures |groups[j][m]| == 5 && groups[j][m][1] == (if m == 0 then subs[j] else "")
    {
      var sub := SubSectionItems(items, subs[j]);
      assert groups[j] == SubSectionRows(sub, section, subs[j], j == 0, parse);
      assert groups[j][m] == ItemRow(sub[m], j == 0 && m == 0, m == 0, section, subs[j], parse);
    }
  }

  /** Within a section's row groups, every row but the first of the first group leaves the section cell blank. */
  lemma SectionRowGroupsBlank(t: seq<TimelineItem>, section: string, parse: string -> Option<Date>)
    ensures var groups := SectionRowGroups(t, section, parse);
      forall j, m :: 0 <= j < |groups| && 0 <= m < |groups[j]| && (j > 0 || m > 0) ==>
        |groups[j][m]| > 0 && groups[j][m][0] == ""
  {
    var groups, items := SectionRowGroups(t, section, parse), SectionItems(t, section);
    var subs := SubSections(items);
    forall j, m | 0 <= j < |groups| && 0 <= m < |groups[j]| && (j > 0 || m > 0)
      ensures |groups[j][m]| > 0 && groups[j][m][0] == ""
    {
      var sub := SubSectionItems(items, subs[j]);
      assert groups[j] == SubSectionRows(sub, section, subs[j], j == 0, parse);
      assert groups[j][m] == ItemRow(sub[m], j == 0 && m == 0, m == 0, section, subs[j], parse);
    }
  }

  /**
   * The export lists the sections in the order each first occurs in the
   * timeline, and within a section the sub-sections in the order each
   * first occurs among the section's items.
   */
  lemma ExportOrder(t: seq<TimelineItem>, section: string)
    ensures var key := Map(t, SectionOf);
      forall i, j :: 0 <= i < j < |Sections(t)| ==> FirstOccurrence(key, Sections(t)[i]) < FirstOccurrence(key, Sections(t)[j])
    ensures var items := SectionItems(t, section);
      var subs, key := SubSections(items), Map(items, SubKey);
      forall i, j :: 0 <= i < j < |subs| ==> FirstOccurrence(key, subs[i]) < FirstOccurrence(key, subs[j])
  {
    SectionsInFirstOccurrenceOrder(t);
    DistinctFirstOccurrenceOrder(Map(SectionItems(t, section), SubKey));
  }

  /** The sheet is the name row, an empty row and the header row, followed by one row per item. */
  lemma SheetLayout(name: string, t: seq<TimelineItem>, parse: string -> Option<Date>)
    ensures var sheet := SheetOf(name, ExportRows(t, parse));
      && |sheet| == |t| + 3
      && sheet[0] == [name] && sheet[1] == [] && sheet[2] == Headers
      && sheet[3..] == ExportRows(t, parse)
      && forall r :: 3 <= r < |sheet| ==> |sheet[r]| == 5
  {
    ExportRowsFollowItems(t, parse);
    var rows := ExportRows(t, parse);
    var sheet := SheetOf(name, rows);
    forall r | 3 <= r < |sheet|
      ensures |sheet[r]| == 5
    {
      assert sheet[r] == rows[r - 3];
    }
  }
}
