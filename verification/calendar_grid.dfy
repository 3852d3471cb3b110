/** The month view of the calendar page (pages/calendar.js): the grid of
    weeks, Monday first, with blank cells before the first of the month,
    and the rows of the month's spreadsheet export. Days are day numbers;
    the weekday of the first of the month, the month's length and its label
    are given, as the date library computes them. */
module CalendarGrid {
  import opened Wrappers
  import opened Slicing
  import opened TimeStats
  import opened Today

  /** `(getDay() + 6) % 7`: JavaScript numbers weekdays from Sunday = 0;
      the grid's columns run from Monday = 0 to Sunday = 6. */
  function DayOffset(weekday: int): (offset: int)
    requires 0 <= weekday < 7
    ensures 0 <= offset < 7
    ensures (offset + 1) % 7 == weekday
  {
    (weekday + 6) % 7
  }

  /** Monday opens the week and Sunday closes it. */
  lemma DayOffsetMondayFirst()
    ensures DayOffset(1) == 0 && DayOffset(0) == 6
    ensures forall w :: 1 <= w < 7 ==> DayOffset(w) == w - 1
  {
  }

  /** `getDay()` of day `d` of a month whose first falls on `firstWeekday`. */
  function WeekdayOf(firstWeekday: int, d: int): int {
    (firstWeekday + d - 1) % 7
  }

  /** A cell of the grid: padding before the first of the month, or a day. */
  datatype Cell = Blank | Day(day: nat)

  /** `cells`: `dayOffset` blanks, then the days 1 to `daysInMonth`. */
  function Cells(dayOffset: nat, daysInMonth: nat): (cells: seq<Cell>)
    ensures |cells| == dayOffset + daysInMonth
    ensures forall k :: 0 <= k < dayOffset ==> cells[k] == Blank
    ensures forall k :: dayOffset <= k < |cells| ==> cells[k] == Day(k - dayOffset + 1)
  {
    seq(dayOffset + daysInMonth, k => if k < dayOffset then Blank else Day(k - dayOffset + 1))
  }

  /** The `weeks` loop: `i` runs 0, 7, 14, ... below the number of cells
      and each week is `cells.slice(i, i + 7)`. */
  method BuildWeeks(cells: seq<Cell>) returns (weeks: seq<seq<Cell>>)
    ensures IsSlicing(cells, weeks)
  {
    weeks := [];
    var i := 0;
    while i < |cells|
      invariant i == 7 * |weeks| && |weeks| <= SliceCount(|cells|)
      invariant i >= |cells| ==> |weeks| == SliceCount(|cells|)
      invariant forall w :: 0 <= w < |weeks| ==> 7 * w < |cells| && weeks[w] == cells[7 * w..SliceEnd(|cells|, w)]
    {
      var end := if i + 7 <= |cells| then i + 7 else |cells|;
      weeks := weeks + [cells[i..end]];
      i := i + 7;
    }
  }

  /** Adding to a number and to its remainder modulo 7 gives the same
      remainder. */
  lemma ModSeven(a: int, b: int)
    ensures (a % 7 + b) % 7 == (a + b) % 7
  {
    var q := a / 7;
    assert a == 7 * q + a % 7;
    assert a + b == (a % 7 + b) + 7 * q;
  }

  /** The column of day `d` is its own weekday counted from Monday. */
  lemma DayColumn(firstWeekday: int, d: int)
    requires 0 <= firstWeekday < 7
    ensures (DayOffset(firstWeekday) + d - 1) % 7 == DayOffset(WeekdayOf(firstWeekday, d))
  {
    ModSeven(firstWeekday + 6, d - 1);
    ModSeven(firstWeekday + d - 1, 6);
  }

  /** Day `d` sits in week `(offset + d - 1) / 7`, in the column of its own
      weekday, Monday first: the grid lines days up under the right heading. */
  lemma DayInItsColumn(firstWeekday: int, daysInMonth: nat, weeks: seq<seq<Cell>>, d: nat)
    requires 0 <= firstWeekday < 7 && 1 <= d <= daysInMonth
    requires IsSlicing(Cells(DayOffset(firstWeekday), daysInMonth), weeks)
    ensures var k := DayOffset(firstWeekday) + d - 1;
            k / 7 < |weeks| && k % 7 < |weeks[k / 7]| && weeks[k / 7][k % 7] == Day(d)
    ensures (DayOffset(firstWeekday) + d - 1) % 7 == DayOffset(WeekdayOf(firstWeekday, d))
  {
    var offset := DayOffset(firstWeekday);
    SliceOfItem(Cells(offset, daysInMonth), weeks, offset + d - 1);
    DayColumn(firstWeekday, d);
  }

  /** A spreadsheet cell: text, a number, the text `toFixed(2)` makes of a
      number (the cell holds a string with two decimals, kept here as the
      number it spells), or a date shown as `yyyy-MM-dd`. */
  datatype SheetValue = Text(s: string) | Number(x: real) | Fixed2(x: real) | Date(day: int)

  datatype Project = Project(id: string, name: string)

  /** `projects.find(p => p._id === projectId)`. */
  function FindProject(projects: seq<Project>, id: string): (r: Option<Project>)
    ensures r.None? <==> forall k :: 0 <= k < |projects| ==> projects[k].id != id
    ensures r.Some? ==> r.value.id == id && r.value in projects
    ensures r.Some? ==> exists k :: 0 <= k < |projects| && projects[k] == r.value &&
                                    forall j :: 0 <= j < k ==> projects[j].id != id
  {
    if projects == [] then None
    else if projects[0].id == id then Some(projects[0])
    else
      var r := FindProject(projects[1..], id);
      assert r.Some? ==> exists k :: 0 <= k < |projects| && projects[k] == r.value &&
                                     forall j :: 0 <= j < k ==> projects[j].id != id by {
        if r.Some? {
          var k :| 0 <= k < |projects[1..]| && projects[1..][k] == r.value &&
                   forall j :: 0 <= j < k ==> projects[1..][j].id != id;
          assert projects[k + 1] == r.value;
        }
      }
      r
  }

  /** `proj?.name || 'Project'`: a missing project or an empty name falls
      back to the word "Project". */
  function ProjectName(projects: seq<Project>, id: string): (name: string)
    ensures name != ""
    ensures FindProject(projects, id).Some? && FindProject(projects, id).value.name != "" ==>
              name == FindProject(projects, id).value.name
    ensures !(FindProject(projects, id).Some? && FindProject(projects, id).value.name != "") ==> name == "Project"
  {
    var p := FindProject(projects, id);
    if p.Some? && p.value.name != "" then p.value.name else "Project"
  }

  /** `monthData.find(e => isSameDay(e.date, date))`: the first entry for
      the day. */
  function FindEntry(monthData: seq<DayEntry>, date: int): (r: Option<DayEntry>)
    ensures r.None? <==> forall k :: 0 <= k < |monthData| ==> monthData[k].date != date
    ensures r.Some? ==> exists k :: 0 <= k < |monthData| && monthData[k] == r.value && r.value.date == date &&
                                    forall j :: 0 <= j < k ==> monthData[j].date != date
  {
    if monthData == [] then None
    else if monthData[0].date == date then Some(monthData[0])
    else
      var r := FindEntry(monthData[1..], date);
      assert r.Some? ==> exists k :: 0 <= k < |monthData| && monthData[k] == r.value && r.value.date == date &&
                                     forall j :: 0 <= j < k ==> monthData[j].date != date by {
        if r.Some? {
          var k :| 0 <= k < |monthData[1..]| && monthData[1..][k] == r.value && r.value.date == date &&
                   forall j :: 0 <= j < k ==> monthData[1..][j].date != date;
          assert monthData[k + 1] == r.value;
        }
      }
      r
  }

  /** `entry ? entry.hours : 0`. */
  function HoursOn(monthData: seq<DayEntry>, date: int): (h: real)
    ensures (forall k :: 0 <= k < |monthData| ==> monthData[k].date != date) ==> h == 0.0
    ensures h != 0.0 ==> exists k :: 0 <= k < |monthData| && monthData[k].date == date && monthData[k].hours == h
    ensures forall k :: (0 <= k < |monthData| && monthData[k].date == date &&
                         forall j :: 0 <= j < k ==> monthData[j].date != date) ==> h == monthData[k].hours
  {
    var e := FindEntry(monthData, date);
    if e.Some? then e.value.hours else 0.0
  }

  /** The five header rows: project, month, total hours, a blank row and
      the column headings. */
  function HeaderRows(projectName: string, monthLabel: string, monthly: HoursMinutes): (rows: seq<seq<SheetValue>>)
    ensures |rows| == 5 && rows[3] == [] && rows[4] == [Text("Date"), Text("Hours")]
    ensures |rows[0]| == |rows[1]| == |rows[2]| == 2
    ensures rows[0][0] == Text("Project") && rows[1][0] == Text("Month") && rows[2][0] == Text("Total Hours")
    ensures rows[0][1] == Text(projectName) && rows[1][1] == Text(monthLabel)
    ensures rows[2][1].Fixed2? && rows[2][1].x * 60.0 == (monthly.hours * 60 + monthly.minutes) as real
  {
    [[Text("Project"), Text(projectName)],
     [Text("Month"), Text(monthLabel)],
     [Text("Total Hours"), Fixed2(monthly.hours as real + monthly.minutes as real / 60.0)],
     [],
     [Text("Date"), Text("Hours")]]
  }

  /** `exportToExcel`'s rows: nothing without a selected project; otherwise
      the header rows and then, for `d` from 1 to `daysInMonth`, the date
      of day `d` with that day's hours from the month's data, or 0. */
  method ExportRows(projectId: Option<string>, projects: seq<Project>, monthLabel: string,
                    monthly: HoursMinutes, monthStart: int, daysInMonth: nat, monthData: seq<DayEntry>)
    returns (rows: Option<seq<seq<SheetValue>>>)
    ensures rows.None? <==> !IsSelected(projectId)
    ensures rows.Some? ==>
              |rows.value| == 5 + daysInMonth &&
              rows.value[..5] == HeaderRows(ProjectName(projects, projectId.value), monthLabel, monthly)
    ensures rows.Some? ==>
              forall k :: 5 <= k < |rows.value| ==>
                rows.value[k] == [Date(monthStart + k - 5), Number(HoursOn(monthData, monthStart + k - 5))]
  {
    if !IsSelected(projectId) {
      return None;
    }
    var projectName := ProjectName(projects, projectId.value);
    var out := HeaderRows(projectName, monthLabel, monthly);
    for d := 1 to daysInMonth + 1
      invariant |out| == 5 + (d - 1)
      invariant out[..5] == HeaderRows(projectName, monthLabel, monthly)
      invariant forall k :: 5 <= k < |out| ==>
                  out[k] == [Date(monthStart + k - 5), Number(HoursOn(monthData, monthStart + k - 5))]
    {
      var date := monthStart + d - 1;
      out := out + [[Date(date), Number(HoursOn(monthData, date))]];
    }
    return Some(out);
  }

  /** Exported from the month's daily series, each day's row carries that
      day's logged minutes in hours, 0 for a day without a log: the sheet
      agrees with the logs it was built from. */
  lemma ExportedHoursAreLogged(logs: seq<TimeLog>, monthStart: int, daysInMonth: nat, i: nat)
    requires UniqueDates(logs) && i < daysInMonth
    ensures HoursOn(DailyLogs(logs, monthStart, daysInMonth), monthStart + i) * 60.0 ==
            DayMinutes(logs, monthStart + i) as real
  {
    var days := DailyLogs(logs, monthStart, daysInMonth);
    var e := FindEntry(days, monthStart + i);
    assert days[i].date == monthStart + i;
    var k :| 0 <= k < |days| && days[k] == e.value && e.value.date == monthStart + i &&
             forall j :: 0 <= j < k ==> days[j].date != monthStart + i;
    assert k == i;
    assert days[i] == DayEntryOf(logs, monthStart + i);
  }
}
