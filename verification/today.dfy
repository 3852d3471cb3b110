/** The day view of the time tracker (pages/index.js): the hours and
    minutes shown for the day being edited, the guard that decides whether
    an edit is saved, and the guard on clicks in the month chart. */
module Today {
  import opened Wrappers
  import opened TimeOfDay
  import opened TimeStats

  const MillisPerMinute: int := 60000
  const MillisPerHour: int := 3600000

  /** What the page shows as today's total: hours and minutes, or NaN in
      both places when a time matches the pattern but is not a clock time. */
  datatype Shown = Shown(hours: int, minutes: int) | NotANumber

  /** Splitting a whole number of minutes, measured in milliseconds, into
      hours and minutes gives the minutes' own hours and minutes. */
  lemma MillisSplit(d: nat)
    ensures (d * MillisPerMinute) / MillisPerHour == d / 60
    ensures ((d * MillisPerMinute) % MillisPerHour) / MillisPerMinute == d % 60
  {
    var q, r := d / 60, d % 60;
    assert d * MillisPerMinute == q * MillisPerHour + r * MillisPerMinute;
    assert 0 <= r * MillisPerMinute < MillisPerHour;
  }

  /** Today's total from the two time fields: [0, 0] unless both fields
      match the pattern; otherwise the overnight-wrapping difference, in
      milliseconds, split into whole hours and the remaining minutes. */
  function TodayTotal(startTime: string, endTime: string): (r: Shown)
    ensures !IsTimeString(startTime) || !IsTimeString(endTime) ==> r == Shown(0, 0)
    ensures IsTimeString(startTime) && IsTimeString(endTime) ==>
              (r.NotANumber? <==> ParseTime(startTime).None? || ParseTime(endTime).None?)
    ensures r.Shown? ==> 0 <= r.hours < 24 && 0 <= r.minutes < 60
    ensures DurationOfStrings(startTime, endTime).Some? ==>
              r.Shown? && r.hours * 60 + r.minutes == DurationOfStrings(startTime, endTime).value
  {
    if !IsTimeString(startTime) || !IsTimeString(endTime) then
      Shown(0, 0)
    else
      match (ParseTime(startTime), ParseTime(endTime))
      case (Some(s), Some(e)) =>
        var d := CalculateDuration(s, e);
        var diff := d * MillisPerMinute;
        MillisSplit(d);
        Shown(diff / MillisPerHour, (diff % MillisPerHour) / MillisPerMinute)
      case _ => NotANumber
  }

  /** The two examples of a day shift and an overnight shift, and the
      placeholder text shown before any time is set. */
  lemma TodayTotalExamples()
    ensures TodayTotal("08:00", "16:30") == Shown(8, 30)
    ensures TodayTotal("23:00", "01:00") == Shown(2, 0)
    ensures TodayTotal("set time", "16:30") == Shown(0, 0)
    ensures TodayTotal("25:00", "16:30") == NotANumber
  {
    assert ParseTime("08:00") == Some(480);
    assert ParseTime("16:30") == Some(990);
    assert ParseTime("23:00") == Some(1380);
    assert ParseTime("01:00") == Some(60);
    assert HourField("25:00") == 25;
  }

  /** A project id is selected when it is neither null nor empty. */
  predicate IsSelected(projectId: Option<string>)
    ensures !IsSelected(projectId) <==> projectId == None || projectId == Some("")
  {
    projectId.Some? && projectId.value != ""
  }

  /** Whether an edit of the day's times is sent to the server: only after
      the day's log has loaded, with a project selected among a non-empty
      list, and with both times matching the pattern. */
  function ShouldSave(initialLoadDone: bool, selectedProjectId: Option<string>, projectCount: nat,
                      startTime: string, endTime: string): (save: bool)
    ensures save ==> initialLoadDone && IsSelected(selectedProjectId) && projectCount > 0
    ensures save ==> IsTimeString(startTime) && IsTimeString(endTime)
    ensures !save && initialLoadDone && IsSelected(selectedProjectId) && projectCount > 0 ==>
              TodayTotal(startTime, endTime) == Shown(0, 0)
    ensures (initialLoadDone && IsSelected(selectedProjectId) && projectCount > 0 &&
             IsTimeString(startTime) && IsTimeString(endTime)) ==> save
  {
    if !initialLoadDone || !IsSelected(selectedProjectId) || projectCount == 0 then
      false
    else
      IsTimeString(startTime) && IsTimeString(endTime)
  }

  /** When a saved pair of times are clock times, the server's duration for
      the stored log equals the total the page shows for it. */
  lemma {:induction false} SavedTotalMatchesServer(initialLoadDone: bool, selectedProjectId: Option<string>,
                                                   projectCount: nat, startTime: string, endTime: string)
    requires ShouldSave(initialLoadDone, selectedProjectId, projectCount, startTime, endTime)
    requires ParseTime(startTime).Some? && ParseTime(endTime).Some?
    ensures var shown := TodayTotal(startTime, endTime);
            shown.Shown? && shown.hours * 60 + shown.minutes ==
              CalculateDuration(ParseTime(startTime).value, ParseTime(endTime).value)
  {
    assert DurationOfStrings(startTime, endTime).Some?;
  }

  /** The chart's click handler, over the month's daily entries: the bar index must be a number that names
      an existing entry (`typeof idx === 'number'` and `monthData[idx]`
      defined); then the page moves to that entry's date, and otherwise the
      current date stays. A non-number index is None. */
  function OnBarClick(monthData: seq<DayEntry>, idx: Option<real>, currentDate: int): (next: int)
    ensures idx.None? ==> next == currentDate
    ensures idx.Some? && idx.value.Floor as real == idx.value && 0 <= idx.value.Floor < |monthData| ==>
              next == monthData[idx.value.Floor].date
    ensures idx.Some? && !(idx.value.Floor as real == idx.value && 0 <= idx.value.Floor < |monthData|) ==>
              next == currentDate
    ensures next != currentDate ==> exists k :: 0 <= k < |monthData| && monthData[k].date == next
  {
    if idx.None? then currentDate
    else
      var i := idx.value;
      if i.Floor as real == i && 0 <= i.Floor < |monthData| then monthData[i.Floor].date
      else currentDate
  }
}
