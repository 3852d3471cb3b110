/** The statistics the time-log endpoint returns for one project
    (pages/api/getTimeLog.js): minutes this week, this month and in all, the
    average per log, and one entry per day of the month; and the upsert that
    stores a day's log (pages/api/saveTimeLog.js). Dates are day numbers;
    the week's and month's bounds come from the date library and are given. */
module TimeStats {
  import opened Wrappers
  import opened TimeOfDay

  /** One stored log of a project: its day and the day's start and end. */
  datatype TimeLog = TimeLog(date: int, startTime: Minute, endTime: Minute)

  function LogMinutes(log: TimeLog): nat {
    CalculateDuration(log.startTime, log.endTime)
  }

  /** The store keeps at most one log per (user, project, day). */
  predicate UniqueDates(logs: seq<TimeLog>) {
    forall i, j :: 0 <= i < j < |logs| ==> logs[i].date != logs[j].date
  }

  /** Sum of the durations of all logs, added in list order. */
  function TotalMinutes(logs: seq<TimeLog>): nat {
    if logs == [] then 0
    else TotalMinutes(logs[..|logs| - 1]) + LogMinutes(logs[|logs| - 1])
  }

  /** Both bounds are inclusive. */
  predicate InRange(date: int, lo: int, hi: int) {
    lo <= date <= hi
  }

  /** Sum of the durations of the logs dated from `lo` to `hi`. */
  function RangeMinutes(logs: seq<TimeLog>, lo: int, hi: int): nat {
    if logs == [] then 0
    else
      RangeMinutes(logs[..|logs| - 1], lo, hi)
      + (if InRange(logs[|logs| - 1].date, lo, hi) then LogMinutes(logs[|logs| - 1]) else 0)
  }

  /** A period's minutes never exceed the all-time minutes. */
  lemma {:induction false} RangeAtMostTotal(logs: seq<TimeLog>, lo: int, hi: int)
    ensures RangeMinutes(logs, lo, hi) <= TotalMinutes(logs)
  {
    if logs != [] {
      RangeAtMostTotal(logs[..|logs| - 1], lo, hi);
    }
  }

  /** When every log lies in the period, boundary days included, the
      period has all the minutes. */
  lemma {:induction false} RangeWhollyInside(logs: seq<TimeLog>, lo: int, hi: int)
    requires forall i :: 0 <= i < |logs| ==> lo <= logs[i].date <= hi
    ensures RangeMinutes(logs, lo, hi) == TotalMinutes(logs)
  {
    if logs != [] {
      RangeWhollyInside(logs[..|logs| - 1], lo, hi);
    }
  }

  /** When no log lies in the period, the period has no minutes. */
  lemma {:induction false} RangeWhollyOutside(logs: seq<TimeLog>, lo: int, hi: int)
    requires forall i :: 0 <= i < |logs| ==> !InRange(logs[i].date, lo, hi)
    ensures RangeMinutes(logs, lo, hi) == 0
  {
    if logs != [] {
      RangeWhollyOutside(logs[..|logs| - 1], lo, hi);
    }
  }

  /** A period splits into all but its last day, and its last day. */
  lemma {:induction false} RangeSplitLast(logs: seq<TimeLog>, lo: int, hi: int)
    requires lo <= hi
    ensures RangeMinutes(logs, lo, hi) == RangeMinutes(logs, lo, hi - 1) + RangeMinutes(logs, hi, hi)
  {
    if logs != [] {
      RangeSplitLast(logs[..|logs| - 1], lo, hi);
    }
  }

  /** The first log dated `date`, as `Array.prototype.find` returns it. */
  function FindLog(logs: seq<TimeLog>, date: int): (r: Option<TimeLog>)
    ensures r.None? <==> forall i :: 0 <= i < |logs| ==> logs[i].date != date
    ensures r.Some? ==> exists k :: 0 <= k < |logs| && logs[k] == r.value && r.value.date == date &&
                                    forall j :: 0 <= j < k ==> logs[j].date != date
  {
    if logs == [] then None
    else if logs[0].date == date then Some(logs[0])
    else
      var r := FindLog(logs[1..], date);
      assert r.Some? ==> exists k :: 0 <= k < |logs| && logs[k] == r.value && r.value.date == date &&
                                     forall j :: 0 <= j < k ==> logs[j].date != date by {
        if r.Some? {
          var k :| 0 <= k < |logs[1..]| && logs[1..][k] == r.value && r.value.date == date &&
                   forall j :: 0 <= j < k ==> logs[1..][j].date != date;
          assert logs[k + 1] == r.value;
        }
      }
      r
  }

  /** With one log per day, the log `find` returns for a day is the log of
      that day. */
  lemma FindLogUnique(logs: seq<TimeLog>, i: int)
    requires UniqueDates(logs)
    requires 0 <= i < |logs|
    ensures FindLog(logs, logs[i].date) == Some(logs[i])
  {
  }

  /** Looking a day up in a list with one more log at its end. */
  lemma {:induction false} FindLogAppend(logs: seq<TimeLog>, log: TimeLog, date: int)
    ensures FindLog(logs + [log], date) ==
            if FindLog(logs, date).Some? then FindLog(logs, date)
            else if log.date == date then Some(log) else None
  {
    if logs != [] {
      assert (logs + [log])[1..] == logs[1..] + [log];
      FindLogAppend(logs[1..], log, date);
    }
  }

  /** The minutes logged on one day; 0 when it has no log. */
  function DayMinutes(logs: seq<TimeLog>, date: int): nat {
    match FindLog(logs, date)
    case Some(log) => LogMinutes(log)
    case None => 0
  }

  /** With one log per day, a one-day period holds that day's minutes. */
  lemma {:induction false} RangeOneDay(logs: seq<TimeLog>, date: int)
    requires UniqueDates(logs)
    ensures RangeMinutes(logs, date, date) == DayMinutes(logs, date)
  {
    if logs != [] {
      var init, last := logs[..|logs| - 1], logs[|logs| - 1];
      assert logs == init + [last];
      RangeOneDay(init, date);
      FindLogAppend(init, last, date);
      if last.date == date {
        assert forall i :: 0 <= i < |init| ==> init[i].date != date by {
          forall i | 0 <= i < |init| ensures init[i].date != date {
            assert logs[i].date != logs[|logs| - 1].date;
          }
        }
      }
    }
  }

  /** One day of the month series: the day and the hours logged on it. */
  datatype DayEntry = DayEntry(date: int, hours: real)

  function DayEntryOf(logs: seq<TimeLog>, date: int): (e: DayEntry)
    ensures e.date == date && e.hours >= 0.0
    ensures e.hours * 60.0 == DayMinutes(logs, date) as real
  {
    DayEntry(date, DayMinutes(logs, date) as real / 60.0)
  }

  /** `dailyLogs`: one entry per day of the month, from its first day on,
      with that day's duration in hours, or 0 when the day has no log. */
  function DailyLogs(logs: seq<TimeLog>, monthStart: int, daysInMonth: nat): (r: seq<DayEntry>)
    ensures |r| == daysInMonth
    ensures forall i :: 0 <= i < |r| ==> r[i].date == monthStart + i && r[i].hours >= 0.0
    ensures forall i :: 0 <= i < |r| && (forall l :: l in logs ==> l.date != monthStart + i) ==>
              r[i].hours == 0.0
    ensures UniqueDates(logs) ==>
              forall i, k :: 0 <= i < |r| && 0 <= k < |logs| && logs[k].date == monthStart + i ==>
                r[i].hours == LogMinutes(logs[k]) as real / 60.0
  {
    var r := seq(daysInMonth, i => DayEntryOf(logs, monthStart + i));
    assert forall i :: 0 <= i < |r| ==> r[i] == DayEntryOf(logs, monthStart + i);
    assert UniqueDates(logs) ==>
             forall i, k :: 0 <= i < |r| && 0 <= k < |logs| && logs[k].date == monthStart + i ==>
               r[i].hours == LogMinutes(logs[k]) as real / 60.0 by {
      if UniqueDates(logs) {
        forall i, k | 0 <= i < |r| && 0 <= k < |logs| && logs[k].date == monthStart + i
          ensures r[i].hours == LogMinutes(logs[k]) as real / 60.0
        {
          FindLogUnique(logs, k);
          assert r[i] == DayEntryOf(logs, logs[k].date);
        }
      }
    }
    r
  }

  /** Sum of the hours of a series of days. */
  function SumHours(days: seq<DayEntry>): real {
    if days == [] then 0.0 else SumHours(days[..|days| - 1]) + days[|days| - 1].hours
  }

  /** With one log per day, the month's daily series adds up to the month's
      minutes: the chart and the monthly figure agree. */
  lemma {:induction false} DailyLogsSumToMonth(logs: seq<TimeLog>, monthStart: int, daysInMonth: nat)
    requires UniqueDates(logs)
    ensures SumHours(DailyLogs(logs, monthStart, daysInMonth)) * 60.0 ==
            RangeMinutes(logs, monthStart, monthStart + daysInMonth - 1) as real
  {
    if daysInMonth == 0 {
      RangeWhollyOutside(logs, monthStart, monthStart - 1);
    } else {
      var n := daysInMonth - 1;
      var days := DailyLogs(logs, monthStart, daysInMonth);
      assert days[..n] == DailyLogs(logs, monthStart, n);
      DailyLogsSumToMonth(logs, monthStart, n);
      RangeSplitLast(logs, monthStart, monthStart + n);
      RangeOneDay(logs, monthStart + n);
    }
  }

  /** Whole hours and the remaining minutes. */
  datatype HoursMinutes = HoursMinutes(hours: int, minutes: int)

  /** `Math.floor(m / 60)` and `m % 60` of a non-negative number of minutes. */
  function SplitMinutes(total: nat): (r: HoursMinutes)
    ensures r.hours >= 0 && 0 <= r.minutes < 60
    ensures r.hours * 60 + r.minutes == total
  {
    HoursMinutes(total / 60, total % 60)
  }

  /** Average minutes per log; 0 when there are no logs. */
  function Average(allTimeMin: nat, count: nat): (avg: real)
    ensures avg >= 0.0
    ensures count == 0 ==> avg == 0.0
    ensures count > 0 ==> avg * count as real == allTimeMin as real
  {
    if count > 0 then allTimeMin as real / count as real else 0.0
  }

  /** `Math.round`: the nearest integer, halves rounded up. */
  function JsRound(x: real): (n: int)
    ensures x - 0.5 < n as real <= x + 0.5
  {
    (x + 0.5).Floor
  }

  /** The average's hours are floored, but its minutes are `Math.round(avg
      % 60)`, rounded rather than floored: they may reach 60. */
  function SplitAverage(avg: real): (r: HoursMinutes)
    requires avg >= 0.0
    ensures r.hours >= 0 && 0 <= r.minutes <= 60
    ensures r.hours as real * 60.0 <= avg < r.hours as real * 60.0 + 60.0
    ensures avg - 0.5 < (r.hours * 60 + r.minutes) as real <= avg + 0.5
  {
    var h := (avg / 60.0).Floor;
    HoursMinutes(h, JsRound(avg - h as real * 60.0))
  }

  /** Two logs of 60 and 59 minutes average 59.5 minutes, shown as 0 hours
      and 60 minutes. */
  lemma AverageMinutesReachSixty()
    ensures SplitAverage(Average(119, 2)) == HoursMinutes(0, 60)
  {
    assert Average(119, 2) == 59.5;
    assert (59.5 / 60.0).Floor == 0;
    assert JsRound(59.5) == 60;
  }

  /** The accumulation pass over all of a project's logs: each log's
      minutes go to the all-time sum, and to the week's and the month's
      when its day lies in those periods, bounds included. */
  method AccumulateMinutes(allLogs: seq<TimeLog>, weekStart: int, weekEnd: int, monthStart: int, monthEnd: int)
    returns (weeklyMin: nat, monthlyMin: nat, allTimeMin: nat)
    ensures allTimeMin == TotalMinutes(allLogs)
    ensures weeklyMin == RangeMinutes(allLogs, weekStart, weekEnd)
    ensures monthlyMin == RangeMinutes(allLogs, monthStart, monthEnd)
    ensures weeklyMin <= allTimeMin && monthlyMin <= allTimeMin
  {
    weeklyMin, monthlyMin, allTimeMin := 0, 0, 0;
    var i := 0;
    while i < |allLogs|
      invariant 0 <= i <= |allLogs|
      invariant allTimeMin == TotalMinutes(allLogs[..i])
      invariant weeklyMin == RangeMinutes(allLogs[..i], weekStart, weekEnd)
      invariant monthlyMin == RangeMinutes(allLogs[..i], monthStart, monthEnd)
    {
      var log := allLogs[i];
      var mins := LogMinutes(log);
      allTimeMin := allTimeMin + mins;
      if InRange(log.date, weekStart, weekEnd) {
        weeklyMin := weeklyMin + mins;
      }
      if InRange(log.date, monthStart, monthEnd) {
        monthlyMin := monthlyMin + mins;
      }
      assert allLogs[..i + 1][..i] == allLogs[..i];
      i := i + 1;
    }
    assert allLogs[..i] == allLogs;
    RangeAtMostTotal(allLogs, weekStart, weekEnd);
    RangeAtMostTotal(allLogs, monthStart, monthEnd);
  }

  /** What the endpoint returns besides the day's own log. */
  datatype Stats = Stats(weekly: HoursMinutes, monthly: HoursMinutes, average: HoursMinutes,
                         dailyLogs: seq<DayEntry>)

  /** The statistics of one project's logs for the week from `weekStart` to
      `weekEnd` and the month of `daysInMonth` days from `monthStart`. */
  method ComputeStats(allLogs: seq<TimeLog>, weekStart: int, weekEnd: int, monthStart: int, daysInMonth: nat)
    returns (stats: Stats)
    ensures stats.weekly.hours * 60 + stats.weekly.minutes == RangeMinutes(allLogs, weekStart, weekEnd)
    ensures stats.monthly.hours * 60 + stats.monthly.minutes ==
            RangeMinutes(allLogs, monthStart, monthStart + daysInMonth - 1)
    ensures 0 <= stats.weekly.minutes < 60 && 0 <= stats.monthly.minutes < 60
    ensures stats.weekly.hours * 60 + stats.weekly.minutes <= TotalMinutes(allLogs)
    ensures stats.monthly.hours * 60 + stats.monthly.minutes <= TotalMinutes(allLogs)
    ensures stats.average == SplitAverage(Average(TotalMinutes(allLogs), |allLogs|))
    ensures allLogs == [] ==> stats.weekly == stats.monthly == stats.average == HoursMinutes(0, 0)
    ensures stats.dailyLogs == DailyLogs(allLogs, monthStart, daysInMonth)
    ensures UniqueDates(allLogs) ==>
              SumHours(stats.dailyLogs) * 60.0 == (stats.monthly.hours * 60 + stats.monthly.minutes) as real
  {
    var monthEnd := monthStart + daysInMonth - 1;
    var weeklyMin, monthlyMin, allTimeMin := AccumulateMinutes(allLogs, weekStart, weekEnd, monthStart, monthEnd);
    var avgMin := Average(allTimeMin, |allLogs|);
    var dailyLogs := DailyLogs(allLogs, monthStart, daysInMonth);
    stats := Stats(SplitMinutes(weeklyMin), SplitMinutes(monthlyMin), SplitAverage(avgMin), dailyLogs);
    if UniqueDates(allLogs) {
      DailyLogsSumToMonth(allLogs, monthStart, daysInMonth);
    }
  }

  /** Saving a day's log (`updateOne` with `upsert`): the log with that day
      gets the new times, or the log is added at the end when the day has
      none. */
  function Upsert(logs: seq<TimeLog>, entry: TimeLog): (r: seq<TimeLog>)
    ensures |r| == if FindLog(logs, entry.date).Some? then |logs| else |logs| + 1
    ensures forall i :: 0 <= i < |r| ==> r[i] == entry || r[i] in logs
  {
    if logs == [] then [entry]
    else if logs[0].date == entry.date then [entry] + logs[1..]
    else [logs[0]] + Upsert(logs[1..], entry)
  }

  /** After a save, looking up the saved day gives the saved log, and
      looking up any other day gives what it gave before. */
  lemma {:induction false} UpsertFind(logs: seq<TimeLog>, entry: TimeLog, date: int)
    ensures FindLog(Upsert(logs, entry), date) == if date == entry.date then Some(entry) else FindLog(logs, date)
  {
    if logs != [] && logs[0].date != entry.date {
      UpsertFind(logs[1..], entry, date);
      var r := Upsert(logs, entry);
      assert r[1..] == Upsert(logs[1..], entry);
    }
  }

  /** Saving keeps the store at one log per day. */
  lemma {:induction false} UpsertKeepsUnique(logs: seq<TimeLog>, entry: TimeLog)
    requires UniqueDates(logs)
    ensures UniqueDates(Upsert(logs, entry))
  {
    if logs != [] && logs[0].date != entry.date {
      var rest := Upsert(logs[1..], entry);
      UpsertKeepsUnique(logs[1..], entry);
      var r := Upsert(logs, entry);
      assert r == [logs[0]] + rest;
      forall i, j | 0 <= i < j < |r| ensures r[i].date != r[j].date {
        if i == 0 {
          assert r[j] == rest[j - 1];
          if r[j] != entry {
            var k :| 0 <= k < |logs[1..]| && logs[1..][k] == r[j];
            assert logs[k + 1] == r[j];
          }
        } else {
          assert r[i] == rest[i - 1] && r[j] == rest[j - 1];
        }
      }
    }
  }

  /** Saving a day twice keeps only the second save: the last write wins. */
  lemma {:induction false} UpsertLastWins(logs: seq<TimeLog>, first: TimeLog, second: TimeLog)
    requires first.date == second.date
    ensures Upsert(Upsert(logs, first), second) == Upsert(logs, second)
  {
    if logs != [] && logs[0].date != first.date {
      UpsertLastWins(logs[1..], first, second);
    }
  }
}
