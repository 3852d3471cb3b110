/** Wall-clock times of day and the overnight-wrapping duration between two
    of them (`calculateDuration` in pages/api/getTimeLog.js and its twin in
    pages/index.js). A time is a number of minutes after midnight. */
module TimeOfDay {
  import opened Wrappers

  const MinutesPerDay: int := 1440

  /** Minutes after midnight of a clock time "00:00" .. "23:59". */
  type Minute = m: int | 0 <= m < 1440

  predicate IsDigit(c: char) {
    '0' <= c <= '9'
  }

  function DigitValue(c: char): (v: nat)
    requires IsDigit(c)
    ensures v < 10
  {
    c as int - '0' as int
  }

  function DigitChar(v: nat): (c: char)
    requires v < 10
    ensures IsDigit(c) && DigitValue(c) == v
  {
    ('0' as int + v) as char
  }

  /** The pattern `^\d{2}:\d{2}$`: two ASCII digits, a colon, two digits. */
  predicate IsTimeString(s: string)
    ensures IsTimeString(s) <==> |s| == 5 && s[2] == ':' && forall i :: 0 <= i < 5 && i != 2 ==> '0' <= s[i] <= '9'
  {
    |s| == 5 && IsDigit(s[0]) && IsDigit(s[1]) && s[2] == ':' && IsDigit(s[3]) && IsDigit(s[4])
  }

  /** The hour field of a string that matches the pattern (00 .. 99). */
  function HourField(s: string): nat
    requires IsTimeString(s)
  {
    10 * DigitValue(s[0]) + DigitValue(s[1])
  }

  /** The minute field of a string that matches the pattern (00 .. 99). */
  function MinuteField(s: string): nat
    requires IsTimeString(s)
  {
    10 * DigitValue(s[3]) + DigitValue(s[4])
  }

  /** Reading "HH:MM" as a clock time. The pattern admits fields such as
      "25:00" or "12:75", which JavaScript's Date rejects as an invalid date;
      those, and strings that miss the pattern, give None. */
  function ParseTime(s: string): (r: Option<Minute>)
    ensures r.Some? <==> IsTimeString(s) && HourField(s) < 24 && MinuteField(s) < 60
    ensures r.Some? ==> r.value / 60 == HourField(s) && r.value % 60 == MinuteField(s)
  {
    if IsTimeString(s) && HourField(s) < 24 && MinuteField(s) < 60 then
      Some(HourField(s) * 60 + MinuteField(s))
    else
      None
  }

  /** Two zero-padded decimal digits of `n`. */
  function TwoDigits(n: nat): (s: string)
    requires n < 100
    ensures |s| == 2 && IsDigit(s[0]) && IsDigit(s[1])
    ensures 10 * DigitValue(s[0]) + DigitValue(s[1]) == n
  {
    [DigitChar(n / 10), DigitChar(n % 10)]
  }

  /** The "HH:MM" string a browser time input produces for a clock time. */
  function FormatTime(t: Minute): (s: string)
    ensures IsTimeString(s)
  {
    TwoDigits(t / 60) + ":" + TwoDigits(t % 60)
  }

  /** Reading a formatted time gives the time back. */
  lemma ParseFormat(t: Minute)
    ensures ParseTime(FormatTime(t)) == Some(t)
  {
    var s := FormatTime(t);
    assert HourField(s) == t / 60;
    assert MinuteField(s) == t % 60;
  }

  /** A string that reads as a clock time is exactly that time's format, so
      each clock time has one spelling. */
  lemma {:induction false} FormatParse(s: string)
    requires ParseTime(s).Some?
    ensures FormatTime(ParseTime(s).value) == s
  {
    var t := ParseTime(s).value;
    var f := FormatTime(t);
    DigitsDetermined(s[0], s[1], f[0], f[1]);
    DigitsDetermined(s[3], s[4], f[3], f[4]);
    assert f == [f[0], f[1], f[2], f[3], f[4]];
    assert s == [s[0], s[1], s[2], s[3], s[4]];
  }

  lemma DigitsDetermined(a: char, b: char, c: char, d: char)
    requires IsDigit(a) && IsDigit(b) && IsDigit(c) && IsDigit(d)
    requires 10 * DigitValue(a) + DigitValue(b) == 10 * DigitValue(c) + DigitValue(d)
    ensures a == c && b == d
  {
  }

  /** Elapsed minutes from `start` to `end`; an `end` earlier than `start`
      is taken to lie on the next day. The result is the one offset below a
      day that, added to `start`, lands on `end` on the clock. */
  function CalculateDuration(start: Minute, end: Minute): (d: nat)
    ensures d < MinutesPerDay
    ensures (start + d) % MinutesPerDay == end
    ensures d == 0 <==> start == end
  {
    if end < start then end + MinutesPerDay - start else end - start
  }

  /** No other offset below a day leads from `start` to `end`: the duration
      is determined by the clock arithmetic alone. */
  lemma DurationUnique(start: Minute, end: Minute, d: int)
    requires 0 <= d < MinutesPerDay
    requires (start + d) % MinutesPerDay == end
    ensures d == CalculateDuration(start, end)
  {
    if start + d >= MinutesPerDay {
      assert (start + d) % MinutesPerDay == start + d - MinutesPerDay;
    } else {
      assert (start + d) % MinutesPerDay == start + d;
    }
  }

  /** Durations chain around the clock: going from `a` to `b` and on to `c`
      covers the direct duration from `a` to `c`, plus one whole day when the
      two legs wrap past it. */
  lemma DurationChain(a: Minute, b: Minute, c: Minute)
    ensures var sum := CalculateDuration(a, b) + CalculateDuration(b, c);
            sum == CalculateDuration(a, c) || sum == CalculateDuration(a, c) + MinutesPerDay
  {
  }

  /** `calculateDuration` applied to the strings it is given; None where
      JavaScript's Date arithmetic yields NaN. */
  function DurationOfStrings(start: string, end: string): (r: Option<nat>)
    ensures r.Some? <==> ParseTime(start).Some? && ParseTime(end).Some?
    ensures r.Some? ==> r.value < MinutesPerDay
    ensures r.Some? ==> (ParseTime(start).value + r.value) % MinutesPerDay == ParseTime(end).value
    ensures start == end && r.Some? ==> r.value == 0
  {
    match (ParseTime(start), ParseTime(end))
    case (Some(s), Some(e)) => Some(CalculateDuration(s, e))
    case _ => None
  }

  /** An overnight shift and a day shift, worked out. */
  lemma DurationExamples()
    ensures DurationOfStrings("23:00", "01:00") == Some(120)
    ensures DurationOfStrings("08:00", "16:30") == Some(510)
    ensures DurationOfStrings("07:15", "07:15") == Some(0)
    ensures DurationOfStrings("25:00", "01:00") == None
  {
    assert ParseTime("23:00") == Some(1380);
    assert ParseTime("01:00") == Some(60);
    assert ParseTime("08:00") == Some(480);
    assert ParseTime("16:30") == Some(990);
    assert ParseTime("07:15") == Some(435);
  }
}
