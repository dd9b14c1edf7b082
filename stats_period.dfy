/**
 * The reporting periods of the statistics view: for the chosen time frame, the
 * current window ends now and the previous window ends one millisecond before
 * the current one starts.
 */
module StatsPeriods {
  import opened Calendar

  datatype TimeFrame = AllTime | Year | Month | Week | Today

  /** `start`/`end` of the current window and `prevStart`/`prevEnd` of the previous one. */
  datatype Periods = Periods(start: int, end: int, prevStart: int, prevEnd: int) {
    function Current(): Window { Window(start, end) }
    function Previous(): Window { Window(prevStart, prevEnd) }
  }

  /** Step 1 of the analytics engine, "Determine Date Ranges". */
  function ResolvePeriods(tf: TimeFrame, c: Clock): (p: Periods)
    requires 0 <= c.weekday < 7
    ensures p.end == c.now
    ensures p.prevEnd == p.start - 1
  {
    var start :=
      match tf
      case Today => c.startOfToday
      case Week => StartOfWeek(c)
      case Month => c.startOfMonth
      case Year => c.startOfYear
      case AllTime => c.startOfYear;
    var prevEnd := start - 1;
    var prevStart :=
      match tf
      case Today => prevEnd - DayMs
      case Week => prevEnd - 7 * DayMs
      case Month => c.startOfPrevMonth
      case Year => c.startOfPrevYear
      case AllTime => c.startOfPrevYear;
    Periods(start, c.now, prevStart, prevEnd)
  }

  /** The previous window ends right before the current one: no instant is in both,
      and on a valid calendar both windows are non-empty. */
  lemma WindowsAdjacent(tf: TimeFrame, c: Clock, t: int)
    requires Valid(c)
    ensures var p := ResolvePeriods(tf, c);
      && !(InWindow(t, p.Current()) && InWindow(t, p.Previous()))
      && p.prevStart <= p.prevEnd < p.start <= p.end
      && (InWindow(t, p.Previous()) ==> t < p.start)
  {
  }

  /** `today` starts at local midnight; the previous window is the 24 hours before. */
  lemma TodayWindows(c: Clock)
    requires 0 <= c.weekday < 7
    ensures ResolvePeriods(Today, c).start == c.startOfToday
    ensures ResolvePeriods(Today, c).prevStart == c.startOfToday - 1 - DayMs
  {
  }

  /** `week` starts at the midnight of this week's Monday (six days back from a
      Sunday); the previous window is the seven days before it. */
  lemma WeekWindows(c: Clock)
    requires 0 <= c.weekday < 7
    ensures var p := ResolvePeriods(Week, c);
      && (c.weekday - (c.startOfToday - p.start) / DayMs) % 7 == 1
      && (c.startOfToday - p.start) % DayMs == 0
      && 0 <= c.startOfToday - p.start <= 6 * DayMs
      && p.prevStart == p.start - 1 - 7 * DayMs
  {
    var p := ResolvePeriods(Week, c);
    var d := DaysSinceMonday(c.weekday);
    assert c.startOfToday - p.start == d * DayMs;
    assert (d * DayMs) / DayMs == d;
  }

  /** `month` starts on day 1; the previous window starts on day 1 of last month. */
  lemma MonthWindows(c: Clock)
    requires 0 <= c.weekday < 7
    ensures ResolvePeriods(Month, c).start == c.startOfMonth
    ensures ResolvePeriods(Month, c).prevStart == c.startOfPrevMonth
  {
  }

  /** `all` produces exactly the windows of `year`. */
  lemma AllTimeIsYear(c: Clock)
    requires 0 <= c.weekday < 7
    ensures ResolvePeriods(AllTime, c) == ResolvePeriods(Year, c)
    ensures ResolvePeriods(Year, c).start == c.startOfYear
    ensures ResolvePeriods(Year, c).prevStart == c.startOfPrevYear
  {
  }
}
