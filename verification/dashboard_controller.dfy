/** The dashboard's week and counters. The week runs from Wednesday
    00:00:00.000 to the following Tuesday 23:59:59.999 on the server's local
    clock, built by adjusting date objects in place; the counters start at
    zero and are overwritten by the count rows whose name they carry. */
module DashboardController {
  import opened Common
  import opened Calendar
  import opened ReportsWeek

  // ---------------------------------------------------------------------
  // The week on the local clock

  /** A Date on the server's local clock, as milliseconds of local wall
      time counted from 1970-01-01 00:00 local. */
  class LocalDate {
    var ms: int

    /** new Date(y, m - 1, d): local midnight of a calendar day. */
    constructor AtMidnight(day: int)
      ensures ms == day * DayMs
    {
      ms := day * DayMs;
    }

    /** new Date(other). */
    constructor Copy(other: LocalDate)
      ensures ms == other.ms
    {
      ms := other.ms;
    }

    function Day(): int
      reads this
    {
      ms / DayMs
    }

    function TimeOfDay(): int
      reads this
    {
      ms % DayMs
    }

    /** setDate: move to another day, keeping the time of day (a day of the
        month outside the month rolls over, which day numbers do by
        themselves). */
    method SetDay(day: int)
      modifies this
      ensures ms == day * DayMs + old(TimeOfDay())
    {
      ms := day * DayMs + ms % DayMs;
    }

    /** setHours(h, m, s, ms) within one day. */
    method SetHours(h: int, m: int, s: int, milli: int)
      requires 0 <= h < 24 && 0 <= m < 60 && 0 <= s < 60 && 0 <= milli < 1000
      modifies this
      ensures ms == old(Day()) * DayMs + h * HourMs + m * MinuteMs + s * SecondMs + milli
    {
      ms := (ms / DayMs) * DayMs + h * HourMs + m * MinuteMs + s * SecondMs + milli;
    }
  }

  /** lastWednesday on the local clock, for the anchor's local day. */
  function WeekStartLocalMs(anchorDay: int): (start: int)
    ensures start % DayMs == 0
    ensures Weekday(start / DayMs) == Wednesday
    ensures anchorDay - 6 <= start / DayMs <= anchorDay
  {
    WeekStartDay(anchorDay) * DayMs
  }

  /** nextTuesday on the local clock. */
  function WeekEndLocalMs(anchorDay: int): (end: int)
    ensures end == WeekStartLocalMs(anchorDay) + WeekMs - 1
  {
    (WeekStartDay(anchorDay) + 6) * DayMs + 23 * HourMs + 59 * MinuteMs + 59 * SecondMs + 999
  }

  /** The two date objects of the handler, built by the same steps. */
  method DashboardWeek(anchorDay: int) returns (lastWednesday: LocalDate, nextTuesday: LocalDate)
    ensures fresh(lastWednesday) && fresh(nextTuesday)
    ensures lastWednesday.ms == WeekStartLocalMs(anchorDay)
    ensures nextTuesday.ms == WeekEndLocalMs(anchorDay)
  {
    var peruAnchor := new LocalDate.AtMidnight(anchorDay);
    MidnightOf(anchorDay);
    var currentDay := Weekday(peruAnchor.Day());
    var daysSinceWednesday := DaysSinceWednesday(currentDay);
    var start := anchorDay - daysSinceWednesday;
    lastWednesday := new LocalDate.Copy(peruAnchor);
    lastWednesday.SetDay(peruAnchor.Day() - daysSinceWednesday);
    assert lastWednesday.ms == start * DayMs;
    MidnightOf(start);
    lastWednesday.SetHours(0, 0, 0, 0);
    assert lastWednesday.ms == start * DayMs;
    nextTuesday := new LocalDate.Copy(lastWednesday);
    nextTuesday.SetDay(lastWednesday.Day() + 6);
    assert nextTuesday.ms == (start + 6) * DayMs;
    MidnightOf(start + 6);
    nextTuesday.SetHours(23, 59, 59, 999);
  }

  /** Local midnight of a day reads back that day at time 0. */
  lemma MidnightOf(day: int)
    ensures (day * DayMs) / DayMs == day && (day * DayMs) % DayMs == 0
  {
  }

  /** On a server whose clock is Lima time, the dashboard's week is the
      weekly report's current week: its bounds are the same instants. */
  lemma DashboardWeekIsCurrentReportWeek(limaDay: int)
    ensures WeekStartLocalMs(limaDay) + LimaMidnightUtcMs == GetWeekDates(limaDay, 0).startMs
    ensures WeekEndLocalMs(limaDay) + LimaMidnightUtcMs == GetWeekDates(limaDay, 0).endMs
  {
  }

  /** Every local instant of the anchor day lies inside the week. */
  lemma AnchorDayInWeek(anchorDay: int, t: int)
    requires anchorDay * DayMs <= t < (anchorDay + 1) * DayMs
    ensures WeekStartLocalMs(anchorDay) <= t <= WeekEndLocalMs(anchorDay)
  {
    var w := WeekStartDay(anchorDay);
    assert w * DayMs <= anchorDay * DayMs;
    assert (anchorDay + 1) * DayMs <= (w + 7) * DayMs;
  }

  // ---------------------------------------------------------------------
  // The counters

  /** A row of a count query: a status name or resource type, and the count
      as the driver returns it, as text. */
  datatype CountRow = CountRow(name: string, count: string)

  /** parseInt(count, 10); None is NaN. */
  function ParseCount(count: string): Option<int> {
    ParseIntRadix10(count)
  }

  /** completed_week: parseInt(rows[0]?.count || '0', 10). */
  function CompletedWeek(rows: seq<string>): (c: Option<int>)
    ensures rows == [] ==> c == Some(0)
    ensures rows != [] && rows[0] != "" ==> c == ParseCount(rows[0])
  {
    if rows == [] || rows[0] == "" then
      ParseIntRadix10OfNatToString(0);
      assert NatToString(0) == "0";
      ParseCount("0")
    else ParseCount(rows[0])
  }

  /** The counter named name after the rows: the count of the last row with
      that name, or the initial value when there is none. */
  function CounterAfter(rows: seq<CountRow>, name: string, initial: Option<int>): Option<int> {
    if rows == [] then initial
    else if rows[|rows| - 1].name == name then ParseCount(rows[|rows| - 1].count)
    else CounterAfter(rows[..|rows| - 1], name, initial)
  }

  /** The counter ignores rows with other names. */
  lemma {:induction false} CounterIgnoresOtherRows(rows: seq<CountRow>, name: string, initial: Option<int>)
    requires forall i :: 0 <= i < |rows| ==> rows[i].name != name
    ensures CounterAfter(rows, name, initial) == initial
  {
    if rows != [] {
      CounterIgnoresOtherRows(rows[..|rows| - 1], name, initial);
    }
  }

  /** With the one row a GROUP BY gives per name, the counter is that row's
      count. */
  lemma {:induction false} CounterOfUniqueRow(rows: seq<CountRow>, name: string, initial: Option<int>, j: nat)
    requires j < |rows| && rows[j].name == name
    requires forall i :: 0 <= i < |rows| && i != j ==> rows[i].name != name
    ensures CounterAfter(rows, name, initial) == ParseCount(rows[j].count)
  {
    if j < |rows| - 1 {
      CounterOfUniqueRow(rows[..|rows| - 1], name, initial, j);
    } else {
      assert rows[j] == rows[|rows| - 1];
    }
  }

  /** Counting rows is a sum over the rows' counts when each name appears
      once: a status appears at most once, so the counters read back the
      query's answer. */
  lemma CounterOfDecimal(name: string, n: nat, initial: Option<int>)
    ensures CounterAfter([CountRow(name, NatToString(n))], name, initial) == Some(n)
  {
    ParseIntRadix10OfNatToString(n);
  }

  class DashboardStats {
    var pendingAssignment: Option<int>
    var pendingStart: Option<int>
    var inProgress: Option<int>
    var completedWeek: Option<int>
    var driversActive: Option<int>
    var driversTotal: Option<int>
    var tractorsActive: Option<int>
    var tractorsTotal: Option<int>
    var weekStart: int
    var weekEnd: int

    /** Every counter at zero except completed_week, which comes from its
        own query. */
    constructor (completedRows: seq<string>, weekStart: int, weekEnd: int)
      ensures pendingAssignment == Some(0) && pendingStart == Some(0) && inProgress == Some(0)
      ensures completedWeek == CompletedWeek(completedRows)
      ensures driversActive == Some(0) && driversTotal == Some(0) && tractorsActive == Some(0) && tractorsTotal == Some(0)
      ensures this.weekStart == weekStart && this.weekEnd == weekEnd
    {
      var zero: Option<int> := Some(0);
      pendingAssignment := zero;
      pendingStart := zero;
      inProgress := zero;
      completedWeek := CompletedWeek(completedRows);
      driversActive := zero;
      driversTotal := zero;
      tractorsActive := zero;
      tractorsTotal := zero;
      this.weekStart := weekStart;
      this.weekEnd := weekEnd;
    }

    /** One row of the status query. */
    method ApplyStatusRow(row: CountRow)
      modifies this
      ensures pendingAssignment == (if row.name == "pending_assignment" then ParseCount(row.count) else old(pendingAssignment))
      ensures pendingStart == (if row.name == "pending_start" then ParseCount(row.count) else old(pendingStart))
      ensures inProgress == (if row.name == "in_progress" then ParseCount(row.count) else old(inProgress))
      ensures completedWeek == old(completedWeek) && weekStart == old(weekStart) && weekEnd == old(weekEnd)
      ensures driversActive == old(driversActive) && driversTotal == old(driversTotal)
      ensures tractorsActive == old(tractorsActive) && tractorsTotal == old(tractorsTotal)
    {
      if row.name == "pending_assignment" { pendingAssignment := ParseCount(row.count); }
      if row.name == "pending_start" { pendingStart := ParseCount(row.count); }
      if row.name == "in_progress" { inProgress := ParseCount(row.count); }
    }

    /** One row of the resources query. */
    method ApplyResourceRow(row: CountRow)
      modifies this
      ensures driversActive == (if row.name == "drivers_active" then ParseCount(row.count) else old(driversActive))
      ensures tractorsActive == (if row.name == "tractors_active" then ParseCount(row.count) else old(tractorsActive))
      ensures driversTotal == (if row.name == "drivers_total" then ParseCount(row.count) else old(driversTotal))
      ensures tractorsTotal == (if row.name == "tractors_total" then ParseCount(row.count) else old(tractorsTotal))
      ensures pendingAssignment == old(pendingAssignment) && pendingStart == old(pendingStart) && inProgress == old(inProgress)
      ensures completedWeek == old(completedWeek) && weekStart == old(weekStart) && weekEnd == old(weekEnd)
    {
      if row.name == "drivers_active" { driversActive := ParseCount(row.count); }
      if row.name == "tractors_active" { tractorsActive := ParseCount(row.count); }
      if row.name == "drivers_total" { driversTotal := ParseCount(row.count); }
      if row.name == "tractors_total" { tractorsTotal := ParseCount(row.count); }
    }
  }

  /** The status query's forEach. */
  method ApplyStatusRows(stats: DashboardStats, statusRows: seq<CountRow>)
    modifies stats
    ensures stats.pendingAssignment == CounterAfter(statusRows, "pending_assignment", old(stats.pendingAssignment))
    ensures stats.pendingStart == CounterAfter(statusRows, "pending_start", old(stats.pendingStart))
    ensures stats.inProgress == CounterAfter(statusRows, "in_progress", old(stats.inProgress))
    ensures stats.completedWeek == old(stats.completedWeek)
    ensures stats.weekStart == old(stats.weekStart) && stats.weekEnd == old(stats.weekEnd)
    ensures stats.driversActive == old(stats.driversActive) && stats.driversTotal == old(stats.driversTotal)
    ensures stats.tractorsActive == old(stats.tractorsActive) && stats.tractorsTotal == old(stats.tractorsTotal)
  {
    for i := 0 to |statusRows|
      invariant stats.pendingAssignment == CounterAfter(statusRows[..i], "pending_assignment", old(stats.pendingAssignment))
      invariant stats.pendingStart == CounterAfter(statusRows[..i], "pending_start", old(stats.pendingStart))
      invariant stats.inProgress == CounterAfter(statusRows[..i], "in_progress", old(stats.inProgress))
      invariant stats.completedWeek == old(stats.completedWeek)
      invariant stats.weekStart == old(stats.weekStart) && stats.weekEnd == old(stats.weekEnd)
      invariant stats.driversActive == old(stats.driversActive) && stats.driversTotal == old(stats.driversTotal)
      invariant stats.tractorsActive == old(stats.tractorsActive) && stats.tractorsTotal == old(stats.tractorsTotal)
    {
      assert statusRows[..i + 1][..i] == statusRows[..i];
      stats.ApplyStatusRow(statusRows[i]);
    }
    assert statusRows[..|statusRows|] == statusRows;
  }

  /** The resources query's forEach. */
  method ApplyResourceRows(stats: DashboardStats, resourceRows: seq<CountRow>)
    modifies stats
    ensures stats.driversActive == CounterAfter(resourceRows, "drivers_active", old(stats.driversActive))
    ensures stats.driversTotal == CounterAfter(resourceRows, "drivers_total", old(stats.driversTotal))
    ensures stats.tractorsActive == CounterAfter(resourceRows, "tractors_active", old(stats.tractorsActive))
    ensures stats.tractorsTotal == CounterAfter(resourceRows, "tractors_total", old(stats.tractorsTotal))
    ensures stats.pendingAssignment == old(stats.pendingAssignment) && stats.pendingStart == old(stats.pendingStart)
    ensures stats.inProgress == old(stats.inProgress) && stats.completedWeek == old(stats.completedWeek)
    ensures stats.weekStart == old(stats.weekStart) && stats.weekEnd == old(stats.weekEnd)
  {
    for i := 0 to |resourceRows|
      invariant stats.driversActive == CounterAfter(resourceRows[..i], "drivers_active", old(stats.driversActive))
      invariant stats.driversTotal == CounterAfter(resourceRows[..i], "drivers_total", old(stats.driversTotal))
      invariant stats.tractorsActive == CounterAfter(resourceRows[..i], "tractors_active", old(stats.tractorsActive))
      invariant stats.tractorsTotal == CounterAfter(resourceRows[..i], "tractors_total", old(stats.tractorsTotal))
      invariant stats.pendingAssignment == old(stats.pendingAssignment) && stats.pendingStart == old(stats.pendingStart)
      invariant stats.inProgress == old(stats.inProgress) && stats.completedWeek == old(stats.completedWeek)
      invariant stats.weekStart == old(stats.weekStart) && stats.weekEnd == old(stats.weekEnd)
    {
      assert resourceRows[..i + 1][..i] == resourceRows[..i];
      stats.ApplyResourceRow(resourceRows[i]);
    }
    assert resourceRows[..|resourceRows|] == resourceRows;
  }

  /** The stats record of the handler, with the three queries' rows as
      inputs: the counters fold the rows in order. */
  method ComputeStats(statusRows: seq<CountRow>, resourceRows: seq<CountRow>, completedRows: seq<string>, anchorDay: int)
    returns (stats: DashboardStats)
    ensures fresh(stats)
    ensures stats.pendingAssignment == CounterAfter(statusRows, "pending_assignment", Some(0))
    ensures stats.pendingStart == CounterAfter(statusRows, "pending_start", Some(0))
    ensures stats.inProgress == CounterAfter(statusRows, "in_progress", Some(0))
    ensures stats.completedWeek == CompletedWeek(completedRows)
    ensures stats.driversActive == CounterAfter(resourceRows, "drivers_active", Some(0))
    ensures stats.driversTotal == CounterAfter(resourceRows, "drivers_total", Some(0))
    ensures stats.tractorsActive == CounterAfter(resourceRows, "tractors_active", Some(0))
    ensures stats.tractorsTotal == CounterAfter(resourceRows, "tractors_total", Some(0))
    ensures stats.weekStart == WeekStartLocalMs(anchorDay) && stats.weekEnd == WeekEndLocalMs(anchorDay)
  {
    var lastWednesday, nextTuesday := DashboardWeek(anchorDay);
    stats := new DashboardStats(completedRows, lastWednesday.ms, nextTuesday.ms);
    ApplyStatusRows(stats, statusRows);
    ApplyResourceRows(stats, resourceRows);
  }

  /** The status counters only read the three open statuses: rows of any
      other status, such as completed, change none of them. */
  lemma OnlyOpenStatusesCount(statusRows: seq<CountRow>, other: CountRow)
    requires other.name !in ["pending_assignment", "pending_start", "in_progress"]
    ensures CounterAfter(statusRows + [other], "pending_assignment", Some(0)) == CounterAfter(statusRows, "pending_assignment", Some(0))
    ensures CounterAfter(statusRows + [other], "pending_start", Some(0)) == CounterAfter(statusRows, "pending_start", Some(0))
    ensures CounterAfter(statusRows + [other], "in_progress", Some(0)) == CounterAfter(statusRows, "in_progress", Some(0))
  {
    assert (statusRows + [other])[..|statusRows|] == statusRows;
  }
}
