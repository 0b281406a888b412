/** The weekly trips report's window: a week runs from Wednesday 00:00 to
    Tuesday 23:59:59.999 in Lima (UTC-5), stated in UTC milliseconds, and is
    selected by an offset in weeks from the current one. */
module ReportsWeek {
  import opened Common
  import opened Calendar

  /** Lima midnight is 05:00 UTC. */
  const LimaMidnightUtcMs: int := 5 * HourMs

  datatype Window = Window(startMs: int, endMs: int, isClosed: bool)

  /** getWeekDates, given the current Lima calendar date as a day number. */
  function GetWeekDates(limaDay: int, offset: int): (w: Window)
    ensures w.startMs % DayMs == LimaMidnightUtcMs
    ensures Weekday(w.startMs / DayMs) == Wednesday
    ensures w.endMs - w.startMs == WeekMs - 1
    ensures w.isClosed <==> offset < 0
  {
    var daysSinceWednesday := DaysSinceWednesday(Weekday(limaDay));
    var startDay := limaDay - daysSinceWednesday + offset * 7;
    var endDay := limaDay - daysSinceWednesday + 6 + offset * 7 + 1;
    WeekdayPeriodic(limaDay - daysSinceWednesday, offset);
    assert (startDay * DayMs + LimaMidnightUtcMs) / DayMs == startDay;
    Window(startDay * DayMs + 5 * HourMs,
           endDay * DayMs + 4 * HourMs + 59 * MinuteMs + 59 * SecondMs + 999,
           offset < 0)
  }

  predicate Contains(w: Window, t: int) {
    w.startMs <= t <= w.endMs
  }

  /** The UTC instant at which a Lima calendar day begins. */
  function LimaDayStartMs(limaDay: int): int {
    limaDay * DayMs + LimaMidnightUtcMs
  }

  /** The window opens at Lima midnight of the Wednesday of the anchor's week,
      shifted by whole weeks. */
  lemma {:induction false} WindowStart(limaDay: int, offset: int)
    ensures GetWeekDates(limaDay, offset).startMs == LimaDayStartMs(WeekStartDay(limaDay) + 7 * offset)
  {
  }

  /** Raising the offset by one moves both bounds by exactly one week, so
      consecutive windows abut: the next opens one millisecond after this one
      closes. */
  lemma {:induction false} NextWeekAbuts(limaDay: int, offset: int)
    ensures GetWeekDates(limaDay, offset + 1).startMs == GetWeekDates(limaDay, offset).startMs + WeekMs
    ensures GetWeekDates(limaDay, offset + 1).endMs == GetWeekDates(limaDay, offset).endMs + WeekMs
    ensures GetWeekDates(limaDay, offset + 1).startMs == GetWeekDates(limaDay, offset).endMs + 1
  {
    var d := limaDay - DaysSinceWednesday(Weekday(limaDay));
    assert (d + (offset + 1) * 7) * DayMs == (d + offset * 7) * DayMs + WeekMs;
  }

  /** The whole Lima day the report is requested on lies in the current week. */
  lemma {:induction false} TodayInCurrentWeek(limaDay: int, t: int)
    requires LimaDayStartMs(limaDay) <= t < LimaDayStartMs(limaDay + 1)
    ensures Contains(GetWeekDates(limaDay, 0), t)
  {
    var d := WeekStartDay(limaDay);
    assert limaDay * DayMs >= d * DayMs;
    assert (limaDay + 1) * DayMs <= (d + 7) * DayMs;
  }

  /** Any two days of the same Wednesday-to-Tuesday week see the same windows. */
  lemma {:induction false} SameWeekSameWindows(day1: int, day2: int, offset: int)
    requires WeekStartDay(day1) == WeekStartDay(day2)
    ensures GetWeekDates(day1, offset) == GetWeekDates(day2, offset)
  {
  }

  /** For a fixed anchor day, every instant lies in the window of exactly one
      offset. */
  lemma {:induction false} EveryInstantInOneWindow(limaDay: int, t: int)
    ensures var o := (t - GetWeekDates(limaDay, 0).startMs) / WeekMs;
            Contains(GetWeekDates(limaDay, o), t)
    ensures forall o1, o2 :: Contains(GetWeekDates(limaDay, o1), t) && Contains(GetWeekDates(limaDay, o2), t) ==> o1 == o2
  {
    var s0 := GetWeekDates(limaDay, 0).startMs;
    var d := limaDay - DaysSinceWednesday(Weekday(limaDay));
    var o := (t - s0) / WeekMs;
    assert t - s0 == WeekMs * o + (t - s0) % WeekMs;
    assert (d + o * 7) * DayMs == d * DayMs + o * WeekMs;
    forall o1, o2 | Contains(GetWeekDates(limaDay, o1), t) && Contains(GetWeekDates(limaDay, o2), t)
      ensures o1 == o2
    {
      assert (d + o1 * 7) * DayMs == d * DayMs + o1 * WeekMs;
      assert (d + o2 * 7) * DayMs == d * DayMs + o2 * WeekMs;
      assert -WeekMs < (o1 - o2) * WeekMs < WeekMs;
    }
  }

  // ---------------------------------------------------------------------
  // The offset query parameter and the flags derived from it

  /** parseInt(req.query.offset) || 0: a missing or non-numeric offset, and
      zero, all select the current week. */
  function ParseOffset(query: Option<string>): (offset: int)
    ensures query.None? ==> offset == 0
    ensures query.Some? && ParseInt(query.value).None? ==> offset == 0
    ensures query.Some? && ParseInt(query.value).Some? ==> offset == ParseInt(query.value).value
  {
    match query
    case None => 0
    case Some(text) =>
      match ParseInt(text)
      case None => 0
      case Some(n) => if n != 0 then n else 0
  }

  /** Every whole number sent as the offset is the offset used. */
  lemma ParseOffsetOfNumber(n: int)
    ensures ParseOffset(Some(IntToString(n))) == n
  {
    ParseIntOfIntToString(n);
  }

  /** parseInt with no radix reads a 0x offset in base 16: "-0x1" is the
      week before the current one, and the export goes ahead for it. */
  lemma HexOffsetExportsLastWeek(limaDay: int)
    ensures ParseOffset(Some("-0x1")) == -1
    ensures ExportGateFor(limaDay, Some("-0x1")) == ExportWindow(GetWeekDates(limaDay, -1))
  {
    HexMinusOne();
  }

  datatype WeekFlags = WeekFlags(isCurrentWeek: bool, canExport: bool)

  /** is_current_week and can_export of the report response. */
  function Flags(limaDay: int, offset: int): (f: WeekFlags)
    ensures f.canExport <==> !f.isCurrentWeek
    ensures f.canExport <==> offset < 0
  {
    var w := GetWeekDates(limaDay, offset);
    WeekFlags(!w.isClosed, w.isClosed)
  }

  datatype ExportGate = RejectOpenWeek(status: int) | ExportWindow(window: Window)

  /** exportWeeklyTrips refuses, with 400, every week that is not closed. */
  function ExportGateFor(limaDay: int, query: Option<string>): (g: ExportGate)
    ensures g.RejectOpenWeek? ==> g.status == 400
    ensures g.RejectOpenWeek? <==> ParseOffset(query) >= 0
    ensures g.ExportWindow? ==> g.window == GetWeekDates(limaDay, ParseOffset(query)) && g.window.isClosed
  {
    var w := GetWeekDates(limaDay, ParseOffset(query));
    if !w.isClosed then RejectOpenWeek(400) else ExportWindow(w)
  }

  /** Export is possible exactly for the weeks the report says can be exported. */
  lemma ExportMatchesFlag(limaDay: int, query: Option<string>)
    ensures ExportGateFor(limaDay, query).ExportWindow? <==> Flags(limaDay, ParseOffset(query)).canExport
  {
  }

  /** A window closed before the current one began: only earlier weeks close. */
  lemma {:induction false} ClosedWindowsArePast(limaDay: int, offset: int)
    requires GetWeekDates(limaDay, offset).isClosed
    ensures GetWeekDates(limaDay, offset).endMs < GetWeekDates(limaDay, 0).startMs
  {
    var d := limaDay - DaysSinceWednesday(Weekday(limaDay));
    assert (d + offset * 7) * DayMs == d * DayMs + offset * WeekMs;
    assert offset * WeekMs <= -WeekMs;
  }
}
