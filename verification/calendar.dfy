/** Calendar arithmetic on day numbers: day 0 is 1970-01-01 (a Thursday), and
    instants are milliseconds counted from its midnight, as a JavaScript Date
    counts them. */
module Calendar {

  const SecondMs: int := 1000
  const MinuteMs: int := 60 * SecondMs
  const HourMs: int := 60 * MinuteMs
  const DayMs: int := 24 * HourMs
  const WeekMs: int := 7 * DayMs

  /** Day-of-week numbering of getDay and getUTCDay: 0 is Sunday. */
  const Wednesday: int := 3

  /** Day of the week of a day number; 1970-01-01 was a Thursday. */
  function Weekday(day: int): (w: int)
    ensures 0 <= w < 7
  {
    (day + 4) % 7
  }

  lemma WeekdayPeriodic(day: int, k: int)
    ensures Weekday(day + 7 * k) == Weekday(day)
  {
    var a := day + 4;
    assert a == 7 * (a / 7) + a % 7;
    assert a + 7 * k == 7 * (a / 7 + k) + a % 7;
  }

  /** (currentDay + 7 - 3) % 7: how many days ago the week's Wednesday was. */
  function DaysSinceWednesday(weekday: int): (d: int)
    requires 0 <= weekday < 7
    ensures 0 <= d < 7
    ensures d == 0 <==> weekday == Wednesday
  {
    (weekday + 7 - Wednesday) % 7
  }

  /** The Wednesday that opens the Wednesday-to-Tuesday week of `day`. */
  function WeekStartDay(day: int): (w: int)
    ensures Weekday(w) == Wednesday
    ensures day - 6 <= w <= day
  {
    day - DaysSinceWednesday(Weekday(day))
  }

  /** Two days share a week exactly when they are at most six days apart from
      the same Wednesday. */
  lemma {:induction false} WeekStartDayUnique(day: int, w: int)
    requires Weekday(w) == Wednesday && day - 6 <= w <= day
    ensures WeekStartDay(day) == w
  {
    var v := WeekStartDay(day);
    var a, b := v + 4, w + 4;
    assert a % 7 == b % 7;
    assert a == 7 * (a / 7) + a % 7;
    assert b == 7 * (b / 7) + b % 7;
    assert v - w == 7 * (a / 7 - b / 7);
  }

  /** Every day of a week has the same opening Wednesday. */
  lemma SameWeekStart(day: int, k: int)
    requires 0 <= k < 7
    ensures WeekStartDay(WeekStartDay(day) + k) == WeekStartDay(day)
  {
    WeekStartDayUnique(WeekStartDay(day) + k, WeekStartDay(day));
  }
}
