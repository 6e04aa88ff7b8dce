/**
 * Local calendar arithmetic on whole milliseconds: day numbers count days
 * since 1970-01-01 (a Thursday), so every day is 86400000 ms long and the
 * weekday follows from the day number (0 = Sunday, as `getDay` numbers them).
 */
module Calendar {
  const MsPerDay: nat := 86400000

  /** The day number of an instant (midnight at the start of that day is `DayOf(t) * MsPerDay`). */
  function DayOf(t: int): (d: int)
    ensures d * MsPerDay <= t < (d + 1) * MsPerDay
  {
    t / MsPerDay
  }

  function Weekday(day: int): (w: nat)
    ensures w < 7
  {
    (day + 4) % 7
  }

  lemma WeekdayNext(day: int)
    ensures Weekday(day + 1) == (Weekday(day) + 1) % 7
  {
  }

  /** The Monday that starts the week holding `day`: Sunday goes back 6 days, any other day back `weekday - 1`. */
  function WeekStartDay(day: int): (m: int)
    ensures Weekday(m) == 1
    ensures day - 6 <= m <= day
    ensures day - m == (Weekday(day) + 6) % 7
  {
    var wd := Weekday(day);
    var diff := if wd == 0 then -6 else 1 - wd;
    day + diff
  }

  /** Every day from the week's Monday up to `day` shares that Monday. */
  lemma {:induction false} WeekStartStable(day: int, k: nat)
    requires k <= day - WeekStartDay(day)
    ensures WeekStartDay(day - k) == WeekStartDay(day)
  {
    if k > 0 {
      WeekStartStable(day, k - 1);
      WeekdayNext(day - k);
    }
  }

  /** Day 1 of the month holding `day`, given `day`'s day of the month (`getDate()`, from 1). */
  function MonthStartDay(day: int, dayOfMonth: nat): (first: int)
    requires dayOfMonth >= 1
    ensures first <= day && day - first == dayOfMonth - 1
  {
    day - (dayOfMonth - 1)
  }

  /** Midnight at the start of a day: the first instant whose day is `day`. */
  function StartOfDay(day: int): (t: int)
    ensures DayOf(t) == day && t % MsPerDay == 0
    ensures forall u :: DayOf(u) == day ==> t <= u
  {
    day * MsPerDay
  }
}
