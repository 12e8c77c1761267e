/**
 * Calendar time as plain integers. A time point is the number of minutes
 * since 1970-01-01T00:00 and a date is the number of days since 1970-01-01
 * (java.time's epoch day). The clock is never read: callers pass `now`.
 */
module Time {

  const MINUTES_PER_HOUR: int := 60
  const MINUTES_PER_DAY: int := 1440

  datatype DayOfWeek = MONDAY | TUESDAY | WEDNESDAY | THURSDAY | FRIDAY | SATURDAY | SUNDAY

  /** Position of a weekday counting from Monday = 0. */
  function Index(w: DayOfWeek): (i: nat)
    ensures i < 7
    ensures DayAt(i) == w
  {
    match w
    case MONDAY => 0
    case TUESDAY => 1
    case WEDNESDAY => 2
    case THURSDAY => 3
    case FRIDAY => 4
    case SATURDAY => 5
    case SUNDAY => 6
  }

  function DayAt(i: nat): DayOfWeek
    requires i < 7
  {
    if i == 0 then MONDAY
    else if i == 1 then TUESDAY
    else if i == 2 then WEDNESDAY
    else if i == 3 then THURSDAY
    else if i == 4 then FRIDAY
    else if i == 5 then SATURDAY
    else SUNDAY
  }

  /** 1970-01-01 was a Thursday, so epoch day d falls on weekday (d + 3) mod 7. */
  function DayOfWeekOf(date: int): (w: DayOfWeek)
    ensures Index(w) == (date + 3) % 7
  {
    DayAt((date + 3) % 7)
  }

  /** The date part of a time point, as SQL's `CAST(t AS DATE)` takes it. */
  function DateOf(t: int): int {
    t / MINUTES_PER_DAY
  }

  /** A date covers the minutes from its midnight to 23:59, both included. */
  lemma DateOfIsDayRange(t: int, date: int)
    ensures DateOf(t) == date <==> date * MINUTES_PER_DAY <= t <= date * MINUTES_PER_DAY + MINUTES_PER_DAY - 1
  {
    var q, m := t / MINUTES_PER_DAY, t % MINUTES_PER_DAY;
    assert t == q * MINUTES_PER_DAY + m && 0 <= m < MINUTES_PER_DAY;
    if date < q {
      assert date * MINUTES_PER_DAY + MINUTES_PER_DAY <= q * MINUTES_PER_DAY;
    } else if q < date {
      assert q * MINUTES_PER_DAY + MINUTES_PER_DAY <= date * MINUTES_PER_DAY;
    }
  }

  /** Weekdays repeat every seven days. */
  lemma DayOfWeekPeriodic(date: int)
    ensures DayOfWeekOf(date + 7) == DayOfWeekOf(date)
  {
    var a, b := DayOfWeekOf(date + 7), DayOfWeekOf(date);
    assert (date + 7 + 3) % 7 == (date + 3) % 7;
    assert Index(a) == Index(b);
    assert a == DayAt(Index(a)) && b == DayAt(Index(b));
  }

  /** Every weekday occurs exactly once among any seven consecutive dates. */
  lemma WeekdayOncePerWeek(start: int, w: DayOfWeek)
    ensures exists d :: start <= d < start + 7 && DayOfWeekOf(d) == w
    ensures forall d1, d2 :: start <= d1 < start + 7 && start <= d2 < start + 7 && DayOfWeekOf(d1) == w && DayOfWeekOf(d2) == w ==> d1 == d2
  {
    var d := start + (Index(w) - (start + 3)) % 7;
    assert (d + 3) % 7 == Index(w);
    assert Index(DayOfWeekOf(d)) == Index(w);
    assert DayOfWeekOf(d) == DayAt(Index(DayOfWeekOf(d)));
    forall d1, d2 | start <= d1 < start + 7 && start <= d2 < start + 7 && DayOfWeekOf(d1) == w && DayOfWeekOf(d2) == w
      ensures d1 == d2
    {
      SameResidueInWeek(start + 3, d1 - start, d2 - start);
    }
  }

  lemma SameResidueInWeek(base: int, k1: int, k2: int)
    requires 0 <= k1 < 7 && 0 <= k2 < 7
    requires (base + k1) % 7 == (base + k2) % 7
    ensures k1 == k2
  {
    var q1, q2 := (base + k1) / 7, (base + k2) / 7;
    assert base + k1 == 7 * q1 + (base + k1) % 7;
    assert base + k2 == 7 * q2 + (base + k2) % 7;
    assert k1 - k2 == 7 * (q1 - q2);
  }
}
