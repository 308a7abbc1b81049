/**
 Time values and the UTC Gregorian calendar as section 21.4.1 of ECMA-262 defines them, on unbounded
 integers, and the part of the Date object the analytics service uses.
 */
module EcmaTime {
  const MS_PER_DAY: int := 86_400_000

  function Day(t: int): int { t / MS_PER_DAY }

  function TimeWithinDay(t: int): int { t % MS_PER_DAY }

  predicate Leap(y: int) { y % 4 == 0 && (y % 100 != 0 || y % 400 == 0) }

  function DaysInYear(y: int): int { if Leap(y) then 366 else 365 }

  function DayFromYear(y: int): int {
    365 * (y - 1970) + (y - 1969) / 4 - (y - 1901) / 100 + (y - 1601) / 400
  }

  // Days of the year before month m; m = 12 gives the length of the year.
  function DaysBefore(m: int, leap: bool): int
    requires 0 <= m <= 12
  {
    [0, 31, 59, 90, 120, 151, 181, 212, 243, 273, 304, 334, 365][m] + if leap && m >= 2 then 1 else 0
  }

  lemma {:induction false} FloorStep(a: int, k: int)
    requires k in {4, 100, 400}
    ensures (a + 1) / k == a / k + if (a + 1) % k == 0 then 1 else 0
  {
    if k == 4 {
      assert (a + 1) / 4 == a / 4 + if (a + 1) % 4 == 0 then 1 else 0;
    } else if k == 100 {
      assert (a + 1) / 100 == a / 100 + if (a + 1) % 100 == 0 then 1 else 0;
    } else {
      assert (a + 1) / 400 == a / 400 + if (a + 1) % 400 == 0 then 1 else 0;
    }
  }

  lemma {:induction false} YearLength(y: int)
    ensures DayFromYear(y + 1) == DayFromYear(y) + DaysInYear(y)
  {
    FloorStep(y - 1969, 4);
    FloorStep(y - 1901, 100);
    FloorStep(y - 1601, 400);
    LeapRemainders(y);
  }

  lemma {:induction false} Remainder4(y: int, n: int)
    ensures (y - 4 * n) % 4 == y % 4
  {
  }

  lemma {:induction false} Remainder100(y: int, n: int)
    ensures (y - 100 * n) % 100 == y % 100
  {
  }

  lemma {:induction false} Remainder400(y: int, n: int)
    ensures (y - 400 * n) % 400 == y % 400
  {
  }

  lemma {:induction false} LeapRemainders(y: int)
    ensures (y - 1968) % 4 == y % 4 && (y - 1900) % 100 == y % 100 && (y - 1600) % 400 == y % 400
    ensures (y % 400 == 0 ==> y % 100 == 0) && (y % 100 == 0 ==> y % 4 == 0)
  {
    Remainder4(y, 492);
    Remainder100(y, 19);
    Remainder400(y, 4);
    Remainder4(0, -25 * (y / 100));
    Remainder100(0, -4 * (y / 400));
  }

  // Day 0 begins 1970, every year has the Gregorian number of days, and the twelve months share them out.
  lemma {:induction false} CalendarSpelled(y: int, m: int)
    requires 0 <= m < 12
    ensures DayFromYear(1970) == 0
    ensures DayFromYear(y + 1) - DayFromYear(y)
         == if y % 4 == 0 && (y % 100 != 0 || y % 400 == 0) then 366 else 365
    ensures DaysBefore(0, Leap(y)) == 0 && DaysBefore(12, Leap(y)) == DayFromYear(y + 1) - DayFromYear(y)
    ensures DaysBefore(m + 1, Leap(y)) - DaysBefore(m, Leap(y))
         == if m in {3, 5, 8, 10} then 30 else if m != 1 then 31 else if Leap(y) then 29 else 28
  {
    YearLength(y);
  }

  lemma {:induction false} YearsIncrease(y: int, z: int)
    requires y <= z
    ensures DayFromYear(z) - DayFromYear(y) >= 365 * (z - y)
    decreases z - y
  {
    if y < z {
      YearLength(y);
      YearsIncrease(y + 1, z);
    }
  }

  // The year a day belongs to, found by walking from 1970.
  function YearUp(d: int, y: int): int
    requires DayFromYear(y) <= d
    decreases d - DayFromYear(y)
  {
    YearLength(y);
    if d < DayFromYear(y + 1) then y else YearUp(d, y + 1)
  }

  function YearDown(d: int, y: int): int
    requires d < DayFromYear(y)
    decreases DayFromYear(y) - d
  {
    YearLength(y - 1);
    if DayFromYear(y - 1) <= d then y - 1 else YearDown(d, y - 1)
  }

  function YearOf(d: int): int {
    if d >= DayFromYear(1970) then YearUp(d, 1970) else YearDown(d, 1970)
  }

  predicate InYear(d: int, y: int) { DayFromYear(y) <= d < DayFromYear(y + 1) }

  lemma {:induction false} YearUpFinds(d: int, y: int)
    requires DayFromYear(y) <= d
    ensures InYear(d, YearUp(d, y))
    decreases d - DayFromYear(y)
  {
    YearLength(y);
    if d >= DayFromYear(y + 1) {
      YearUpFinds(d, y + 1);
    }
  }

  lemma {:induction false} YearDownFinds(d: int, y: int)
    requires d < DayFromYear(y)
    ensures InYear(d, YearDown(d, y))
    decreases DayFromYear(y) - d
  {
    YearLength(y - 1);
    if d < DayFromYear(y - 1) {
      YearDownFinds(d, y - 1);
    }
  }

  lemma {:induction false} YearFound(d: int)
    ensures InYear(d, YearOf(d))
  {
    if d >= DayFromYear(1970) {
      YearUpFinds(d, 1970);
    } else {
      YearDownFinds(d, 1970);
    }
  }

  lemma {:induction false} YearUnique(d: int, y: int)
    requires InYear(d, y)
    ensures YearOf(d) == y
  {
    YearFound(d);
    OneYear(d, YearOf(d), y);
  }

  lemma {:induction false} OneYear(d: int, y: int, z: int)
    requires InYear(d, y) && InYear(d, z)
    ensures y == z
  {
    if y < z {
      YearsIncrease(y + 1, z);
    } else if z < y {
      YearsIncrease(z + 1, y);
    }
  }

  lemma {:induction false} YearStart(y: int)
    ensures YearOf(DayFromYear(y)) == y
  {
    YearLength(y);
    YearUnique(DayFromYear(y), y);
  }

  function DayInYear(d: int): int { d - DayFromYear(YearOf(d)) }

  lemma {:induction false} DayInYearBounds(d: int)
    ensures 0 <= DayInYear(d) < DaysBefore(12, Leap(YearOf(d)))
  {
    YearFound(d);
    YearLength(YearOf(d));
  }

  function MonthIn(k: int, leap: bool): (m: int)
    ensures 0 <= m <= 11
    ensures 0 <= k < DaysBefore(12, leap) ==> DaysBefore(m, leap) <= k < DaysBefore(m + 1, leap)
  {
    if k < DaysBefore(1, leap) then 0 else if k < DaysBefore(2, leap) then 1
    else if k < DaysBefore(3, leap) then 2 else if k < DaysBefore(4, leap) then 3
    else if k < DaysBefore(5, leap) then 4 else if k < DaysBefore(6, leap) then 5
    else if k < DaysBefore(7, leap) then 6 else if k < DaysBefore(8, leap) then 7
    else if k < DaysBefore(9, leap) then 8 else if k < DaysBefore(10, leap) then 9
    else if k < DaysBefore(11, leap) then 10 else 11
  }

  function MonthOf(d: int): (m: int)
    ensures 0 <= m <= 11
  {
    MonthIn(DayInYear(d), Leap(YearOf(d)))
  }

  lemma {:induction false} MonthFound(d: int)
    ensures DaysBefore(MonthOf(d), Leap(YearOf(d))) <= DayInYear(d) < DaysBefore(MonthOf(d) + 1, Leap(YearOf(d)))
  {
    DayInYearBounds(d);
  }

  // Date of the month, from 1.
  function DateOf(d: int): int { DayInYear(d) - DaysBefore(MonthOf(d), Leap(YearOf(d))) + 1 }

  lemma {:induction false} MonthsAreShort(m: int, leap: bool)
    requires 0 <= m <= 11
    ensures 28 <= DaysBefore(m + 1, leap) - DaysBefore(m, leap) <= 31
  {
  }

  lemma {:induction false} MonthStartsIncrease(m: int, n: int, leap: bool)
    requires 0 <= m < n <= 12
    ensures DaysBefore(m, leap) < DaysBefore(n, leap)
  {
  }

  lemma {:induction false} OneMonth(k: int, m: int, n: int, leap: bool)
    requires 0 <= m <= 11 && 0 <= n <= 11
    requires DaysBefore(m, leap) <= k < DaysBefore(m + 1, leap) && DaysBefore(n, leap) <= k < DaysBefore(n + 1, leap)
    ensures m == n
  {
    if m + 1 < n {
      MonthStartsIncrease(m + 1, n, leap);
    } else if n + 1 < m {
      MonthStartsIncrease(n + 1, m, leap);
    }
  }

  lemma {:induction false} MonthInYear(y: int, m: int, d: int)
    requires 0 <= m <= 11
    requires DayFromYear(y) + DaysBefore(m, Leap(y)) <= d < DayFromYear(y) + DaysBefore(m + 1, Leap(y))
    ensures InYear(d, y)
  {
    YearLength(y);
    if m < 11 {
      MonthStartsIncrease(m + 1, 12, Leap(y));
    }
  }

  lemma {:induction false} MonthUnique(d: int, y: int, m: int)
    requires 0 <= m <= 11
    requires DayFromYear(y) + DaysBefore(m, Leap(y)) <= d < DayFromYear(y) + DaysBefore(m + 1, Leap(y))
    ensures YearOf(d) == y && MonthOf(d) == m
  {
    MonthInYear(y, m, d);
    YearUnique(d, y);
    MonthFound(d);
    OneMonth(DayInYear(d), MonthOf(d), m, Leap(y));
  }

  lemma {:induction false} MonthStart(y: int, m: int)
    requires 0 <= m <= 11
    ensures var d := DayFromYear(y) + DaysBefore(m, Leap(y)); YearOf(d) == y && MonthOf(d) == m && DateOf(d) == 1
  {
    MonthStartsIncrease(m, m + 1, Leap(y));
    MonthUnique(DayFromYear(y) + DaysBefore(m, Leap(y)), y, m);
  }

  lemma {:induction false} YearEnd(y: int)
    ensures DayFromYear(y) + DaysBefore(12, Leap(y)) == DayFromYear(y + 1) + DaysBefore(0, Leap(y + 1))
  {
    YearLength(y);
  }

  // Sunday is 0.
  function WeekDay(d: int): int { (d + 4) % 7 }

  // A month outside 0..11 carries into the year; a date outside the month carries into the day.
  function MakeDay(year: int, month: int, date: int): int {
    var y := year + month / 12;
    DayFromYear(y) + DaysBefore(month % 12, Leap(y)) + date - 1
  }

  function MakeDate(day: int, time: int): int { day * MS_PER_DAY + time }

  // Date.UTC: the two-digit years stand for the twentieth century (section 21.4.3.4).
  function UtcYear(year: int): int { if 0 <= year <= 99 then 1900 + year else year }

  lemma {:induction false} MakeDayInYear(y: int, m: int, date: int)
    requires 0 <= m <= 11
    ensures MakeDay(y, m, date) == DayFromYear(y) + DaysBefore(m, Leap(y)) + date - 1
  {
    assert m / 12 == 0 && m % 12 == m;
  }

  lemma {:induction false} MakeDayInverse(d: int)
    ensures MakeDay(YearOf(d), MonthOf(d), DateOf(d)) == d
  {
    MakeDayInYear(YearOf(d), MonthOf(d), DateOf(d));
  }

  // The first of the month after month m, which may be the next January.
  lemma {:induction false} MakeDayNextMonth(y: int, m: int)
    requires 0 <= m <= 11
    ensures MakeDay(y, m + 1, 1) == DayFromYear(y) + DaysBefore(m + 1, Leap(y))
  {
    if m == 11 {
      YearEnd(y);
      assert (m + 1) / 12 == 1 && (m + 1) % 12 == 0;
    } else {
      assert (m + 1) / 12 == 0 && (m + 1) % 12 == m + 1;
    }
  }

  lemma {:induction false} DayOfDate(day: int, time: int)
    requires 0 <= time < MS_PER_DAY
    ensures Day(MakeDate(day, time)) == day && TimeWithinDay(MakeDate(day, time)) == time
  {
  }

  lemma {:induction false} DayBounds(t: int)
    ensures Day(t) * MS_PER_DAY <= t < (Day(t) + 1) * MS_PER_DAY
  {
  }

  // The mutable Date object, by its time value.
  class UtcDate {
    var time: int

    constructor (t: int)
      ensures time == t
    {
      time := t;
    }

    function FullYear(): int reads this { YearOf(Day(time)) }

    function Month(): int reads this { MonthOf(Day(time)) }

    function Date(): int reads this { DateOf(Day(time)) }

    function Weekday(): int reads this { WeekDay(Day(time)) }

    function Milliseconds(): int reads this { TimeWithinDay(time) % 1000 }

    method SetDate(date: int)
      modifies this
      ensures time == MakeDate(MakeDay(old(FullYear()), old(Month()), date), TimeWithinDay(old(time)))
    {
      time := MakeDate(MakeDay(FullYear(), Month(), date), TimeWithinDay(time));
    }

    method SetMonth(month: int, date: int)
      modifies this
      ensures time == MakeDate(MakeDay(old(FullYear()), month, date), TimeWithinDay(old(time)))
    {
      time := MakeDate(MakeDay(FullYear(), month, date), TimeWithinDay(time));
    }

    method SetFullYear(year: int)
      modifies this
      ensures time == MakeDate(MakeDay(year, old(Month()), old(Date())), TimeWithinDay(old(time)))
    {
      time := MakeDate(MakeDay(year, Month(), Date()), TimeWithinDay(time));
    }

    // Hour, minute and second stay; the milliseconds may carry.
    method SetMilliseconds(ms: int)
      modifies this
      ensures time == old(time) - old(Milliseconds()) + ms
    {
      time := MakeDate(Day(time), TimeWithinDay(time) - TimeWithinDay(time) % 1000 + ms);
    }
  }
}
