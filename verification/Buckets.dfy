/**
 Calendar buckets of the analytics service, and that they tile time.  A bucket is a run of whole days;
 every statement about milliseconds reduces to one about day numbers.
 */
module Buckets {
  import opened EcmaTime

  datatype Period = Daily | Weekly | Monthly | Yearly | Lifetime

  datatype Bucket = Bucket(period: Period, periodStart: int, periodEnd: int)

  const LIFETIME_END: int := MakeDay(9999, 11, 31) * MS_PER_DAY + MS_PER_DAY - 1

  // --- Days of a period ---

  // First day of the period that contains day d, and the first day after it.
  function FirstDay(d: int, p: Period): int {
    match p
    case Weekly => MondayOf(d)
    case Monthly => MonthFirst(YearOf(d), MonthOf(d))
    case Yearly => DayFromYear(YearOf(d))
    case _ => d
  }

  function NextDay(d: int, p: Period): int {
    match p
    case Weekly => MondayOf(d) + 7
    case Monthly => MonthFirst(YearOf(d), MonthOf(d) + 1)
    case Yearly => DayFromYear(YearOf(d) + 1)
    case _ => d + 1
  }

  function MondayOf(d: int): int { d - (d + 3) % 7 }

  // First day of month m of year y; m = 12 is the January after.
  function MonthFirst(y: int, m: int): int
    requires 0 <= m <= 12
  {
    DayFromYear(y) + DaysBefore(m, Leap(y))
  }

  lemma {:induction false} PeriodContains(d: int, p: Period)
    ensures FirstDay(d, p) <= d < NextDay(d, p) && NextDay(d, p) - FirstDay(d, p) <= 366
  {
    match p {
      case Monthly =>
        MonthFound(d);
        MonthsAreShort(MonthOf(d), Leap(YearOf(d)));
      case Yearly =>
        YearFound(d);
        YearLength(YearOf(d));
      case _ =>
    }
  }

  lemma {:induction false} WeekPartition(d: int, e: int)
    requires MondayOf(d) <= e < MondayOf(d) + 7
    ensures MondayOf(e) == MondayOf(d)
  {
    assert (e + 3) / 7 == (d + 3) / 7;
  }

  lemma {:induction false} MonthPartition(d: int, e: int)
    requires MonthFirst(YearOf(d), MonthOf(d)) <= e < MonthFirst(YearOf(d), MonthOf(d) + 1)
    ensures YearOf(e) == YearOf(d) && MonthOf(e) == MonthOf(d)
  {
    MonthUnique(e, YearOf(d), MonthOf(d));
  }

  lemma {:induction false} YearPartition(d: int, e: int)
    requires DayFromYear(YearOf(d)) <= e < DayFromYear(YearOf(d) + 1)
    ensures YearOf(e) == YearOf(d)
  {
    YearUnique(e, YearOf(d));
  }

  // Days of one period agree on the period.
  lemma {:induction false} PeriodPartition(d: int, e: int, p: Period)
    requires FirstDay(d, p) <= e < NextDay(d, p)
    ensures FirstDay(e, p) == FirstDay(d, p) && NextDay(e, p) == NextDay(d, p)
  {
    match p {
      case Weekly => WeekPartition(d, e);
      case Monthly => MonthPartition(d, e);
      case Yearly => YearPartition(d, e);
      case _ =>
    }
  }

  lemma {:induction false} NextWeekStarts(d: int)
    ensures MondayOf(MondayOf(d) + 7) == MondayOf(d) + 7
  {
    assert d + 3 - (d + 3) % 7 == 7 * ((d + 3) / 7);
  }

  lemma {:induction false} MonthFirstIsFirst(y: int, m: int)
    requires 0 <= m <= 11
    ensures FirstDay(MonthFirst(y, m), Monthly) == MonthFirst(y, m)
  {
    MonthStart(y, m);
  }

  lemma {:induction false} DecemberEnds(y: int)
    ensures MonthFirst(y, 12) == MonthFirst(y + 1, 0)
  {
    YearEnd(y);
  }

  lemma {:induction false} NextMonthStarts(y: int, m: int)
    requires 0 <= m <= 11
    ensures FirstDay(MonthFirst(y, m + 1), Monthly) == MonthFirst(y, m + 1)
  {
    if m == 11 {
      DecemberEnds(y);
      MonthFirstIsFirst(y + 1, 0);
    } else {
      MonthFirstIsFirst(y, m + 1);
    }
  }

  lemma {:induction false} NextYearStarts(y: int)
    ensures YearOf(DayFromYear(y + 1)) == y + 1
  {
    YearStart(y + 1);
  }

  // The day after a period is the first day of the next one.
  lemma {:induction false} NextPeriodStarts(d: int, p: Period)
    ensures FirstDay(NextDay(d, p), p) == NextDay(d, p)
  {
    match p {
      case Weekly => NextWeekStarts(d);
      case Monthly => MonthAfterStarts(d);
      case Yearly => YearAfterStarts(d);
      case _ =>
    }
  }

  lemma {:induction false} MonthAfterStarts(d: int)
    ensures FirstDay(NextDay(d, Monthly), Monthly) == NextDay(d, Monthly)
  {
    NextMonthStarts(YearOf(d), MonthOf(d));
  }

  lemma {:induction false} YearAfterStarts(d: int)
    ensures FirstDay(NextDay(d, Yearly), Yearly) == NextDay(d, Yearly)
  {
    NextYearStarts(YearOf(d));
  }

  // --- The code ---

  // Date.UTC of a time value's own fields: its day, except that years 0 to 99 move to 1900 to 1999.
  function UtcDay(t: int): int {
    var d := Day(t);
    MakeDay(UtcYear(YearOf(d)), MonthOf(d), DateOf(d))
  }

  lemma {:induction false} WeekdayBack(d: int)
    ensures (if WeekDay(d) == 0 then 6 else WeekDay(d) - 1) == (d + 3) % 7
  {
  }

  // What the Date setters compute at midnight of day d.
  lemma {:induction false} MoveWithinMonth(d: int, k: int)
    ensures MakeDay(YearOf(d), MonthOf(d), DateOf(d) + k) == d + k
  {
    MakeDayInYear(YearOf(d), MonthOf(d), DateOf(d) + k);
  }

  lemma {:induction false} MoveToMonthStart(d: int)
    ensures MakeDay(YearOf(d), MonthOf(d), 1) == FirstDay(d, Monthly)
  {
    MakeDayInYear(YearOf(d), MonthOf(d), 1);
  }

  lemma {:induction false} MoveToYearStart(y: int)
    ensures MakeDay(y, 0, 1) == DayFromYear(y)
  {
    MakeDayInYear(y, 0, 1);
  }

  predicate Midnight(s: UtcDate)
    reads s
  {
    TimeWithinDay(s.time) == 0
  }

  method BackToMonday(s: UtcDate)
    requires Midnight(s)
    modifies s
    ensures s.time == MakeDate(MondayOf(Day(old(s.time))), 0)
  {
    ghost var d := Day(s.time);
    var day := s.Weekday();
    var daysSinceMonday := if day == 0 then 6 else day - 1;
    assert MondayOf(d) == d - daysSinceMonday by {
      WeekdayBack(d);
    }
    assert MakeDay(YearOf(d), MonthOf(d), DateOf(d) - daysSinceMonday) == d - daysSinceMonday by {
      MoveWithinMonth(d, -daysSinceMonday);
    }
    s.SetDate(s.Date() - daysSinceMonday);
  }

  method GetPeriodStart(date: int, period: Period) returns (start: int)
    requires period != Lifetime
    ensures start == FirstDay(UtcDay(date), period) * MS_PER_DAY
  {
    var given := new UtcDate(date);
    var s := new UtcDate(MakeDate(MakeDay(UtcYear(given.FullYear()), given.Month(), given.Date()), 0));
    ghost var d := UtcDay(date);
    DayOfDate(d, 0);
    assert s.time == d * MS_PER_DAY && Day(s.time) == d && Midnight(s);
    if period == Weekly {
      BackToMonday(s);
    }
    if period == Monthly {
      MoveToMonthStart(d);
      s.SetDate(1);
    }
    if period == Yearly {
      MoveToYearStart(YearOf(d));
      s.SetMonth(0, 1);
    }
    start := s.time;
  }

  lemma {:induction false} FirstOfMonth(d: int)
    requires FirstDay(d, Monthly) == d
    ensures DateOf(d) == 1 && MakeDay(YearOf(d), MonthOf(d) + 1, 1) == NextDay(d, Monthly)
  {
    MakeDayNextMonth(YearOf(d), MonthOf(d));
  }

  lemma {:induction false} FirstOfYear(d: int)
    requires FirstDay(d, Yearly) == d
    ensures MonthOf(d) == 0 && DateOf(d) == 1
  {
    MonthStart(YearOf(d), 0);
  }

  method AddDays(e: UtcDate, n: int)
    requires Midnight(e)
    modifies e
    ensures e.time == MakeDate(Day(old(e.time)) + n, 0)
  {
    MoveWithinMonth(Day(e.time), n);
    e.SetDate(e.Date() + n);
  }

  method ToNextMonth(e: UtcDate)
    requires Midnight(e) && FirstDay(Day(e.time), Monthly) == Day(e.time)
    modifies e
    ensures e.time == MakeDate(NextDay(Day(old(e.time)), Monthly), 0)
  {
    FirstOfMonth(Day(e.time));
    e.SetMonth(e.Month() + 1, e.Date());
  }

  method ToNextYear(e: UtcDate)
    requires Midnight(e) && FirstDay(Day(e.time), Yearly) == Day(e.time)
    modifies e
    ensures e.time == MakeDate(NextDay(Day(old(e.time)), Yearly), 0)
  {
    FirstOfYear(Day(e.time));
    MoveToYearStart(YearOf(Day(e.time)) + 1);
    e.SetFullYear(e.FullYear() + 1);
  }

  lemma {:induction false} WeekAhead(d: int)
    requires FirstDay(d, Weekly) == d
    ensures NextDay(d, Weekly) == d + 7
  {
  }

  // Moves a Date at the first midnight of a period to the first midnight of the next.
  method ToNextPeriod(e: UtcDate, period: Period)
    requires period != Lifetime && Midnight(e) && FirstDay(Day(e.time), period) == Day(e.time)
    modifies e
    ensures e.time == MakeDate(NextDay(Day(old(e.time)), period), 0)
  {
    match period {
      case Daily => AddDays(e, 1);
      case Weekly =>
        WeekAhead(Day(e.time));
        AddDays(e, 7);
      case Monthly => ToNextMonth(e);
      case Yearly => ToNextYear(e);
    }
  }

  method GetPeriodEnd(periodStart: int, period: Period) returns (end: int)
    requires period != Lifetime
    requires TimeWithinDay(periodStart) == 0 && FirstDay(Day(periodStart), period) == Day(periodStart)
    ensures end == NextDay(Day(periodStart), period) * MS_PER_DAY - 1
  {
    var e := new UtcDate(periodStart);
    ToNextPeriod(e, period);
    DayOfDate(NextDay(Day(periodStart), period), 0);
    e.SetMilliseconds(e.Milliseconds() - 1);
    end := e.time;
  }

  function BucketFor(t: int, p: Period): Bucket {
    if p == Lifetime then Bucket(p, 0, LIFETIME_END)
    else Bucket(p, FirstDay(UtcDay(t), p) * MS_PER_DAY, NextDay(UtcDay(t), p) * MS_PER_DAY - 1)
  }

  method GetBucketForDate(date: int, period: Period) returns (bucket: Bucket)
    ensures bucket == BucketFor(date, period)
    ensures period == Lifetime ==> bucket == Bucket(Lifetime, 0, 253402300799999)
  {
    if period == Lifetime {
      return Bucket(period, 0, LIFETIME_END);
    }
    var periodStart := GetPeriodStart(date, period);
    ghost var first := FirstDay(UtcDay(date), period);
    DayOfDate(first, 0);
    PeriodContains(UtcDay(date), period);
    PeriodPartition(UtcDay(date), first, period);
    var periodEnd := GetPeriodEnd(periodStart, period);
    bucket := Bucket(period, periodStart, periodEnd);
  }

  // --- Tiling ---

  predicate Within(t: int, b: Bucket) { b.periodStart <= t <= b.periodEnd }

  // The dates Date.UTC does not move.
  predicate Regular(t: int) { !(0 <= YearOf(Day(t)) <= 99) }

  lemma {:induction false} RegularDay(t: int)
    ensures Regular(t) ==> UtcDay(t) == Day(t)
    ensures !Regular(t) ==> UtcDay(t) - Day(t) > 366
  {
    var d := Day(t);
    MakeDayInverse(d);
    if !Regular(t) {
      YearFound(d);
      YearsIncrease(YearOf(d) + 1, 100);
      YearsIncrease(100, UtcYear(YearOf(d)));
    }
  }

  // A bucket contains the time it was made for exactly when the year is not one of 0 to 99.
  lemma {:induction false} BucketContainsIff(t: int, p: Period)
    requires p != Lifetime
    ensures Within(t, BucketFor(t, p)) <==> Regular(t)
  {
    RegularDay(t);
    DayBounds(t);
    var d := UtcDay(t);
    PeriodContains(d, p);
    var first, next := FirstDay(d, p), NextDay(d, p);
    if Regular(t) {
      assert first * MS_PER_DAY <= Day(t) * MS_PER_DAY && (Day(t) + 1) * MS_PER_DAY <= next * MS_PER_DAY;
    } else {
      assert first >= d - 366;
      assert first * MS_PER_DAY >= (Day(t) + 1) * MS_PER_DAY;
    }
  }

  // Times share a bucket exactly when one lies within the other's.
  lemma {:induction false} SameBucketIff(t: int, u: int, p: Period)
    requires p != Lifetime && Regular(t) && Regular(u)
    ensures BucketFor(t, p) == BucketFor(u, p) <==> Within(u, BucketFor(t, p))
  {
    RegularDay(t);
    RegularDay(u);
    BucketContainsIff(u, p);
    var b := BucketFor(t, p);
    if Within(u, b) {
      DayWithin(u, FirstDay(Day(t), p), NextDay(Day(t), p));
      PeriodPartition(Day(t), Day(u), p);
    }
  }

  lemma {:induction false} DayWithin(u: int, first: int, next: int)
    ensures first * MS_PER_DAY <= u <= next * MS_PER_DAY - 1 <==> first <= Day(u) < next
  {
    DayBounds(u);
  }

  // The millisecond after a bucket starts the next one.
  lemma {:induction false} NextBucketFollows(t: int, p: Period)
    requires p != Lifetime && Regular(t) && Regular(BucketFor(t, p).periodEnd + 1)
    ensures BucketFor(BucketFor(t, p).periodEnd + 1, p).periodStart == BucketFor(t, p).periodEnd + 1
  {
    RegularDay(t);
    var next := NextDay(Day(t), p);
    var u := BucketFor(t, p).periodEnd + 1;
    DayOfDate(next, 0);
    assert Day(u) == next;
    RegularDay(u);
    NextPeriodStarts(Day(t), p);
  }

  // The moments a period may start at.
  predicate IsStart(t: int, p: Period) {
    TimeWithinDay(t) == 0
    && match p
       case Weekly => WeekDay(Day(t)) == 1
       case Monthly => DateOf(Day(t)) == 1
       case Yearly => MonthOf(Day(t)) == 0 && DateOf(Day(t)) == 1
       case _ => true
  }

  lemma {:induction false} StartDays(d: int, p: Period)
    requires p != Lifetime
    ensures IsStart(d * MS_PER_DAY, p) <==> FirstDay(d, p) == d
  {
    DayOfDate(d, 0);
    match p {
      case Weekly => assert (d + 4) % 7 == 1 <==> (d + 3) % 7 == 0;
      case _ =>
    }
  }

  // A bucket starts at the latest midnight, Monday, first of the month or 1 January not after t.
  lemma {:induction false} BucketStartIsLatest(t: int, p: Period, s: int)
    requires p != Lifetime && Regular(t)
    ensures IsStart(BucketFor(t, p).periodStart, p) && BucketFor(t, p).periodStart <= t
    ensures var start := BucketFor(t, p).periodStart;
      && TimeWithinDay(start) == 0 && (p == Weekly ==> WeekDay(Day(start)) == 1)
      && (p == Monthly ==> DateOf(Day(start)) == 1)
      && (p == Yearly ==> MonthOf(Day(start)) == 0 && DateOf(Day(start)) == 1)
    ensures IsStart(s, p) && s <= t ==> s <= BucketFor(t, p).periodStart
  {
    RegularDay(t);
    BucketContainsIff(t, p);
    var first := FirstDay(Day(t), p);
    PeriodContains(Day(t), p);
    PeriodPartition(Day(t), first, p);
    StartDays(first, p);
    if IsStart(s, p) && s <= t {
      assert s == Day(s) * MS_PER_DAY;
      StartDays(Day(s), p);
      DayBounds(t);
      if Day(s) > first {
        PeriodPartition(Day(t), Day(s), p);
      }
    }
  }

  // The lifetime bucket ends with the last millisecond of the year 9999.
  lemma {:induction false} LifetimeEnds()
    ensures LIFETIME_END == 253402300799999
    ensures YearOf(Day(LIFETIME_END)) == 9999 && YearOf(Day(LIFETIME_END + 1)) == 10000
  {
    YearUnique(Day(LIFETIME_END), 9999);
    YearUnique(Day(LIFETIME_END + 1), 10000);
  }

  // Every time of the years 1970 to 9999 is regular and in the lifetime bucket.
  lemma {:induction false} ModernTimes(t: int)
    requires 0 <= t <= LIFETIME_END
    ensures Regular(t) && Within(t, BucketFor(t, Lifetime)) && 1970 <= YearOf(Day(t)) <= 9999
  {
    DayBounds(t);
    ModernYears(Day(t));
  }

  lemma {:induction false} ModernYears(d: int)
    requires 0 <= d < DayFromYear(10000)
    ensures 1970 <= YearOf(d) <= 9999
  {
    YearFound(d);
    if YearOf(d) < 1970 {
      YearsIncrease(YearOf(d) + 1, 1970);
    } else if YearOf(d) > 9999 {
      YearsIncrease(10000, YearOf(d));
    }
  }
}
