/** Due dates on the Gregorian calendar. Months count from 0 and weekdays from Sunday, as
    the Date object does; a moment is a local date and the milliseconds since midnight. */
module Scheduler {
  import opened Seqs
  import opened Tables

  const DAY_MILLIS := 86_400_000

  predicate Leap(y: int) { y % 4 == 0 && (y % 100 != 0 || y % 400 == 0) }

  function MonthLength(y: int, m: int): int
    requires 0 <= m <= 11
  {
    if m == 1 then (if Leap(y) then 29 else 28)
    else if m == 3 || m == 5 || m == 8 || m == 10 then 30
    else 31
  }

  datatype Date = Date(year: int, month: int, day: int) {
    predicate Valid() {
      1 <= year && 0 <= month <= 11 && 1 <= day <= MonthLength(year, month)
    }

    function MonthIndex(): int { 12 * year + month }
  }

  /** A reference moment. Handed a year below 100, the Date constructor reads another century. */
  datatype Moment = Moment(date: Date, millis: int) {
    predicate Valid() { date.Valid() && date.year >= 100 && 0 <= millis < DAY_MILLIS }
  }

  // ---- Day numbers ----

  /** Days before month number `12 * y + m`, counted from 1 January of year 1. */
  function DaysBefore(index: int): int {
    if index <= 12 then 0 else DaysBefore(index - 1) + MonthLength((index - 1) / 12, (index - 1) % 12)
  }

  /** Day 1 is 1 January of year 1, a Monday. */
  function DayNumber(d: Date): int
    requires d.Valid()
  {
    DaysBefore(d.MonthIndex()) + d.day
  }

  function Weekday(d: Date): int
    requires d.Valid()
  {
    DayNumber(d) % 7
  }

  function Instant(d: Date, millis: int): int
    requires d.Valid()
  {
    DayNumber(d) * DAY_MILLIS + millis
  }

  lemma MonthOf(d: Date)
    requires d.Valid()
    ensures d.MonthIndex() / 12 == d.year && d.MonthIndex() % 12 == d.month && d.MonthIndex() >= 12
  {
  }

  lemma {:induction false} MonthsAscend(a: int, b: int)
    requires 12 <= a < b
    ensures DaysBefore(a) + MonthLength(a / 12, a % 12) <= DaysBefore(b)
    decreases b - a
  {
    if a < b - 1 {
      MonthsAscend(a, b - 1);
    }
  }

  /** The day number orders dates as year, month and day do, and tells them apart. */
  lemma DayNumberOrders(d: Date, e: Date)
    requires d.Valid() && e.Valid()
    ensures DayNumber(d) < DayNumber(e) <==>
      d.MonthIndex() < e.MonthIndex() || (d.MonthIndex() == e.MonthIndex() && d.day < e.day)
    ensures DayNumber(d) == DayNumber(e) <==> d == e
  {
    MonthOf(d);
    MonthOf(e);
    if d.MonthIndex() < e.MonthIndex() {
      MonthsAscend(d.MonthIndex(), e.MonthIndex());
    } else if e.MonthIndex() < d.MonthIndex() {
      MonthsAscend(e.MonthIndex(), d.MonthIndex());
    }
  }

  // ---- The calendar, date by date ----

  /** Which days there are: February apart, all months have 30, and seven have 31. */
  lemma {:induction false} LastDays(y: int, m: int)
    requires y >= 1 && 0 <= m <= 11
    ensures !Date(y, m, 0).Valid() && Date(y, m, 1).Valid() && Date(y, m, 28).Valid() && !Date(y, m, 32).Valid()
    ensures Date(y, m, 29).Valid() <==> m != 1 || (y % 4 == 0 && (y % 100 != 0 || y % 400 == 0))
    ensures Date(y, m, 30).Valid() <==> m != 1
    ensures Date(y, m, 31).Valid() <==> m in {0, 2, 4, 6, 7, 9, 11}
  {
  }

  /** The days of a year that come before each of its months. */
  lemma {:induction false} MonthStarts(y: int)
    requires y >= 1
    ensures var start, leap := DaysBefore(12 * y), if Leap(y) then 1 else 0;
      && DaysBefore(12 * y + 1) == start + 31
      && DaysBefore(12 * y + 2) == start + 59 + leap
      && DaysBefore(12 * y + 3) == start + 90 + leap
      && DaysBefore(12 * y + 4) == start + 120 + leap
      && DaysBefore(12 * y + 5) == start + 151 + leap
      && DaysBefore(12 * y + 6) == start + 181 + leap
  {
    MonthNext(y, 0);
    MonthNext(y, 1);
    MonthNext(y, 2);
    MonthNext(y, 3);
    MonthNext(y, 4);
    MonthNext(y, 5);
  }

  lemma {:induction false} LateMonthStarts(y: int)
    requires y >= 1
    ensures var july := DaysBefore(12 * y + 6);
      && DaysBefore(12 * y + 7) == july + 31
      && DaysBefore(12 * y + 8) == july + 62
      && DaysBefore(12 * y + 9) == july + 92
      && DaysBefore(12 * y + 10) == july + 123
      && DaysBefore(12 * y + 11) == july + 153
      && DaysBefore(12 * y + 12) == july + 184
  {
    MonthNext(y, 6);
    MonthNext(y, 7);
    MonthNext(y, 8);
    MonthNext(y, 9);
    MonthNext(y, 10);
    MonthNext(y, 11);
  }

  lemma {:induction false} MonthNext(y: int, m: int)
    requires y >= 1 && 0 <= m <= 11
    ensures DaysBefore(12 * y + m + 1) == DaysBefore(12 * y + m) + MonthLength(y, m)
  {
    assert (12 * y + m) / 12 == y && (12 * y + m) % 12 == m;
  }

  // ---- The same count by the leap-year rule ----

  lemma DivStep(y: int, k: int)
    requires k == 4 || k == 100 || k == 400
    ensures y / k == (y - 1) / k + (if y % k == 0 then 1 else 0)
  {
    if k == 4 {
    } else if k == 100 {
    } else {
    }
  }

  lemma Multiples(y: int)
    ensures y % 100 == 0 ==> y % 4 == 0
    ensures y % 400 == 0 ==> y % 100 == 0
  {
    if y % 100 == 0 {
      var q := 25 * (y / 100);
      assert y == 4 * q;
    }
    if y % 400 == 0 {
      var q := 4 * (y / 400);
      assert y == 100 * q;
    }
  }

  function LeapDays(y: int): int { y / 4 - y / 100 + y / 400 }

  lemma LeapDaysStep(y: int)
    ensures LeapDays(y) == LeapDays(y - 1) + (if Leap(y) then 1 else 0)
  {
    DivStep(y, 4);
    DivStep(y, 100);
    DivStep(y, 400);
    Multiples(y);
  }

  function MonthSum(y: int, m: int): int
    requires 0 <= m <= 12
    decreases m
  {
    if m <= 0 then 0 else MonthSum(y, m - 1) + MonthLength(y, m - 1)
  }

  lemma {:induction false} MonthsWithin(y: int, m: int)
    requires y >= 1 && 0 <= m <= 12
    ensures DaysBefore(12 * y + m) == DaysBefore(12 * y) + MonthSum(y, m)
    decreases m
  {
    if m > 0 {
      MonthsWithin(y, m - 1);
      assert (12 * y + m - 1) / 12 == y && (12 * y + m - 1) % 12 == m - 1;
    }
  }

  lemma MonthsOfYear(y: int)
    ensures MonthSum(y, 5) == MonthLength(y, 1) + 123
    ensures MonthSum(y, 12) == (if Leap(y) then 366 else 365)
  {
    assert MonthSum(y, 3) == MonthLength(y, 1) + 62;
    assert MonthSum(y, 6) == MonthSum(y, 3) + 91;
    assert MonthSum(y, 9) == MonthSum(y, 6) + 92;
  }

  /** Counting month by month agrees with the Gregorian rule of one leap day in four
      years, save centuries not divisible by 400. */
  lemma {:induction false} YearsByRule(y: int)
    requires y >= 1
    ensures DaysBefore(12 * y) == 365 * (y - 1) + LeapDays(y - 1)
    decreases y
  {
    if y > 1 {
      YearsByRule(y - 1);
      MonthsWithin(y - 1, 12);
      MonthsOfYear(y - 1);
      LeapDaysStep(y - 1);
    }
  }

  /** The anchor of the weekdays: 4 June 2026 is a Thursday. */
  lemma KnownThursday(d: Date)
    requires d.Valid() && d.year == 2026 && d.month == 5 && d.day == 4
    ensures Weekday(d) == 4
  {
    YearsByRule(d.year);
    MonthsWithin(d.year, d.month);
    MonthsOfYear(d.year);
    assert LeapDays(d.year - 1) == 491;
    assert DayNumber(d) == 739771;
  }

  // ---- computeDueDate ----

  datatype BillingMode = PerSale | Weekly | Biweekly | Monthly | Custom

  function NextDay(d: Date): (e: Date)
    requires d.Valid()
    ensures e.Valid()
  {
    if d.day < MonthLength(d.year, d.month) then d.(day := d.day + 1)
    else if d.month < 11 then Date(d.year, d.month + 1, 1)
    else Date(d.year + 1, 0, 1)
  }

  /** setDate past the end of a month runs on into the next. */
  function AddDays(d: Date, n: nat): (e: Date)
    requires d.Valid()
    ensures e.Valid() && DayNumber(e) == DayNumber(d) + n
  {
    if n == 0 then d
    else
      var before := AddDays(d, n - 1);
      NextDayCounts(before);
      NextDay(before)
  }

  lemma {:induction false} NextDayCounts(d: Date)
    requires d.Valid()
    ensures DayNumber(NextDay(d)) == DayNumber(d) + 1
  {
    MonthOf(d);
    var index := d.MonthIndex();
    if d.day == MonthLength(d.year, d.month) {
      assert NextDay(d).MonthIndex() == index + 1 && NextDay(d).day == 1;
      assert DaysBefore(index + 1) == DaysBefore(index) + d.day;
    }
  }

  /** The day clamped to the month; day 0 is the last day of the month before. */
  function InMonth(y: int, m: int, day: int): Date
    requires 0 <= m <= 11
  {
    if day > 0 then Date(y, m, Min(day, MonthLength(y, m)))
    else if m > 0 then Date(y, m - 1, MonthLength(y, m - 1))
    else Date(y - 1, 11, 31)
  }

  function MonthlyDue(day: int, reference: Moment): Date
    requires reference.Valid() && 0 <= day <= 31
  {
    var year, month := reference.date.year, reference.date.month;
    var candidate := InMonth(year, month, day);
    if Instant(candidate, 0) > Instant(reference.date, reference.millis) then candidate
    else if month + 1 > 11 then InMonth(year + 1, 0, day)
    else InMonth(year, month + 1, day)
  }

  /** Always the next occurrence, never today; `target` is a weekday, or a day of the month
      kept from another mode. */
  function DaysUntil(target: int, current: int): (n: int)
    requires 0 <= target <= 31 && 0 <= current <= 6
    ensures 1 <= n <= 7
  {
    var ahead := (target - current + 7) % 7;
    if ahead == 0 then 7 else ahead
  }

  function WeeklyDue(target: int, reference: Moment): Date
    requires reference.Valid() && 0 <= target <= 31
  {
    AddDays(reference.date, DaysUntil(target, Weekday(reference.date)))
  }

  /** The billing days a customer can hold. Creating one checks the day against its mode;
      an update that names a day but no mode checks only the range, and one that names a
      mode but no day keeps the stored day. */
  predicate DayStored(billingDay: Option<int>) {
    billingDay.Some? ==> 0 <= billingDay.value <= 31
  }

  /** The due date, at midnight; none when the seller sets it by hand. */
  function ComputeDueDate(mode: BillingMode, billingDay: Option<int>, reference: Moment): Option<Date>
    requires reference.Valid() && DayStored(billingDay)
  {
    match mode
    case PerSale => Some(reference.date)
    case Weekly => Some(WeeklyDue(billingDay.GetOr(1), reference))
    case Biweekly => Some(AddDays(reference.date, 14))
    case Monthly => Some(MonthlyDue(billingDay.GetOr(5), reference))
    case Custom => None
  }

  // ---- What the schedule promises ----

  predicate IsBillingDay(d: Date, day: int) {
    d.Valid() && d.day == Min(day, MonthLength(d.year, d.month))
  }

  predicate LaterThan(d: Date, reference: Moment)
    requires d.Valid() && reference.Valid()
  {
    Instant(d, 0) > Instant(reference.date, reference.millis)
  }

  lemma LaterIsNextDay(d: Date, reference: Moment)
    requires d.Valid() && reference.Valid()
    ensures LaterThan(d, reference) <==> DayNumber(d) > DayNumber(reference.date)
  {
  }

  /** The month the code picks: the reference's own, or the one after it. */
  lemma {:induction false} MonthlyDueMonth(day: int, reference: Moment)
    requires reference.Valid() && 1 <= day <= 31
    ensures var due, own := MonthlyDue(day, reference), InMonth(reference.date.year, reference.date.month, day);
      && IsBillingDay(due, day) && own.Valid()
      && due.MonthIndex() == reference.date.MonthIndex() + (if LaterThan(own, reference) then 0 else 1)
      && (LaterThan(own, reference) <==> own.day > reference.date.day)
  {
    var own := InMonth(reference.date.year, reference.date.month, day);
    LaterIsNextDay(own, reference);
    DayNumberOrders(reference.date, own);
  }

  lemma {:induction false} MonthlyDueAhead(day: int, reference: Moment)
    requires reference.Valid() && 1 <= day <= 31
    ensures var due := MonthlyDue(day, reference);
      due.Valid() && 1 <= DayNumber(due) - DayNumber(reference.date) <= 31
  {
    var due, today := MonthlyDue(day, reference), reference.date;
    var own := InMonth(today.year, today.month, day);
    MonthlyDueMonth(day, reference);
    if LaterThan(own, reference) {
      assert due == own;
    } else {
      NextMonthAhead(today, own, due);
    }
  }

  /** From a day on or after `d` in its month to a day of the next. */
  lemma {:induction false} NextMonthAhead(today: Date, d: Date, due: Date)
    requires today.Valid() && d.Valid() && due.Valid()
    requires d.MonthIndex() == today.MonthIndex() && due.MonthIndex() == today.MonthIndex() + 1
    requires d.day <= today.day && (due.day <= d.day || d.day == MonthLength(today.year, today.month))
    ensures 1 <= DayNumber(due) - DayNumber(today) <= 31
  {
    MonthNext(today.year, today.month);
    var before, length := DaysBefore(today.MonthIndex()), MonthLength(today.year, today.month);
    assert DayNumber(due) == before + length + due.day && DayNumber(today) == before + today.day;
  }

  lemma {:induction false} MonthlyDueBefore(day: int, reference: Moment, e: Date)
    requires reference.Valid() && 1 <= day <= 31 && IsBillingDay(e, day) && LaterThan(e, reference)
    ensures var due := MonthlyDue(day, reference); due.Valid() && DayNumber(due) <= DayNumber(e)
  {
    var due := MonthlyDue(day, reference);
    MonthlyDueMonth(day, reference);
    LaterIsNextDay(e, reference);
    DayNumberOrders(reference.date, e);
    DayNumberOrders(e, due);
    MonthOf(e);
    MonthOf(due);
    MonthOf(reference.date);
  }

  /** The monthly due date is the first midnight after the reference on a billing day,
      1 to 31 days ahead. */
  lemma {:induction false} MonthlyDueIsEarliest(day: int, reference: Moment)
    requires reference.Valid() && 1 <= day <= 31
    ensures var due := MonthlyDue(day, reference);
      && IsBillingDay(due, day) && LaterThan(due, reference)
      && (forall e: Date :: IsBillingDay(e, day) && LaterThan(e, reference) ==> DayNumber(due) <= DayNumber(e))
      && 1 <= DayNumber(due) - DayNumber(reference.date) <= 31
  {
    MonthlyDueMonth(day, reference);
    MonthlyDueAhead(day, reference);
    LaterIsNextDay(MonthlyDue(day, reference), reference);
    forall e: Date | IsBillingDay(e, day) && LaterThan(e, reference)
      ensures DayNumber(MonthlyDue(day, reference)) <= DayNumber(e)
    {
      MonthlyDueBefore(day, reference, e);
    }
  }

  /** Feeding each due date back in, the n-th one. */
  function Iterate(day: int, first: Date, n: nat): (d: Date)
    requires IsBillingDay(first, day) && first.year >= 100 && 1 <= day <= 31
    ensures IsBillingDay(d, day) && d.year >= 100
  {
    if n == 0 then first
    else
      var d := Iterate(day, first, n - 1);
      MonthlyDueMonth(day, Moment(d, 0));
      MonthlyDue(day, Moment(d, 0))
  }

  /** No month is skipped or repeated, and a short month does not shift later ones: the
      n-th due date is the billing day of the n-th month on. */
  lemma {:induction false} MonthlyNeverDrifts(day: int, first: Date, n: nat)
    requires IsBillingDay(first, day) && first.year >= 100 && 1 <= day <= 31
    ensures var d := Iterate(day, first, n);
      d.MonthIndex() == first.MonthIndex() + n && d == InMonth(d.year, d.month, day)
  {
    if n > 0 {
      MonthlyNeverDrifts(day, first, n - 1);
      MonthlyDueMonth(day, Moment(Iterate(day, first, n - 1), 0));
    }
  }

  /** A monthly customer left with day 0 gets the last day of the reference's own month. On
      that day it is not later, and feeding it back in never leaves it. */
  lemma {:induction false} MonthlyDayZero(reference: Moment)
    requires reference.Valid()
    ensures var due, today := MonthlyDue(0, reference), reference.date;
      && due == LastOfMonth(today)
      && DayNumber(due) - DayNumber(today) == due.day - today.day
      && (LaterThan(due, reference) <==> today.day < due.day)
      && MonthlyDue(0, Moment(due, reference.millis)) == due
  {
    var due := LastOfMonth(reference.date);
    DayZeroDue(reference, due);
    LastOfMonthLater(reference, due);
    DayZeroDue(Moment(due, reference.millis), due);
  }

  lemma {:induction false} LastOfMonthLater(reference: Moment, due: Date)
    requires reference.Valid() && due == LastOfMonth(reference.date)
    ensures due.Valid() && DayNumber(due) - DayNumber(reference.date) == due.day - reference.date.day
    ensures LaterThan(due, reference) <==> reference.date.day < due.day
  {
    LaterIsNextDay(due, reference);
  }

  function LastOfMonth(d: Date): Date
    requires d.Valid()
  {
    d.(day := MonthLength(d.year, d.month))
  }

  lemma {:induction false} DayZeroDue(reference: Moment, due: Date)
    requires reference.Valid() && due == LastOfMonth(reference.date)
    ensures MonthlyDue(0, reference) == due
  {
    LastOfMonthBefore(reference);
  }

  lemma {:induction false} LastOfMonthBefore(reference: Moment)
    requires reference.Valid()
    ensures var d := InMonth(reference.date.year, reference.date.month, 0);
      d.Valid() && !LaterThan(d, reference)
  {
    var d := InMonth(reference.date.year, reference.date.month, 0);
    DayNumberOrders(d, reference.date);
    LaterIsNextDay(d, reference);
  }

  /** The weekly due date is the first strictly later date on the weekday that `target` is
      modulo seven, 1 to 7 days ahead. */
  lemma {:induction false} WeeklyDueIsEarliest(target: int, reference: Moment)
    requires reference.Valid() && 0 <= target <= 31
    ensures var due := WeeklyDue(target, reference);
      && due.Valid() && Weekday(due) == target % 7 && LaterThan(due, reference)
      && (forall e: Date :: e.Valid() && Weekday(e) == target % 7 && DayNumber(e) > DayNumber(reference.date)
            ==> DayNumber(due) <= DayNumber(e))
      && 1 <= DayNumber(due) - DayNumber(reference.date) <= 7
  {
    var today := DayNumber(reference.date);
    LaterIsNextDay(WeeklyDue(target, reference), reference);
    WeekdayAhead(target, today);
    forall e: Date | e.Valid() && Weekday(e) == target % 7 && DayNumber(e) > today
      ensures DayNumber(WeeklyDue(target, reference)) <= DayNumber(e)
    {
      WeekdayNotBetween(target, today, DayNumber(e));
    }
  }

  lemma WeekdayAhead(target: int, today: int)
    requires 0 <= target <= 31
    ensures 1 <= DaysUntil(target, today % 7) <= 7
    ensures (today + DaysUntil(target, today % 7)) % 7 == target % 7
  {
  }

  lemma WeekdayNotBetween(target: int, today: int, later: int)
    requires 0 <= target <= 31 && later > today && later % 7 == target % 7
    ensures today + DaysUntil(target, today % 7) <= later
  {
    WeekdayAhead(target, today);
    var gap := today + DaysUntil(target, today % 7) - later;
    assert gap % 7 == 0;
  }

  /** Every mode with every day a customer can hold: the sale day, the fortnight, the
      weekday or billing day with their defaults, and the last of the month for day 0. */
  lemma {:induction false} DueDateByMode(mode: BillingMode, billingDay: Option<int>, reference: Moment)
    requires reference.Valid() && DayStored(billingDay)
    ensures var due := ComputeDueDate(mode, billingDay, reference);
      && (due.None? <==> mode == Custom)
      && (due.Some? ==>
            && due.value.Valid()
            && var ahead := DayNumber(due.value) - DayNumber(reference.date);
            && (mode == PerSale ==> ahead == 0) && (mode == Biweekly ==> ahead == 14)
            && (mode == Weekly ==> 1 <= ahead <= 7 && Weekday(due.value) == billingDay.GetOr(1) % 7)
            && (mode == Monthly && billingDay != Some(0) ==>
                  1 <= ahead <= 31 && IsBillingDay(due.value, billingDay.GetOr(5)))
            && (mode == Monthly && billingDay == Some(0) ==>
                  0 <= ahead <= 30 && IsBillingDay(due.value, 31)))
  {
    if mode == Weekly {
      WeeklyDueIsEarliest(billingDay.GetOr(1), reference);
    } else if mode == Monthly && billingDay == Some(0) {
      MonthlyDayZero(reference);
    } else if mode == Monthly {
      MonthlyDueIsEarliest(billingDay.GetOr(5), reference);
    }
  }
}
