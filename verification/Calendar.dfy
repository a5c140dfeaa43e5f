/**
 Subscription period arithmetic on the proleptic Gregorian calendar.

 A moment is a calendar day plus a time of day in microseconds. Moments are ordered by
 `Instant`, the number of microseconds since the start of year 1.
 */
module Calendar {

  datatype Period = Month | Year

  datatype Date = Date(year: int, month: int, day: int)

  datatype Stamp = Stamp(date: Date, time: int)

  type Moment = m: Stamp | Valid(m) witness Stamp(Date(1, 1, 1), 0)

  const MICROS_PER_DAY := 86_400_000_000

  predicate IsLeap(year: int) {
    year % 4 == 0 && (year % 100 != 0 || year % 400 == 0)
  }

  function MonthLength(year: int, month: int): (days: int)
    ensures 28 <= days <= 31
    ensures month != 2 ==> 30 <= days
  {
    if month == 2 then
      if IsLeap(year) then 29 else 28
    else if month == 4 || month == 6 || month == 9 || month == 11 then 30
    else 31
  }

  predicate ValidDate(d: Date) {
    1 <= d.year && 1 <= d.month <= 12 && 1 <= d.day <= MonthLength(d.year, d.month)
  }

  predicate Valid(m: Stamp) {
    ValidDate(m.date) && 0 <= m.time < MICROS_PER_DAY
  }

  function DaysBeforeYear(year: int): int
    requires 1 <= year
  {
    if year == 1 then 0 else DaysBeforeYear(year - 1) + if IsLeap(year - 1) then 366 else 365
  }

  function DaysBeforeMonth(year: int, month: int): int
    requires 1 <= month <= 12
  {
    if month == 1 then 0 else DaysBeforeMonth(year, month - 1) + MonthLength(year, month - 1)
  }

  /** The day number: 1 January of year 1 is day 1. */
  function Ordinal(d: Date): int
    requires ValidDate(d)
  {
    DaysBeforeYear(d.year) + DaysBeforeMonth(d.year, d.month) + d.day
  }

  function Instant(m: Moment): int
  {
    Ordinal(m.date) * MICROS_PER_DAY + m.time
  }

  lemma FourthYear(n: int)
    ensures n / 4 == (n - 1) / 4 + if n % 4 == 0 then 1 else 0
  {
  }

  lemma Century(n: int)
    ensures n / 100 == (n - 1) / 100 + if n % 100 == 0 then 1 else 0
  {
  }

  lemma FourthCentury(n: int)
    ensures n / 400 == (n - 1) / 400 + if n % 400 == 0 then 1 else 0
    ensures n % 400 == 0 ==> n % 100 == 0
    ensures n % 100 == 0 ==> n % 4 == 0
  {
  }

  function LeapDaysUpTo(year: int): int {
    year / 4 - year / 100 + year / 400
  }

  lemma LeapDayAdded(year: int)
    ensures LeapDaysUpTo(year) == LeapDaysUpTo(year - 1) + if IsLeap(year) then 1 else 0
  {
    FourthYear(year);
    Century(year);
    FourthCentury(year);
  }

  /** Every fourth year is longer by a day, except for three centuries in four. */
  lemma {:induction false} DaysBeforeYearClosed(year: int)
    requires 1 <= year
    ensures DaysBeforeYear(year) == 365 * (year - 1) + LeapDaysUpTo(year - 1)
    decreases year
  {
    if year > 1 {
      DaysBeforeYearClosed(year - 1);
      LeapDayAdded(year - 1);
    }
  }

  /** Lexicographic date order; `OrdinalFollowsDates` ties it to day numbers. */
  predicate DateBefore(a: Date, b: Date) {
    || a.year < b.year
    || (a.year == b.year && a.month < b.month)
    || (a.year == b.year && a.month == b.month && a.day < b.day)
  }

  /** The month a period starting in `d` ends in, as (year, month). */
  function TargetMonth(d: Date, period: Period): (target: (int, int)) {
    match period
    case Year => (d.year + 1, d.month)
    case Month => if d.month + 1 > 12 then (d.year + 1, 1) else (d.year, d.month + 1)
  }

  /** End of a billing period: one calendar month or year later, the day clamped to the month. */
  function PeriodEnd(start: Moment, period: Period): (end: Moment)
    ensures end.time == start.time
  {
    var (year, month) := TargetMonth(start.date, period);
    var length := MonthLength(year, month);
    Stamp(Date(year, month, if start.date.day < length then start.date.day else length), start.time)
  }

  // ---------------------------------------------------------------- day numbers

  lemma MonthTable(year: int)
    ensures DaysBeforeMonth(year, 2) == 31
    ensures var f := MonthLength(year, 2);
            && DaysBeforeMonth(year, 3) == 31 + f && DaysBeforeMonth(year, 4) == 62 + f
            && DaysBeforeMonth(year, 5) == 92 + f && DaysBeforeMonth(year, 6) == 123 + f
            && DaysBeforeMonth(year, 7) == 153 + f && DaysBeforeMonth(year, 8) == 184 + f
            && DaysBeforeMonth(year, 9) == 215 + f && DaysBeforeMonth(year, 10) == 245 + f
            && DaysBeforeMonth(year, 11) == 276 + f && DaysBeforeMonth(year, 12) == 306 + f
  {
    assert DaysBeforeMonth(year, 4) == DaysBeforeMonth(year, 3) + 31;
    assert DaysBeforeMonth(year, 6) == DaysBeforeMonth(year, 5) + 31;
    assert DaysBeforeMonth(year, 8) == DaysBeforeMonth(year, 7) + 31;
    assert DaysBeforeMonth(year, 10) == DaysBeforeMonth(year, 9) + 30;
    assert DaysBeforeMonth(year, 12) == DaysBeforeMonth(year, 11) + 30;
  }

  lemma {:induction false} DaysBeforeYearGrows(a: int, b: int)
    requires 1 <= a < b
    ensures DaysBeforeYear(a) + 365 <= DaysBeforeYear(b)
    decreases b
  {
    if a < b - 1 {
      DaysBeforeYearGrows(a, b - 1);
    }
  }

  /** Day numbers order dates exactly as (year, month, day) does. */
  lemma OrdinalFollowsDates(a: Date, b: Date)
    requires ValidDate(a) && ValidDate(b)
    ensures DateBefore(a, b) <==> Ordinal(a) < Ordinal(b)
    ensures a == b <==> Ordinal(a) == Ordinal(b)
  {
    if DateBefore(a, b) {
      OrdinalGrows(a, b);
    } else if DateBefore(b, a) {
      OrdinalGrows(b, a);
    }
  }

  lemma {:induction false} MonthsGrow(year: int, a: int, b: int)
    requires 1 <= a < b <= 12
    ensures DaysBeforeMonth(year, a) + MonthLength(year, a) <= DaysBeforeMonth(year, b)
  {
    if a < b - 1 {
      MonthsGrow(year, a, b - 1);
    }
  }

  lemma MonthEndsInYear(year: int, month: int)
    requires 1 <= year && 1 <= month <= 12
    ensures 0 <= DaysBeforeMonth(year, month)
    ensures DaysBeforeYear(year) + DaysBeforeMonth(year, month) + MonthLength(year, month) <= DaysBeforeYear(year + 1)
  {
    MonthTable(year);
  }

  lemma OrdinalGrows(a: Date, b: Date)
    requires ValidDate(a) && ValidDate(b) && DateBefore(a, b)
    ensures Ordinal(a) < Ordinal(b)
  {
    if a.year < b.year {
      MonthEndsInYear(a.year, a.month);
      MonthEndsInYear(b.year, b.month);
      if a.year + 1 < b.year {
        DaysBeforeYearGrows(a.year + 1, b.year);
      }
    } else if a.month < b.month {
      MonthsGrow(a.year, a.month, b.month);
    }
  }

  // ---------------------------------------------------------------- period laws

  function PeriodDays(start: Moment, period: Period): int {
    Ordinal(PeriodEnd(start, period).date) - Ordinal(start.date)
  }

  lemma MonthPeriodDays(start: Moment)
    ensures 28 <= PeriodDays(start, Month) <= 31
  {
    if start.date.month == 12 {
      MonthTable(start.date.year);
    }
  }

  lemma {:induction false} MonthShift(year: int, month: int)
    requires 1 <= month <= 12
    ensures DaysBeforeMonth(year + 1, month) - DaysBeforeMonth(year, month)
         == if month <= 2 then 0 else MonthLength(year + 1, 2) - MonthLength(year, 2)
  {
    if month > 1 {
      MonthShift(year, month - 1);
    }
  }

  lemma YearPeriodDays(start: Moment)
    ensures 365 <= PeriodDays(start, Year) <= 366
  {
    var year, month := start.date.year, start.date.month;
    MonthShift(year, month);
    assert DaysBeforeYear(year + 1) == DaysBeforeYear(year) + 337 + MonthLength(year, 2);
    assert month != 2 ==> MonthLength(year + 1, month) == MonthLength(year, month);
  }

  /** A month lasts 28 to 31 days and a year 365 or 366; the time of day is kept. */
  lemma PeriodLength(start: Moment, period: Period)
    ensures period == Month ==> 28 <= PeriodDays(start, period) <= 31
    ensures period == Year ==> 365 <= PeriodDays(start, period) <= 366
    ensures Instant(PeriodEnd(start, period)) == Instant(start) + PeriodDays(start, period) * MICROS_PER_DAY
  {
    match period
    case Month => MonthPeriodDays(start);
    case Year => YearPeriodDays(start);
  }

  lemma PeriodEndIsLater(start: Moment, period: Period)
    ensures Instant(PeriodEnd(start, period)) >= Instant(start) + 28 * MICROS_PER_DAY
  {
    PeriodLength(start, period);
  }

  /** On calendar days the period end is monotone. */
  lemma PeriodEndMonotoneOnDates(a: Moment, b: Moment, period: Period)
    requires Ordinal(a.date) <= Ordinal(b.date)
    ensures Ordinal(PeriodEnd(a, period).date) <= Ordinal(PeriodEnd(b, period).date)
  {
    OrdinalFollowsDates(a.date, b.date);
    OrdinalFollowsDates(PeriodEnd(a, period).date, PeriodEnd(b, period).date);
  }

  /** Two days of one month that both clamp to the last day of the target month. */
  predicate ClampTogether(a: Date, b: Date, period: Period) {
    && a.year == b.year && a.month == b.month && a.day < b.day
    && var (year, month) := TargetMonth(a, period);
       MonthLength(year, month) <= a.day
  }

  /**
   With the time of day the period end is monotone exactly when the two moments are not a pair
   of clamped days whose earlier day has the later time.
   */
  lemma PeriodEndMonotoneExactly(a: Moment, b: Moment, period: Period)
    requires Instant(a) <= Instant(b)
    ensures Instant(PeriodEnd(a, period)) <= Instant(PeriodEnd(b, period))
            <==> !(ClampTogether(a.date, b.date, period) && b.time < a.time)
  {
    OrdinalFollowsDates(a.date, b.date);
    OrdinalFollowsDates(PeriodEnd(a, period).date, PeriodEnd(b, period).date);
  }

  /** 30 January 12:00 is before 31 January 10:00, but its period ends after. */
  lemma PeriodEndNotMonotone()
    ensures var a: Stamp := Stamp(Date(2026, 1, 30), 43_200_000_000);
            var b: Stamp := Stamp(Date(2026, 1, 31), 36_000_000_000);
            && Valid(a) && Valid(b) && Instant(a) < Instant(b)
            && Instant(PeriodEnd(b, Month)) < Instant(PeriodEnd(a, Month))
  {
  }

  function MonthSteps(start: Moment, n: nat): (end: Moment)
  {
    if n == 0 then start else PeriodEnd(MonthSteps(start, n - 1), Month)
  }

  /** The length of the February that twelve month steps from `d` pass through. */
  function FebruaryAhead(d: Date): int {
    MonthLength(if d.month == 1 then d.year else d.year + 1, 2)
  }

  /** The month reached from `d` after `n` steps. */
  function StepYear(d: Date, n: nat): int
    requires d.month + n <= 24
  {
    if d.month + n <= 12 then d.year else d.year + 1
  }

  function StepMonth(d: Date, n: nat): int
    requires d.month + n <= 24
  {
    if d.month + n <= 12 then d.month + n else d.month + n - 12
  }

  /** Month stepping keeps the day down to 30, until February clamps it for good. */
  lemma {:induction false} MonthStepsShape(start: Moment, n: nat)
    requires n <= 12
    ensures var e := MonthSteps(start, n);
            var day, february := start.date.day, FebruaryAhead(start.date);
            && e.time == start.time
            && e.date.year == StepYear(start.date, n) && e.date.month == StepMonth(start.date, n)
            && if n >= (if start.date.month == 1 then 1 else 14 - start.date.month) then
                 e.date.day == if day < february then day else february
               else
                 (day <= 30 || 30 <= e.date.day) && e.date.day <= day && (day <= 30 ==> e.date.day == day)
  {
    if n > 0 {
      MonthStepsShape(start, n - 1);
    }
  }

  /** Twelve month steps are one year step unless a shorter February lies in between. */
  lemma {:induction false} TwelveMonthsAreAYear(start: Moment)
    ensures MonthSteps(start, 12) == PeriodEnd(start, Year)
            <==> start.date.day <= FebruaryAhead(start.date) || start.date.month == 2
  {
    MonthStepsShape(start, 12);
  }

  // ---------------------------------------------------------------- rolling forward

  /** The end of the `n`-th further period after one that ends at `end`. */
  function Iterate(end: Moment, period: Period, n: nat): (m: Moment)
    decreases n
  {
    if n == 0 then end else Iterate(PeriodEnd(end, period), period, n - 1)
  }

  predicate Ended(end: Moment, now: Moment) {
    Instant(end) <= Instant(now)
  }

  /** How many periods to skip until one ends after `now`: the least such number. */
  function PeriodsToSkip(end: Moment, now: Moment, period: Period): (n: nat)
    ensures !Ended(Iterate(end, period, n), now)
    ensures n > 0 ==> Ended(Iterate(end, period, n - 1), now)
    decreases Instant(now) - Instant(end)
  {
    if Ended(end, now) then
      PeriodEndIsLater(end, period);
      PeriodsToSkip(PeriodEnd(end, period), now, period) + 1
    else
      0
  }

  /** The current period [start, end) of a plan that never lapses. */
  function RollForward(start: Moment, end: Moment, now: Moment, period: Period): (r: (Moment, Moment)) {
    var n := PeriodsToSkip(end, now, period);
    (if n == 0 then start else Iterate(end, period, n - 1), Iterate(end, period, n))
  }

  lemma SkipsWhileEnded(end: Moment, now: Moment, period: Period)
    ensures PeriodsToSkip(end, now, period) > 0 <==> Ended(end, now)
  {
  }

  /** Rolling forward lands in the period that contains `now`. */
  lemma RollForwardContainsNow(start: Moment, end: Moment, now: Moment, period: Period)
    requires Ended(end, now)
    ensures var (s, e) := RollForward(start, end, now, period);
            Ended(s, now) && !Ended(e, now) && e == PeriodEnd(s, period)
  {
    var n := PeriodsToSkip(end, now, period);
    SkipsWhileEnded(end, now, period);
    IterateBack(end, period, n);
    var s, e := Iterate(end, period, n - 1), Iterate(end, period, n);
    assert RollForward(start, end, now, period) == (s, e);
  }

  lemma {:induction false} IterateBack(end: Moment, period: Period, n: nat)
    requires n > 0
    ensures Iterate(end, period, n) == PeriodEnd(Iterate(end, period, n - 1), period)
    decreases n
  {
    if n > 1 {
      IterateBack(PeriodEnd(end, period), period, n - 1);
    }
  }

  /** One turn of the roll-forward loop. */
  lemma RollForwardStep(start: Moment, end: Moment, now: Moment, period: Period)
    ensures !Ended(end, now) ==> RollForward(start, end, now, period) == (start, end)
    ensures Ended(end, now) ==>
              && RollForward(start, end, now, period) == RollForward(end, PeriodEnd(end, period), now, period)
              && PeriodsToSkip(PeriodEnd(end, period), now, period) < PeriodsToSkip(end, now, period)
  {
  }
}
