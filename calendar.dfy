/**
 Proleptic Gregorian civil dates, as Python's `date` part of a `datetime`
 sees them, and the calendar-day arithmetic that `± timedelta(days=n)`
 performs on the date of a wall-clock time.
 */
module Calendar {

  predicate IsLeapYear(y: int) {
    y % 4 == 0 && (y % 100 != 0 || y % 400 == 0)
  }

  function DaysInMonth(y: int, m: int): (n: int)
    requires 1 <= m <= 12
    ensures 28 <= n <= 31
    ensures n == 29 <==> m == 2 && IsLeapYear(y)
    ensures n == 28 <==> m == 2 && !IsLeapYear(y)
  {
    if m == 2 then (if IsLeapYear(y) then 29 else 28)
    else if m == 4 || m == 6 || m == 9 || m == 11 then 30
    else 31
  }

  datatype CivilDate = CivilDate(year: int, month: int, day: int)
  {
    predicate Valid() {
      1 <= month <= 12 && 1 <= day <= DaysInMonth(year, month)
    }
  }

  /** A date that exists in the calendar. */
  type Date = d: CivilDate | d.Valid() witness CivilDate(1970, 1, 1)

  /** Chronological order of dates: year, then month, then day. */
  predicate Before(a: CivilDate, b: CivilDate) {
    || a.year < b.year
    || (a.year == b.year && a.month < b.month)
    || (a.year == b.year && a.month == b.month && a.day < b.day)
  }

  lemma BeforeTransitive(a: CivilDate, b: CivilDate, c: CivilDate)
    requires Before(a, b) && Before(b, c)
    ensures Before(a, c)
  {
  }

  /** The calendar day after `d`. */
  function NextDay(d: Date): (e: Date)
    ensures Before(d, e)
  {
    if d.day < DaysInMonth(d.year, d.month) then CivilDate(d.year, d.month, d.day + 1)
    else if d.month < 12 then CivilDate(d.year, d.month + 1, 1)
    else CivilDate(d.year + 1, 1, 1)
  }

  /** The calendar day before `d`. */
  function PrevDay(d: Date): (e: Date)
    ensures Before(e, d)
  {
    if d.day > 1 then CivilDate(d.year, d.month, d.day - 1)
    else if d.month > 1 then CivilDate(d.year, d.month - 1, DaysInMonth(d.year, d.month - 1))
    else CivilDate(d.year - 1, 12, 31)
  }

  /** Stepping forward and back are inverse to each other. */
  lemma NextPrevInverse(d: Date)
    ensures PrevDay(NextDay(d)) == d
    ensures NextDay(PrevDay(d)) == d
  {
  }

  /** No valid date lies strictly between `d` and the day after it. */
  lemma NextDayAdjacent(d: Date, e: Date)
    requires Before(d, e)
    ensures e == NextDay(d) || Before(NextDay(d), e)
  {
  }

  /** No valid date lies strictly between the day before `d` and `d`. */
  lemma PrevDayAdjacent(d: Date, e: Date)
    requires Before(e, d)
    ensures e == PrevDay(d) || Before(e, PrevDay(d))
  {
  }

  /** The magnitude of a day offset; it measures how far `ShiftDays` still has to step. */
  function Abs(n: int): nat {
    if n < 0 then -n else n
  }

  /**
   The date `n` calendar days after `d` (before it when `n` is negative),
   which is what adding `timedelta(days=n)` does to a date.
   */
  function ShiftDays(d: Date, n: int): (e: Date)
    ensures n > 0 ==> Before(d, e)
    ensures n < 0 ==> Before(e, d)
    ensures n == 0 ==> e == d
    decreases Abs(n)
  {
    if n == 0 then d
    else if n > 0 then
      var e := ShiftDays(NextDay(d), n - 1);
      if n > 1 then BeforeTransitive(d, NextDay(d), e); e else e
    else
      var e := ShiftDays(PrevDay(d), n + 1);
      if n < -1 then BeforeTransitive(e, PrevDay(d), d); e else e
  }

  lemma ShiftStepForward(d: Date, n: int)
    ensures ShiftDays(d, n + 1) == ShiftDays(NextDay(d), n)
  {
    if n < 0 {
      NextPrevInverse(d);
    }
  }

  lemma ShiftStepBackward(d: Date, n: int)
    ensures ShiftDays(d, n - 1) == ShiftDays(PrevDay(d), n)
  {
    if n > 0 {
      NextPrevInverse(d);
    }
  }

  /** Shifting by `a` days and then by `b` days is shifting by `a + b` days. */
  lemma {:induction false} ShiftDaysAdd(d: Date, a: int, b: int)
    ensures ShiftDays(ShiftDays(d, a), b) == ShiftDays(d, a + b)
    decreases Abs(a)
  {
    if a > 0 {
      ShiftDaysAdd(NextDay(d), a - 1, b);
      ShiftStepForward(d, a + b - 1);
    } else if a < 0 {
      ShiftDaysAdd(PrevDay(d), a + 1, b);
      ShiftStepBackward(d, a + b + 1);
    }
  }

  /** Each unit of the offset is exactly one calendar day. */
  lemma ShiftDaysStep(d: Date, n: int)
    ensures ShiftDays(d, n + 1) == NextDay(ShiftDays(d, n))
    ensures ShiftDays(d, n - 1) == PrevDay(ShiftDays(d, n))
  {
    ShiftDaysAdd(d, n, 1);
    ShiftDaysAdd(d, n, -1);
  }

  /** Shifting back by the same number of days restores the date. */
  lemma ShiftDaysInverse(d: Date, n: int)
    ensures ShiftDays(ShiftDays(d, n), -n) == d
  {
    ShiftDaysAdd(d, n, -n);
  }

  /** Shifting is strictly increasing in the number of days. */
  lemma ShiftDaysMonotone(d: Date, a: int, b: int)
    requires a < b
    ensures Before(ShiftDays(d, a), ShiftDays(d, b))
  {
    ShiftDaysAdd(d, a, b - a);
  }

  /** The shifted date is before, equal to or after `d` exactly as `n` is negative, zero or positive. */
  lemma ShiftDaysDirection(d: Date, n: int)
    ensures Before(ShiftDays(d, n), d) <==> n < 0
    ensures ShiftDays(d, n) == d <==> n == 0
    ensures Before(d, ShiftDays(d, n)) <==> n > 0
  {
  }
}
