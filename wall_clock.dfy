/**
 Aware wall-clock times with a fixed UTC offset, as Python's `datetime` with a
 `timezone` tzinfo: conversion to another zone (`astimezone`, which
 `datetime.now(tz)` performs on the current UTC time), calendar-day shifts
 (`± timedelta(days=n)`, which move the local date and keep the zone),
 `replace(hour=0, minute=0, second=0)` and the `"%Y-%m-%d %H:%M:%S"` rendering.
 */
module WallClock {
  import opened Calendar
  import opened Text

  const SecondsPerDay := 86400

  type Hour = h: int | 0 <= h < 24
  type Minute = m: int | 0 <= m < 60
  type Second = s: int | 0 <= s < 60
  type Microsecond = u: int | 0 <= u < 1000000

  /** A fixed UTC offset in seconds; Python's `timezone` requires it to lie strictly within one day. */
  type Offset = o: int | -SecondsPerDay < o < SecondsPerDay

  datatype WallTime = WallTime(
    date: Date,
    hour: Hour,
    minute: Minute,
    second: Second,
    microsecond: Microsecond,
    utcOffset: Offset)

  /** Seconds elapsed since local midnight, ignoring microseconds. */
  function SecondOfDay(t: WallTime): (n: int)
    ensures 0 <= n < SecondsPerDay
  {
    t.hour * 3600 + t.minute * 60 + t.second
  }

  /** The time of day `n` seconds after midnight. */
  function TimeOfDay(n: int): (hms: (Hour, Minute, Second))
    requires 0 <= n < SecondsPerDay
    ensures hms.0 * 3600 + hms.1 * 60 + hms.2 == n
  {
    (n / 3600, n % 3600 / 60, n % 60)
  }

  /**
   `a` and `b` name the same instant: `b`'s date is some `q` days after `a`'s,
   and `q` days plus `b`'s time of day, taken back to UTC, is `a`'s time of
   day taken back to UTC.
   */
  ghost predicate SameInstant(a: WallTime, b: WallTime) {
    && a.microsecond == b.microsecond
    && exists q :: b.date == ShiftDays(a.date, q)
         && q * SecondsPerDay + SecondOfDay(b) - b.utcOffset == SecondOfDay(a) - a.utcOffset
  }

  lemma SameInstantWitness(a: WallTime, b: WallTime, q: int)
    requires a.microsecond == b.microsecond && b.date == ShiftDays(a.date, q)
    requires q * SecondsPerDay + SecondOfDay(b) - b.utcOffset == SecondOfDay(a) - a.utcOffset
    ensures SameInstant(a, b)
  {
  }

  /**
   The same instant as `t`, read on the wall clock of the zone with offset `z`:
   the local time moves by the difference of the offsets, carrying into the date.
   */
  function AsZone(t: WallTime, z: Offset): (r: WallTime)
    ensures r.utcOffset == z && SameInstant(t, r)
    ensures z == t.utcOffset ==> r == t
  {
    var n := SecondOfDay(t) - t.utcOffset + z;
    var q, rem := n / SecondsPerDay, n % SecondsPerDay;
    assert n == q * SecondsPerDay + rem;
    var hms := TimeOfDay(rem);
    var r := WallTime(ShiftDays(t.date, q), hms.0, hms.1, hms.2, t.microsecond, z);
    assert SecondOfDay(r) == rem;
    SameInstantWitness(t, r, q);
    r
  }

  /** Floor division and remainder by a day are determined by the remainder's range. */
  lemma DayDivision(x: int, q: int, r: int)
    requires x == q * SecondsPerDay + r && 0 <= r < SecondsPerDay
    ensures x / SecondsPerDay == q && x % SecondsPerDay == r
  {
  }

  /** Converting to another zone and back gives the original wall-clock time. */
  lemma AsZoneRoundTrip(t: WallTime, z: Offset)
    ensures AsZone(AsZone(t, z), t.utcOffset) == t
  {
    var n := SecondOfDay(t) - t.utcOffset + z;
    var carry, rem := n / SecondsPerDay, n % SecondsPerDay;
    var u := AsZone(t, z);
    assert SecondOfDay(u) == rem;
    var m := SecondOfDay(u) - z + t.utcOffset;
    DayDivision(m, -carry, SecondOfDay(t));
    ShiftDaysInverse(t.date, carry);
  }

  /** `t + timedelta(days=n)` on an aware time: the local date moves, nothing else does. */
  function ShiftBy(t: WallTime, n: int): (r: WallTime)
    ensures ShiftDays(r.date, -n) == t.date
    ensures (r.hour, r.minute, r.second, r.microsecond, r.utcOffset)
         == (t.hour, t.minute, t.second, t.microsecond, t.utcOffset)
  {
    ShiftDaysInverse(t.date, n);
    t.(date := ShiftDays(t.date, n))
  }

  /** `t.replace(hour=0, minute=0, second=0)`: microseconds and the zone are kept. */
  function ZeroHourMinuteSecond(t: WallTime): (r: WallTime)
    ensures r.hour == 0 && r.minute == 0 && r.second == 0
    ensures r.date == t.date && r.microsecond == t.microsecond && r.utcOffset == t.utcOffset
  {
    t.(hour := 0, minute := 0, second := 0)
  }

  /** The years whose `%Y` field is four digits wide without padding. */
  predicate FourDigitYear(t: WallTime) {
    1000 <= t.date.year <= 9999
  }

  /** `t.strftime("%Y-%m-%d %H:%M:%S")`: local fields only, the zone is not shown. */
  function DateTimeText(t: WallTime): (s: string)
    requires FourDigitYear(t)
    ensures |s| == 19
  {
    Digits(t.date.year, 4) + "-" + Digits(t.date.month, 2) + "-" + Digits(t.date.day, 2) + " "
      + Digits(t.hour, 2) + ":" + Digits(t.minute, 2) + ":" + Digits(t.second, 2)
  }

  /** The rendering has its separators in place and every field reads back as the time's own. */
  lemma DateTimeTextFields(t: WallTime)
    requires FourDigitYear(t)
    ensures var s := DateTimeText(t);
      && s[4] == '-' && s[7] == '-' && s[10] == ' ' && s[13] == ':' && s[16] == ':'
      && ParseDigits(s[0..4]) == t.date.year
      && ParseDigits(s[5..7]) == t.date.month
      && ParseDigits(s[8..10]) == t.date.day
      && ParseDigits(s[11..13]) == t.hour
      && ParseDigits(s[14..16]) == t.minute
      && ParseDigits(s[17..19]) == t.second
  {
    var s := DateTimeText(t);
    assert s[0..4] == Digits(t.date.year, 4);
    assert s[5..7] == Digits(t.date.month, 2);
    assert s[8..10] == Digits(t.date.day, 2);
    assert s[11..13] == Digits(t.hour, 2);
    assert s[14..16] == Digits(t.minute, 2);
    assert s[17..19] == Digits(t.second, 2);
    DigitsRoundTrip(t.date.year, 4);
    DigitsRoundTrip(t.date.month, 2);
    DigitsRoundTrip(t.date.day, 2);
    DigitsRoundTrip(t.hour, 2);
    DigitsRoundTrip(t.minute, 2);
    DigitsRoundTrip(t.second, 2);
  }
}
