/**
 * The calendar arithmetic behind `new Date(year, monthIndex)` and `getTime()`,
 * as the risk engine and the stop-date guard use it: every date they build is
 * day 1 of a month, taken here at 00:00 UTC on the proleptic Gregorian calendar.
 */
module Calendar {

  /** Milliseconds in one day. */
  const MsPerDay: nat := 86_400_000

  /** The engine's fixed "month" of 30 days, in milliseconds. */
  const MsPerMonth: nat := 30 * MsPerDay

  predicate IsLeapYear(y: int) {
    y % 4 == 0 && (y % 100 != 0 || y % 400 == 0)
  }

  function DaysInYear(y: int): nat {
    if IsLeapYear(y) then 366 else 365
  }

  function DaysInMonth(y: int, m: int): (n: nat)
    requires 1 <= m <= 12
    ensures 28 <= n <= 31
  {
    if m == 2 then (if IsLeapYear(y) then 29 else 28)
    else if m == 4 || m == 6 || m == 9 || m == 11 then 30
    else 31
  }

  /** Leap years before year y, counted from a fixed origin; `/` is floor division, so this holds for every integer year. */
  function LeapYearsBefore(y: int): int {
    (y - 1) / 4 - (y - 1) / 100 + (y - 1) / 400
  }

  /** Days from 1970-01-01 to January 1 of year y (negative before 1970). */
  function DaysBeforeYear(y: int): int {
    365 * (y - 1970) + LeapYearsBefore(y) - LeapYearsBefore(1970)
  }

  /** Days from January 1 to day 1 of month m, within year y. */
  function DaysBeforeMonth(y: int, m: int): nat
    requires 1 <= m <= 12
  {
    var common :=
      if m == 1 then 0 else if m == 2 then 31 else if m == 3 then 59
      else if m == 4 then 90 else if m == 5 then 120 else if m == 6 then 151
      else if m == 7 then 181 else if m == 8 then 212 else if m == 9 then 243
      else if m == 10 then 273 else if m == 11 then 304 else 334;
    if IsLeapYear(y) && m > 2 then common + 1 else common
  }

  /** Days from 1970-01-01 to day 1 of month m (1..12) of year y. */
  function DaysFromCivil(y: int, m: int): int
    requires 1 <= m <= 12
  {
    DaysBeforeYear(y) + DaysBeforeMonth(y, m)
  }

  /** The two-argument Date constructor reads years 0..99 as 1900..1999. */
  function FullYear(y: int): int {
    if 0 <= y <= 99 then 1900 + y else y
  }

  /**
   * The month that `new Date(y, m - 1)` denotes, counted in months from
   * January of year 0. A month outside 1..12 carries into the year, as the
   * Date constructor does.
   */
  function MonthIndex(y: int, m: int): int {
    FullYear(y) * 12 + (m - 1)
  }

  /** Days from 1970-01-01 to day 1 of the month with index k. */
  function MonthStartDays(k: int): int {
    DaysFromCivil(k / 12, k % 12 + 1)
  }

  /**
   * `new Date(y, m - 1).getTime()`: midnight of day 1 of that month, in ms
   * since the epoch. A month beyond 1..12 moves the year by whole years.
   */
  function DateMs(y: int, m: int): (ms: int)
    ensures ms % MsPerDay == 0
    ensures 1 <= m <= 12 ==> ms == DaysFromCivil(FullYear(y), m) * MsPerDay
  {
    var days := MonthStartDays(MonthIndex(y, m));
    NormalizedMonth(y, m);
    WholeDays(days);
    days * MsPerDay
  }

  /** The month `new Date(y, m - 1)` lands on, as a calendar year and a month 1..12. */
  lemma NormalizedMonth(y: int, m: int)
    ensures MonthStartDays(MonthIndex(y, m)) == DaysFromCivil(FullYear(y) + (m - 1) / 12, (m - 1) % 12 + 1)
    ensures 1 <= m <= 12 ==> MonthStartDays(MonthIndex(y, m)) == DaysFromCivil(FullYear(y), m)
  {
    var k := MonthIndex(y, m);
    WholeYearsShift(FullYear(y), m - 1);
    assert k / 12 == FullYear(y) + (m - 1) / 12 && k % 12 + 1 == (m - 1) % 12 + 1;
  }

  /** Adding whole years to a month count moves only its year part. */
  lemma WholeYearsShift(years: int, months: int)
    ensures (years * 12 + months) / 12 == years + months / 12
    ensures (years * 12 + months) % 12 == months % 12
    ensures 0 <= months < 12 ==> months / 12 == 0 && months % 12 == months
  {
    var q, r := months / 12, months % 12;
    assert years * 12 + months == (years + q) * 12 + r;
  }

  /** A whole number of days is a multiple of a day in milliseconds. */
  lemma WholeDays(days: int)
    ensures (days * MsPerDay) % MsPerDay == 0
  {
  }

  /** The epoch is day 0. */
  lemma EpochIsDayZero()
    ensures DaysFromCivil(1970, 1) == 0
    ensures DateMs(1970, 1) == 0
  {
  }

  /** Day numbers of a few month starts used in worked examples. */
  lemma KnownMonthStarts()
    ensures DaysFromCivil(2020, 1) == 18262
    ensures DaysFromCivil(2021, 1) == 18628
    ensures DaysFromCivil(2021, 2) == 18659
    ensures DaysFromCivil(2021, 4) == 18718
    ensures DaysFromCivil(2021, 5) == 18748
    ensures DaysFromCivil(2022, 1) == 18993
    ensures DaysFromCivil(2023, 1) == 19358
    ensures DaysFromCivil(2023, 6) == 19509
    ensures DaysFromCivil(2023, 8) == 19570
  {
  }

  /** Consecutive Januaries are one year length apart. */
  lemma YearLength(y: int)
    ensures DaysBeforeYear(y + 1) - DaysBeforeYear(y) == DaysInYear(y)
  {
    FloorStep(y, 4);
    FloorStep(y, 100);
    FloorStep(y, 400);
    DivisorsOfCenturies(y);
    var leap := (y / 4 - (y - 1) / 4) - (y / 100 - (y - 1) / 100) + (y / 400 - (y - 1) / 400);
    assert LeapYearsBefore(y + 1) - LeapYearsBefore(y) == leap;
    assert leap == (if IsLeapYear(y) then 1 else 0);
  }

  /** A multiple of 400 is a multiple of 100, and a multiple of 100 is a multiple of 4. */
  lemma DivisorsOfCenturies(y: int)
    ensures y % 400 == 0 ==> y % 100 == 0
    ensures y % 100 == 0 ==> y % 4 == 0
  {
    if y % 400 == 0 {
      var k := y / 400;
      assert y == 400 * k;
      assert y / 100 == 4 * k;
    }
    if y % 100 == 0 {
      var k := y / 100;
      assert y == 100 * k;
      assert y / 4 == 25 * k;
    }
  }

  /** Counting multiples of d (4, 100 or 400): stepping from y - 1 to y adds one exactly when d divides y. */
  lemma FloorStep(y: int, d: int)
    requires d == 4 || d == 100 || d == 400
    ensures y / d - (y - 1) / d == (if y % d == 0 then 1 else 0)
  {
    if d == 4 {
      assert y / 4 - (y - 1) / 4 == (if y % 4 == 0 then 1 else 0);
    } else if d == 100 {
      assert y / 100 - (y - 1) / 100 == (if y % 100 == 0 then 1 else 0);
    } else {
      assert y / 400 - (y - 1) / 400 == (if y % 400 == 0 then 1 else 0);
    }
  }

  /** Consecutive month starts are exactly one month length apart, across year ends too. */
  lemma MonthLength(k: int)
    ensures MonthStartDays(k + 1) - MonthStartDays(k) == DaysInMonth(k / 12, k % 12 + 1)
  {
    if k % 12 == 11 {
      assert (k + 1) / 12 == k / 12 + 1 && (k + 1) % 12 == 0;
      YearLength(k / 12);
    } else {
      assert (k + 1) / 12 == k / 12 && (k + 1) % 12 == k % 12 + 1;
    }
  }

  /** Month starts strictly increase: n months span between 28·n and 31·n days. */
  lemma {:induction false} MonthStartsIncrease(i: int, j: int)
    requires i <= j
    ensures 28 * (j - i) <= MonthStartDays(j) - MonthStartDays(i) <= 31 * (j - i)
    decreases j - i
  {
    if i < j {
      MonthStartsIncrease(i, j - 1);
      MonthLength(j - 1);
    }
  }

  /** Comparing the two instants is comparing the two months. */
  lemma DateOrder(y1: int, m1: int, y2: int, m2: int)
    ensures DateMs(y1, m1) < DateMs(y2, m2) <==> MonthIndex(y1, m1) < MonthIndex(y2, m2)
    ensures DateMs(y1, m1) == DateMs(y2, m2) <==> MonthIndex(y1, m1) == MonthIndex(y2, m2)
  {
    var i, j := MonthIndex(y1, m1), MonthIndex(y2, m2);
    if i <= j {
      MonthStartsIncrease(i, j);
    } else {
      MonthStartsIncrease(j, i);
    }
  }

  /** For months written 1..12, the month order is the lexicographic (year, month) order. */
  lemma MonthIndexIsLexicographic(y1: int, m1: int, y2: int, m2: int)
    requires 1 <= m1 <= 12 && 1 <= m2 <= 12
    ensures MonthIndex(y1, m1) < MonthIndex(y2, m2)
        <==> FullYear(y1) < FullYear(y2) || (FullYear(y1) == FullYear(y2) && m1 < m2)
  {
  }
}
