/**
 The UTC calendar behind Smart Recycle: the proleptic Gregorian calendar and ISO
 week dates (section 4.1.4 of ISO 8601:2004). Instants are nanoseconds and days
 are counted from 0001-01-01, which is a Monday.
 */
module Calendar {

  type Instant = int

  const NANOS_PER_HOUR: int := 3_600_000_000_000
  const NANOS_PER_DAY: int := 24 * NANOS_PER_HOUR

  function Day(t: Instant): int {
    t / NANOS_PER_DAY
  }

  // ---------- years and months ----------

  predicate Leap(y: int) {
    y % 4 == 0 && (y % 100 != 0 || y % 400 == 0)
  }

  /** Days before 1 January of year `y`. */
  function DaysBeforeYear(y: int): int {
    var p := y - 1;
    365 * p + p / 4 - p / 100 + p / 400
  }

  /** The year of a day, through the 400-, 100-, 4- and 1-year cycles. */
  function Year(d: int): int {
    var r400 := d % 146097;
    var c := if r400 / 36524 == 4 then 3 else r400 / 36524;
    var r100 := r400 - 36524 * c;
    var r4 := r100 % 1461;
    var k := if r4 / 365 == 4 then 3 else r4 / 365;
    400 * (d / 146097) + 100 * c + 4 * (r100 / 1461) + k + 1
  }

  lemma YearBounds(d: int)
    ensures DaysBeforeYear(Year(d)) <= d < DaysBeforeYear(Year(d) + 1)
  {
    var n, r400 := d / 146097, d % 146097;
    var c := if r400 / 36524 == 4 then 3 else r400 / 36524;
    var r100 := r400 - 36524 * c;
    var q, r4 := r100 / 1461, r100 % 1461;
    var k := if r4 / 365 == 4 then 3 else r4 / 365;
    assert 0 <= c <= 3 && 0 <= q <= 24 && 0 <= k <= 3;
    var p := 400 * n + 100 * c + 4 * q + k;
    assert Year(d) == p + 1;
    CycleQuotients(n, c, q, k);
    if k < 3 {
      CycleQuotients(n, c, q, k + 1);
    } else if q < 24 {
      CycleQuotients(n, c, q + 1, 0);
    } else if c < 3 {
      CycleQuotients(n, c + 1, 0, 0);
    } else {
      CycleQuotients(n + 1, 0, 0, 0);
    }
  }

  lemma CycleQuotients(n: int, c: int, q: int, k: int)
    requires 0 <= c <= 3 && 0 <= q <= 24 && 0 <= k <= 3
    ensures DaysBeforeYear(400 * n + 100 * c + 4 * q + k + 1) == 146097 * n + 36524 * c + 1461 * q + 365 * k
  {
    var p := 400 * n + 100 * c + 4 * q + k;
    assert p / 4 == 100 * n + 25 * c + q;
    assert p / 100 == 4 * n + c;
    assert p / 400 == n;
  }

  lemma DaysBeforeYearGrows(y: int, z: int)
    requires y <= z
    ensures DaysBeforeYear(y) + 365 * (z - y) <= DaysBeforeYear(z)
    decreases z - y
  {
    if y < z {
      DaysBeforeYearGrows(y, z - 1);
      YearLength(z - 1);
    }
  }

  lemma YearLength(y: int)
    ensures DaysBeforeYear(y + 1) - DaysBeforeYear(y) == if Leap(y) then 366 else 365
  {
    LeapBySteps(y);
    NextQuotient4(y - 1);
    NextQuotient100(y - 1);
    NextQuotient400(y - 1);
  }

  lemma LeapBySteps(y: int)
    ensures (if y % 4 == 0 then 1 else 0) - (if y % 100 == 0 then 1 else 0) + (if y % 400 == 0 then 1 else 0) ==
            if Leap(y) then 1 else 0
  {
    if y % 400 == 0 {
      Multiple100(y, 4 * (y / 400));
    }
    if y % 100 == 0 {
      Multiple4(y, 25 * (y / 100));
    }
  }

  lemma Multiple100(y: int, k: int)
    requires y == 100 * k
    ensures y % 100 == 0
  {
  }

  lemma Multiple4(y: int, k: int)
    requires y == 4 * k
    ensures y % 4 == 0
  {
  }

  lemma NextQuotient4(p: int)
    ensures (p + 1) / 4 == p / 4 + if (p + 1) % 4 == 0 then 1 else 0
  {
  }

  lemma NextQuotient100(p: int)
    ensures (p + 1) / 100 == p / 100 + if (p + 1) % 100 == 0 then 1 else 0
  {
  }

  lemma NextQuotient400(p: int)
    ensures (p + 1) / 400 == p / 400 + if (p + 1) % 400 == 0 then 1 else 0
  {
  }

  lemma YearIsMonotone(a: int, b: int)
    requires a <= b
    ensures Year(a) <= Year(b)
  {
    YearBounds(a);
    YearBounds(b);
    if Year(b) < Year(a) {
      DaysBeforeYearGrows(Year(b) + 1, Year(a));
    }
  }

  /** Days of a year before the first of month `m`; month 13 is the year's end. */
  function DaysBeforeMonth(m: int, leap: bool): int {
    var extra := if leap then 1 else 0;
    if m <= 1 then 0 else if m == 2 then 31
    else extra + if m == 3 then 59 else if m == 4 then 90 else if m == 5 then 120
         else if m == 6 then 151 else if m == 7 then 181 else if m == 8 then 212
         else if m == 9 then 243 else if m == 10 then 273 else if m == 11 then 304
         else if m == 12 then 334 else 365
  }

  function YearDay(d: int): int {
    d - DaysBeforeYear(Year(d))
  }

  /** The month of a day, 1 to 12. */
  function Month(d: int): (m: int)
    ensures 1 <= m <= 12
    ensures m > 1 ==> DaysBeforeMonth(m, Leap(Year(d))) <= YearDay(d)
    ensures m < 12 ==> YearDay(d) < DaysBeforeMonth(m + 1, Leap(Year(d)))
  {
    MonthFrom(YearDay(d), Leap(Year(d)), 12)
  }

  function MonthFrom(yd: int, leap: bool, m: int): (r: int)
    requires 1 <= m <= 12
    requires m < 12 ==> yd < DaysBeforeMonth(m + 1, leap)
    ensures 1 <= r <= 12
    ensures r > 1 ==> DaysBeforeMonth(r, leap) <= yd
    ensures r < 12 ==> yd < DaysBeforeMonth(r + 1, leap)
    decreases m
  {
    if m == 1 || DaysBeforeMonth(m, leap) <= yd then m else MonthFrom(yd, leap, m - 1)
  }

  function DayOfMonth(d: int): int {
    YearDay(d) - DaysBeforeMonth(Month(d), Leap(Year(d))) + 1
  }

  /** Months counted from January of year 0. */
  function MonthIndex(d: int): int {
    12 * Year(d) + Month(d) - 1
  }

  lemma MonthIndexIsMonotone(a: int, b: int)
    requires a <= b
    ensures MonthIndex(a) <= MonthIndex(b)
  {
    YearIsMonotone(a, b);
    if Year(a) == Year(b) {
      MonthsAreOrdered(Month(b), Month(a), Leap(Year(a)));
    }
  }

  lemma MonthsAreOrdered(m: int, n: int, leap: bool)
    ensures m <= n ==> DaysBeforeMonth(m, leap) <= DaysBeforeMonth(n, leap)
    ensures m < n ==> DaysBeforeMonth(m + 1, leap) <= DaysBeforeMonth(n, leap)
  {
  }

  /** Year and month name the same month as the month index. */
  lemma MonthKeyIsIndex(a: int, b: int)
    ensures Year(a) == Year(b) && Month(a) == Month(b) <==> MonthIndex(a) == MonthIndex(b)
  {
  }

  /** A calendar date names one day. */
  lemma DateNamesDay(a: int, b: int)
    ensures Year(a) == Year(b) && Month(a) == Month(b) && DayOfMonth(a) == DayOfMonth(b) <==> a == b
  {
  }

  // ---------- the calendar as everybody counts it ----------

  datatype Date = Date(year: int, month: int, day: int)

  function DateOf(d: int): Date {
    Date(Year(d), Month(d), DayOfMonth(d))
  }

  /** Thirty days have April, June, September and November. */
  function MonthLength(month: int, leap: bool): int {
    if month in {4, 6, 9, 11} then 30 else if month != 2 then 31 else if leap then 29 else 28
  }

  /** The date after a date. */
  function NextDate(t: Date): Date {
    if t.day < MonthLength(t.month, Leap(t.year)) then Date(t.year, t.month, t.day + 1)
    else if t.month < 12 then Date(t.year, t.month + 1, 1)
    else Date(t.year + 1, 1, 1)
  }

  lemma MonthLengths(m: int, leap: bool)
    requires 1 <= m <= 12
    ensures DaysBeforeMonth(m + 1, leap) - DaysBeforeMonth(m, leap) == MonthLength(m, leap)
    ensures DaysBeforeMonth(13, leap) == if leap then 366 else 365
  {
  }

  lemma YearOfDay(d: int, y: int)
    requires DaysBeforeYear(y) <= d < DaysBeforeYear(y + 1)
    ensures Year(d) == y
  {
    hide Year;
    hide DaysBeforeYear;
    YearBounds(d);
    if Year(d) < y {
      DaysBeforeYearGrows(Year(d) + 1, y);
    } else if y < Year(d) {
      DaysBeforeYearGrows(y + 1, Year(d));
    }
  }

  /** The day of a year lies in one month. */
  lemma MonthOfDay(d: int, m: int)
    requires 1 <= m <= 12
    requires DaysBeforeMonth(m, Leap(Year(d))) <= YearDay(d) < DaysBeforeMonth(m + 1, Leap(Year(d)))
    ensures Month(d) == m
  {
    hide Year;
    hide DaysBeforeYear;
    MonthsAreOrdered(Month(d), m, Leap(Year(d)));
    MonthsAreOrdered(m, Month(d), Leap(Year(d)));
  }

  /** A day's place in its year and month. */
  lemma DayBounds(d: int)
    ensures 0 <= YearDay(d) < if Leap(Year(d)) then 366 else 365
    ensures DaysBeforeMonth(Month(d), Leap(Year(d))) <= YearDay(d) < DaysBeforeMonth(Month(d) + 1, Leap(Year(d)))
  {
    YearBounds(d);
    YearLength(Year(d));
    MonthLengths(12, Leap(Year(d)));
    hide Year;
    hide DaysBeforeYear;
  }

  lemma NextYear(d: int)
    ensures if YearDay(d) + 1 < (if Leap(Year(d)) then 366 else 365)
            then Year(d + 1) == Year(d) && YearDay(d + 1) == YearDay(d) + 1
            else Year(d + 1) == Year(d) + 1 && YearDay(d + 1) == 0
  {
    YearBounds(d);
    YearLength(Year(d));
    YearLength(Year(d) + 1);
    if YearDay(d) + 1 < (if Leap(Year(d)) then 366 else 365) {
      YearOfDay(d + 1, Year(d));
    } else {
      YearOfDay(d + 1, Year(d) + 1);
    }
    hide Year;
    hide DaysBeforeYear;
  }

  /** Dates follow one another as on any calendar, from 0001-01-01 on and back from there. */
  lemma DatesAdvance(d: int)
    ensures DateOf(d + 1) == NextDate(DateOf(d)) && DateOf(0) == Date(1, 1, 1)
  {
    FirstDay();
    hide Year;
    hide Month;
    hide DaysBeforeYear;
    hide DaysBeforeMonth;
    hide Leap;
    DayBounds(d);
    MonthLengths(Month(d), Leap(Year(d)));
    if YearDay(d) + 1 < DaysBeforeMonth(Month(d) + 1, Leap(Year(d))) {
      NextInMonth(d);
    } else if Month(d) < 12 {
      NextMonth(d);
    } else {
      NewYear(d);
    }
  }

  lemma NextInMonth(d: int)
    requires YearDay(d) + 1 < DaysBeforeMonth(Month(d) + 1, Leap(Year(d)))
    ensures DateOf(d + 1) == Date(Year(d), Month(d), DayOfMonth(d) + 1)
  {
    DayBounds(d);
    NextYear(d);
    MonthsAreOrdered(Month(d) + 1, 13, Leap(Year(d)));
    MonthLengths(12, Leap(Year(d)));
    hide Year;
    hide Month;
    hide DaysBeforeYear;
    hide DaysBeforeMonth;
    MonthOfDay(d + 1, Month(d));
  }

  lemma NextMonth(d: int)
    requires Month(d) < 12 && YearDay(d) + 1 >= DaysBeforeMonth(Month(d) + 1, Leap(Year(d)))
    ensures DateOf(d + 1) == Date(Year(d), Month(d) + 1, 1)
    ensures YearDay(d) + 1 == DaysBeforeMonth(Month(d) + 1, Leap(Year(d)))
  {
    DayBounds(d);
    NextYear(d);
    var m, leap := Month(d) + 1, Leap(Year(d));
    MonthLengths(m, leap);
    MonthLengths(12, leap);
    MonthsAreOrdered(m, 13, leap);
    hide Year;
    hide Month;
    hide DaysBeforeYear;
    hide DaysBeforeMonth;
    MonthOfDay(d + 1, m);
  }

  lemma NewYear(d: int)
    requires Month(d) == 12 && YearDay(d) + 1 >= DaysBeforeMonth(13, Leap(Year(d)))
    ensures DateOf(d + 1) == Date(Year(d) + 1, 1, 1)
  {
    DayBounds(d);
    NextYear(d);
    MonthLengths(12, Leap(Year(d)));
    MonthLengths(1, Leap(Year(d + 1)));
    assert DaysBeforeMonth(1, Leap(Year(d + 1))) == 0;
    hide Year;
    hide Month;
    hide DaysBeforeYear;
    hide DaysBeforeMonth;
    MonthOfDay(d + 1, 1);
  }

  lemma FirstDay()
    ensures DateOf(0) == Date(1, 1, 1)
  {
  }

  // ---------- ISO weeks ----------

  /** Weeks counted from the Monday 0001-01-01. */
  function WeekIndex(d: int): int {
    d / 7
  }

  /** An ISO week belongs to the year of its Thursday. */
  function Thursday(d: int): int {
    7 * WeekIndex(d) + 3
  }

  function IsoYear(d: int): int {
    Year(Thursday(d))
  }

  function IsoWeek(d: int): int {
    YearDay(Thursday(d)) / 7 + 1
  }

  /** ISO year and week number name exactly the Monday-to-Sunday week. */
  lemma IsoWeekNamesWeek(a: int, b: int)
    ensures IsoYear(a) == IsoYear(b) && IsoWeek(a) == IsoWeek(b) <==> WeekIndex(a) == WeekIndex(b)
  {
    if IsoYear(a) == IsoYear(b) && IsoWeek(a) == IsoWeek(b) {
      var x, y := YearDay(Thursday(a)), YearDay(Thursday(b));
      assert x - y == 7 * (WeekIndex(a) - WeekIndex(b));
      assert -7 < x - y < 7;
    }
  }

  const MONDAY: int := 738_885

  /** Weeks start on Mondays: 2024-01-01 was one, and every seventh day before and after it. */
  lemma WeeksStartOnMondays(d: int)
    ensures DateOf(MONDAY) == Date(2024, 1, 1)
    ensures WeekIndex(d) == WeekIndex(d - 1) + if (d - MONDAY) % 7 == 0 then 1 else 0
  {
    assert Year(MONDAY) == 2024 && YearDay(MONDAY) == 0;
  }

  /** Week 1 of a year is the one with 4 January, and the weeks of a year follow one another. */
  lemma FirstWeekHasFourthOfJanuary(y: int, d: int)
    ensures var fourth := DaysBeforeYear(y) + 3;
            && DateOf(fourth) == Date(y, 1, 4) && IsoYear(fourth) == y && IsoWeek(fourth) == 1
            && (IsoYear(d) == y ==> WeekIndex(d) == WeekIndex(fourth) + IsoWeek(d) - 1)
  {
    var fourth := DaysBeforeYear(y) + 3;
    YearLength(y);
    YearOfDay(fourth, y);
    MonthOfDay(fourth, 1);
    assert DaysBeforeYear(y) <= Thursday(fourth) <= DaysBeforeYear(y) + 6;
    YearOfDay(Thursday(fourth), y);
    if IsoYear(d) == y {
      WeeksOfYear(Thursday(d) - DaysBeforeYear(y), Thursday(fourth) - DaysBeforeYear(y), WeekIndex(d) - WeekIndex(fourth));
    }
    hide Year;
    hide DaysBeforeYear;
  }

  lemma WeeksOfYear(a: int, b: int, n: int)
    requires a - b == 7 * n && 0 <= b <= 6
    ensures a / 7 == n
  {
  }
}
