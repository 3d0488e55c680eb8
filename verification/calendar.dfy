/** Proleptic Gregorian civil dates and a day count: the number of civil
    days since 0001-01-01. The source counts days with JavaScript `Date`
    objects (`Math.round` of a millisecond difference divided by
    86 400 000). A `Date` built from year, month and day fields reads the
    years 0..99 as 1900..1999 (`MakeFullYear`), so its day count is
    `ConstructedDayNumber`, which is the civil count shifted by 1900 years
    for those years. */
module Calendar {

  import JsMath

  datatype Date = Date(year: int, month: int, day: int)

  predicate IsLeapYear(y: int)
  {
    y % 4 == 0 && (y % 100 != 0 || y % 400 == 0)
  }

  function DaysInMonth(y: int, m: int): (n: int)
    requires 1 <= m <= 12
    ensures 28 <= n <= 31
    ensures m == 2 ==> (n == 29 <==> IsLeapYear(y))
  {
    if m == 2 then (if IsLeapYear(y) then 29 else 28)
    else if m == 4 || m == 6 || m == 9 || m == 11 then 30
    else 31
  }

  predicate ValidDate(d: Date)
  {
    1 <= d.month <= 12 && 1 <= d.day <= DaysInMonth(d.year, d.month)
  }

  function YearLength(y: int): int
  {
    if IsLeapYear(y) then 366 else 365
  }

  /** Days in the months of year y before month m. */
  function DaysBeforeMonth(y: int, m: int): (n: int)
    requires 1 <= m <= 12
    decreases m
  {
    if m == 1 then 0 else DaysBeforeMonth(y, m - 1) + DaysInMonth(y, m - 1)
  }

  /** Leap years among 1 .. y-1 (for y <= 1, minus the leap years in y .. 0). */
  function LeapYearsBefore(y: int): int
  {
    (y - 1) / 4 - (y - 1) / 100 + (y - 1) / 400
  }

  /** Days from 0001-01-01 to January 1st of year y. */
  function DaysBeforeYear(y: int): int
  {
    365 * (y - 1) + LeapYearsBefore(y)
  }

  /** Civil day number: 0001-01-01 is day 0. */
  function DayNumber(d: Date): int
    requires ValidDate(d)
  {
    DaysBeforeYear(d.year) + DaysBeforeMonth(d.year, d.month) + d.day - 1
  }

  /** The calendar day after d (`setDate(getDate() + 1)`). */
  function NextDay(d: Date): (n: Date)
    requires ValidDate(d)
    ensures ValidDate(n)
  {
    if d.day < DaysInMonth(d.year, d.month) then Date(d.year, d.month, d.day + 1)
    else if d.month < 12 then Date(d.year, d.month + 1, 1)
    else Date(d.year + 1, 1, 1)
  }

  lemma {:induction false} MultipleStep(x: int, k: int)
    requires k > 0
    ensures x / k - (x - 1) / k == (if x % k == 0 then 1 else 0)
  {
    var q, r := x / k, x % k;
    if r == 0 {
      JsMath.DivModUnique(x - 1, k, q - 1, k - 1);
    } else {
      JsMath.DivModUnique(x - 1, k, q, r - 1);
    }
  }

  /** Consecutive New Year's days are one year length apart. */
  lemma {:induction false} DaysBeforeNextYear(y: int)
    ensures DaysBeforeYear(y + 1) == DaysBeforeYear(y) + YearLength(y)
  {
    MultipleStep(y, 4);
    MultipleStep(y, 100);
    MultipleStep(y, 400);
  }

  /** All twelve months together make up the year. */
  lemma MonthsFillYear(y: int)
    ensures DaysBeforeMonth(y, 12) + DaysInMonth(y, 12) == YearLength(y)
  {
  }

  /** Moving to the next calendar day advances the day number by exactly one,
      across month and year ends and February 29th. */
  lemma NextDayNumber(d: Date)
    requires ValidDate(d)
    ensures DayNumber(NextDay(d)) == DayNumber(d) + 1
  {
    if d.day < DaysInMonth(d.year, d.month) {
    } else if d.month < 12 {
    } else {
      DaysBeforeNextYear(d.year);
      MonthsFillYear(d.year);
    }
  }

  /** The year `new Date(y, m, d)` stands for: the years 0..99 are taken as
      1900..1999 (section 21.4.2.1 of ECMA-262). */
  function MakeFullYear(y: int): int
  {
    if 0 <= y <= 99 then 1900 + y else y
  }

  /** The day number of `new Date(y, m - 1, d)`: day d counted on from the
      first of month m of the full year, so a day past the end of that
      month rolls over into the next. */
  function ConstructedDayNumber(d: Date): (n: int)
    requires ValidDate(d)
    ensures !(0 <= d.year <= 99) ==> n == DayNumber(d)
  {
    var y := MakeFullYear(d.year);
    DaysBeforeYear(y) + DaysBeforeMonth(y, d.month) + d.day - 1
  }

  /** Two years with the same leap status have the same month offsets;
      a leap year is one day ahead from March on. */
  lemma {:induction false} DaysBeforeMonthLeap(y1: int, y2: int, m: int)
    requires 1 <= m <= 12
    ensures IsLeapYear(y1) == IsLeapYear(y2) ==> DaysBeforeMonth(y1, m) == DaysBeforeMonth(y2, m)
    ensures IsLeapYear(y1) && !IsLeapYear(y2) ==>
      DaysBeforeMonth(y1, m) == DaysBeforeMonth(y2, m) + (if m > 2 then 1 else 0)
    decreases m
  {
    if m > 1 {
      DaysBeforeMonthLeap(y1, y2, m - 1);
    }
  }

  /** 1900 years hold 693 960 days when they start in 1..99 (460 leap
      years) and 693 961 when they start in year 0, which is a leap year
      while 1900 is not. */
  lemma {:induction false} CenturyYears(y: int)
    requires 0 <= y <= 99
    ensures DaysBeforeYear(y + 1900) - DaysBeforeYear(y) == 693960 + (if y == 0 then 1 else 0)
  {
    JsMath.DivModUnique(y + 1899, 4, (y - 1) / 4 + 475, (y - 1) % 4);
    JsMath.DivModUnique(y + 1899, 100, (y - 1) / 100 + 19, (y - 1) % 100);
    if y == 0 {
      JsMath.DivModUnique(1899, 400, 4, 299);
      JsMath.DivModUnique(-1, 400, -1, 399);
    } else {
      JsMath.DivModUnique(y + 1899, 400, 4, y + 299);
      JsMath.DivModUnique(y - 1, 400, 0, y - 1);
    }
  }

  /** For the years 0..99 the constructed day count runs 693 960 days
      (1900 years) ahead of the civil one, one day more in January and
      February of year 0. */
  lemma CenturyShift(d: Date)
    requires ValidDate(d) && 0 <= d.year <= 99
    ensures ConstructedDayNumber(d) - DayNumber(d) == 693960 + (if d.year == 0 && d.month <= 2 then 1 else 0)
  {
    CenturyYears(d.year);
    CenturyLeap(d.year);
    DaysBeforeMonthLeap(d.year, d.year + 1900, d.month);
  }

  /** Year y and year y + 1900 agree in leap status for y in 1..99; year 0
      is a leap year and 1900 is not. */
  lemma CenturyLeap(y: int)
    requires 0 <= y <= 99
    ensures y != 0 ==> IsLeapYear(y + 1900) == IsLeapYear(y)
    ensures y == 0 ==> IsLeapYear(y) && !IsLeapYear(y + 1900)
  {
    JsMath.DivModUnique(y + 1900, 4, y / 4 + 475, y % 4);
    JsMath.DivModUnique(y + 1900, 100, 19, y);
    JsMath.DivModUnique(1900, 400, 4, 300);
  }

  const Epoch := Date(1970, 1, 1)
  const MillisPerDay := 86400000

  /** `new Date("YYYY-MM-DD").getTime()`: a date-only string is read as UTC
      midnight, so the timestamp is a whole number of days from the epoch. */
  function UtcMidnightMillis(d: Date): (t: int)
    requires ValidDate(d)
    ensures t % MillisPerDay == 0
    ensures t < 0 <==> DayNumber(d) < DayNumber(Epoch)
  {
    (DayNumber(d) - DayNumber(Epoch)) * MillisPerDay
  }

  /** The epoch's timestamp is 0, and each calendar day adds one day of
      milliseconds, across month and year ends. */
  lemma UtcMidnightMillisStep(d: Date)
    requires ValidDate(d)
    ensures UtcMidnightMillis(Epoch) == 0
    ensures UtcMidnightMillis(NextDay(d)) == UtcMidnightMillis(d) + MillisPerDay
  {
    NextDayNumber(d);
  }
}
