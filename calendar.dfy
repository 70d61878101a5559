/**
 * Calendar dates and optional form fields.
 *
 * The analyzer keeps dates as ISO `yyyy-mm-dd` strings and compares them
 * with string equality. The model keeps a date as its UTC day number (days
 * since 1970-01-01, the epoch of the platform's date type) and compares day
 * numbers instead. For years 0000 to 9999, distinct dates have distinct
 * ten-character strings, so the two tests agree. Advancing a date by `n`
 * calendar days adds `n` to its day number (`AddDaysNumber`). This is the
 * posting date the source computes when the browser's zone is UTC. In a
 * zone with daylight saving, the source posts terms that span the spring
 * clock change one day earlier; local time is not modelled.
 */
module Calendar {

  /** A calendar date, as its day number since 1970-01-01. */
  type Day = int

  /**
   * The platform's dates reach 8.64e15 milliseconds either side of
   * 1970-01-01, that is 100,000,000 days; formatting a date beyond that
   * fails with a range error.
   */
  const MaxDayNumber: int := 100000000

  predicate InDateRange(d: Day) {
    -MaxDayNumber <= d <= MaxDayNumber
  }

  /** A form field that may be left empty (the empty string in the form). */
  datatype Option<T> = None | Some(value: T)

  predicate IsLeapYear(y: int) {
    y % 4 == 0 && (y % 100 != 0 || y % 400 == 0)
  }

  function DaysInMonth(y: int, m: int): int
    requires 1 <= m <= 12
  {
    if m == 2 then (if IsLeapYear(y) then 29 else 28)
    else if m == 4 || m == 6 || m == 9 || m == 11 then 30
    else 31
  }

  predicate IsDate(y: int, m: int, d: int) {
    1 <= m <= 12 && 1 <= d <= DaysInMonth(y, m)
  }

  /**
   * Days from 0000-03-01 to the first of March of year p, counting in
   * 400-year eras of 146097 days; a year that starts in March ends with
   * the leap day, so leap years only move the start of the next year.
   */
  function YearStart(p: int): int {
    var era := p / 400;
    var yearOfEra := p - era * 400;
    era * 146097 + yearOfEra * 365 + yearOfEra / 4 - yearOfEra / 100
  }

  /** Days from the first of March to the first of the k-th month after it. */
  function MonthOffset(k: int): int {
    (153 * k + 2) / 5
  }

  /**
   * The day number of the proleptic Gregorian date y-m-d, counted with
   * March as the first month of the year so that a leap day falls last.
   */
  function DayNumber(y: int, m: int, d: int): (n: Day)
    requires IsDate(y, m, d)
  {
    var p := if m <= 2 then y - 1 else y;
    YearStart(p) + MonthOffset((m + 9) % 12) + d - 1 - 719468
  }

  /** The calendar date after y-m-d. */
  function NextDate(y: int, m: int, d: int): (r: (int, int, int))
    requires IsDate(y, m, d)
    ensures IsDate(r.0, r.1, r.2)
    ensures r.0 == y || (r.0 == y + 1 && m == 12 && d == 31 && r.1 == 1 && r.2 == 1)
  {
    if d < DaysInMonth(y, m) then (y, m, d + 1)
    else if m < 12 then (y, m + 1, 1)
    else (y + 1, 1, 1)
  }

  lemma Shift4(q: int, r: int)
    ensures (4 * q + r) % 4 == r % 4
  {
  }

  lemma Shift100(q: int, r: int)
    ensures (100 * q + r) % 100 == r % 100
  {
  }

  lemma Shift400(q: int, r: int)
    ensures (400 * q + r) % 400 == r % 400
  {
  }

  /** Year 400e + r is leap exactly when year r of an era is. */
  lemma LeapInEra(e: int, r: int)
    requires 0 <= r < 400
    ensures IsLeapYear(400 * e + r) == (r % 4 == 0 && (r % 100 != 0 || r == 0))
  {
    Shift4(100 * e, r);
    Shift100(4 * e, r);
    Shift400(e, r);
  }

  lemma YearStartInEra(e: int, r: int)
    requires 0 <= r < 400
    ensures YearStart(400 * e + r) == e * 146097 + r * 365 + r / 4 - r / 100
  {
    assert (400 * e + r) / 400 == e;
  }

  lemma QuarterStep(r: int)
    ensures (r + 1) / 4 == r / 4 + (if (r + 1) % 4 == 0 then 1 else 0)
  {
  }

  lemma CenturyStep(r: int)
    ensures (r + 1) / 100 == r / 100 + (if (r + 1) % 100 == 0 then 1 else 0)
  {
  }

  /** The March-based year p + 1 starts 366 days after p when it ends in a leap day, else 365. */
  lemma YearStep(p: int)
    ensures YearStart(p + 1) == YearStart(p) + (if IsLeapYear(p + 1) then 366 else 365)
  {
    var e := p / 400;
    var r := p - e * 400;
    assert p == 400 * e + r && 0 <= r < 400;
    YearStartInEra(e, r);
    if r == 399 {
      assert p + 1 == 400 * (e + 1) + 0;
      YearStartInEra(e + 1, 0);
      LeapInEra(e + 1, 0);
    } else {
      assert p + 1 == 400 * e + (r + 1);
      YearStartInEra(e, r + 1);
      LeapInEra(e, r + 1);
      QuarterStep(r);
      CenturyStep(r);
    }
  }

  /** The first day of each month, counted from the first of March. */
  lemma MonthOffsets()
    ensures MonthOffset(0) == 0 && MonthOffset(1) == 31 && MonthOffset(2) == 61
    ensures MonthOffset(3) == 92 && MonthOffset(4) == 122 && MonthOffset(5) == 153
    ensures MonthOffset(6) == 184 && MonthOffset(7) == 214 && MonthOffset(8) == 245
    ensures MonthOffset(9) == 275 && MonthOffset(10) == 306 && MonthOffset(11) == 337
  {
  }

  /** The last day of a month other than February is followed by the first of the next month. */
  lemma NextDayMonthEnd(y: int, m: int)
    requires 1 <= m <= 12 && m != 2
    ensures var r := NextDate(y, m, DaysInMonth(y, m));
      DayNumber(r.0, r.1, r.2) == DayNumber(y, m, DaysInMonth(y, m)) + 1
  {
    MonthOffsets();
  }

  /** The last day of February is followed by the first of March, leap year or not. */
  lemma NextDayFebruaryEnd(y: int)
    ensures DayNumber(y, 3, 1) == DayNumber(y, 2, DaysInMonth(y, 2)) + 1
  {
    MonthOffsets();
    YearStep(y - 1);
  }

  /**
   * Day numbers count calendar days: the date after y-m-d has the next day
   * number, across month ends, year ends and leap days alike.
   */
  lemma NextDay(y: int, m: int, d: int)
    requires IsDate(y, m, d)
    ensures var r := NextDate(y, m, d); DayNumber(r.0, r.1, r.2) == DayNumber(y, m, d) + 1
  {
    if d == DaysInMonth(y, m) {
      if m == 2 {
        NextDayFebruaryEnd(y);
      } else {
        NextDayMonthEnd(y, m);
      }
    }
  }

  /** The calendar date before y-m-d. */
  function PrevDate(y: int, m: int, d: int): (r: (int, int, int))
    requires IsDate(y, m, d)
    ensures IsDate(r.0, r.1, r.2)
    ensures NextDate(r.0, r.1, r.2) == (y, m, d)
  {
    if d > 1 then (y, m, d - 1)
    else if m > 1 then (y, m - 1, DaysInMonth(y, m - 1))
    else (y - 1, 12, 31)
  }

  /** The date before y-m-d has the previous day number. */
  lemma PrevDay(y: int, m: int, d: int)
    requires IsDate(y, m, d)
    ensures var r := PrevDate(y, m, d); DayNumber(r.0, r.1, r.2) == DayNumber(y, m, d) - 1
  {
    var r := PrevDate(y, m, d);
    NextDay(r.0, r.1, r.2);
  }

  /**
   * The date n calendar days after y-m-d, one day at a time; a negative n
   * steps back -n days.
   */
  function AddDays(y: int, m: int, d: int, n: int): (r: (int, int, int))
    requires IsDate(y, m, d)
    ensures IsDate(r.0, r.1, r.2)
    decreases if n < 0 then -n else n
  {
    if n == 0 then (y, m, d)
    else if n > 0 then
      var next := NextDate(y, m, d);
      AddDays(next.0, next.1, next.2, n - 1)
    else
      var prev := PrevDate(y, m, d);
      AddDays(prev.0, prev.1, prev.2, n + 1)
  }

  /** Moving a date by n calendar days, forward or back, adds n to its day number. */
  lemma {:induction false} AddDaysNumber(y: int, m: int, d: int, n: int)
    requires IsDate(y, m, d)
    ensures var r := AddDays(y, m, d, n); DayNumber(r.0, r.1, r.2) == DayNumber(y, m, d) + n
    decreases if n < 0 then -n else n
  {
    if n > 0 {
      var next := NextDate(y, m, d);
      NextDay(y, m, d);
      AddDaysNumber(next.0, next.1, next.2, n - 1);
    } else if n < 0 {
      var prev := PrevDate(y, m, d);
      PrevDay(y, m, d);
      AddDaysNumber(prev.0, prev.1, prev.2, n + 1);
    }
  }
}
