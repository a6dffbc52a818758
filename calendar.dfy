/**
 * Proleptic Gregorian dates, standing in for Python's `date` and `datetime`.
 * A timestamp is a whole number of seconds since 1970-01-01T00:00:00 (UTC, as
 * OAI-PMH datestamps are); a date is also handled as its day number, the days
 * since 1970-01-01.
 */
module Calendar {

  const SecondsPerDay: int := 86400
  const SecondsPerMinute: int := 60

  datatype Date = Date(year: int, month: int, day: int)

  predicate IsLeap(y: int)
  {
    y % 4 == 0 && (y % 100 != 0 || y % 400 == 0)
  }

  function DaysInMonth(y: int, m: int): int
  {
    if m == 2 then (if IsLeap(y) then 29 else 28)
    else if m == 4 || m == 6 || m == 9 || m == 11 then 30
    else 31
  }

  /** What Python's `date(year, month, day)` accepts without raising `ValueError`. */
  predicate ValidDate(d: Date)
  {
    1 <= d.year <= 9999 && 1 <= d.month <= 12 && 1 <= d.day <= DaysInMonth(d.year, d.month)
  }

  /** Python's `date.max`: a date moved past it raises `OverflowError`. */
  const MaxDate: Date := Date(9999, 12, 31)

  /** The day number of a civil date (the days-from-civil algorithm). */
  function DayNumber(d: Date): int
  {
    var y := if d.month <= 2 then d.year - 1 else d.year;
    var era := y / 400;
    var yoe := y - era * 400;
    var mp := if d.month > 2 then d.month - 3 else d.month + 9;
    var doy := (153 * mp + 2) / 5 + d.day - 1;
    var doe := yoe * 365 + yoe / 4 - yoe / 100 + doy;
    era * 146097 + doe - 719468
  }

  /** The day number of a timestamp: Python's `t.date()`. */
  function DayOf(t: int): int
  {
    t / SecondsPerDay
  }

  function YearLength(y: int): int
  {
    if IsLeap(y) then 366 else 365
  }

  /** The day number of January 1st of year `y`, counted in whole years
    * from 1970. */
  function NewYear(y: int): int
    decreases if y >= 1970 then y - 1970 else 1970 - y
  {
    if y == 1970 then 0
    else if y > 1970 then NewYear(y - 1) + YearLength(y - 1)
    else NewYear(y + 1) - YearLength(y)
  }

  lemma NewYearNext(y: int)
    ensures NewYear(y + 1) == NewYear(y) + YearLength(y)
  {
  }

  /** Days from the start of a 400-year era to January 1st of its year `m + 1`. */
  function EraDays(m: int): int
  {
    m * 365 + m / 4 - m / 100
  }

  lemma NewYearNumber(y: int)
    ensures var p := y - 1;
            DayNumber(Date(y, 1, 1)) == (p / 400) * 146097 + EraDays(p - (p / 400) * 400) + 306 - 719468
  {
  }

  /** Within an era, one more year adds that year's length. */
  lemma EraStep(e: int, m: int)
    requires 0 <= m < 399
    ensures EraDays(m + 1) == EraDays(m) + YearLength(400 * e + m + 1)
  {
    ModShift4(e, m + 1);
    ModShift100(e, m + 1);
    ModShift400(e, m + 1);
    DivStep4(m);
    DivStep100(m);
    assert (m + 1) * 365 == m * 365 + 365;
  }

  lemma DivStep4(m: int)
    requires 0 <= m
    ensures (m + 1) / 4 == m / 4 + (if (m + 1) % 4 == 0 then 1 else 0)
  {
    var q, r := m / 4, m % 4;
    assert m == 4 * q + r && 0 <= r < 4;
    if r == 3 {
      assert m + 1 == 4 * (q + 1);
    } else {
      assert m + 1 == 4 * q + (r + 1) && r + 1 < 4;
    }
  }

  lemma DivStep100(m: int)
    requires 0 <= m
    ensures (m + 1) / 100 == m / 100 + (if (m + 1) % 100 == 0 then 1 else 0)
  {
    var q, r := m / 100, m % 100;
    assert m == 100 * q + r && 0 <= r < 100;
    if r == 99 {
      assert m + 1 == 100 * (q + 1);
    } else {
      assert m + 1 == 100 * q + (r + 1) && r + 1 < 100;
    }
  }

  lemma ModShift400(e: int, m: int)
    ensures (400 * e + m) % 400 == m % 400
  {
  }

  lemma ModShift4(e: int, m: int)
    ensures (400 * e + m) % 4 == m % 4
  {
    assert 400 * e + m == 4 * (100 * e) + m;
  }

  lemma ModShift100(e: int, m: int)
    ensures (400 * e + m) % 100 == m % 100
  {
    assert 400 * e + m == 100 * (4 * e) + m;
  }

  /** Consecutive New Year's days of the civil calendar are a year's length apart. */
  lemma DayNumberStep(y: int)
    ensures DayNumber(Date(y + 1, 1, 1)) == DayNumber(Date(y, 1, 1)) + YearLength(y)
  {
    NewYearNumber(y);
    NewYearNumber(y + 1);
    var p := y - 1;
    var era := p / 400;
    var m := p - era * 400;
    EraSplit(p, era, m);
    if m < 399 {
      EraSplit(y, era, m + 1);
      EraStep(era, m);
    } else {
      EraSplit(y, era + 1, 0);
      ModShift4(era + 1, 0);
      ModShift400(era + 1, 0);
    }
  }

  /** `a` lies `r` days into era `q`. */
  lemma EraSplit(a: int, q: int, r: int)
    requires a == 400 * q + r && 0 <= r < 400
    ensures a / 400 == q && a - (a / 400) * 400 == r
  {
  }

  /** The counted New Year's day is the civil calendar's. */
  lemma {:induction false} NewYearDay(y: int)
    ensures NewYear(y) == DayNumber(Date(y, 1, 1))
    decreases if y >= 1970 then y - 1970 else 1970 - y
  {
    if y > 1970 {
      NewYearDay(y - 1);
      DayNumberStep(y - 1);
    } else if y < 1970 {
      NewYearDay(y + 1);
      DayNumberStep(y);
    }
  }

  /** The year holding day `n`, where day 0 is January 1st of year `y`:
    * whole years are counted off forwards or backwards. */
  function YearFrom(y: int, n: int): (r: int)
    decreases if n < 0 then 366 - n else n
    ensures n < 0 ==> r < y
    ensures n >= 0 ==> r >= y
    ensures NewYear(r) <= NewYear(y) + n < NewYear(r + 1)
  {
    if n < 0 then
      NewYearNext(y - 1);
      YearFrom(y - 1, n + YearLength(y - 1))
    else if n >= YearLength(y) then
      NewYearNext(y);
      YearFrom(y + 1, n - YearLength(y))
    else
      NewYearNext(y);
      y
  }

  /** Python's `t.year`. */
  function Year(t: int): int
  {
    YearFrom(1970, DayOf(t))
  }

  /** The year of `t` is the civil year holding its day: its January 1st is
    * on or before that day, and the next one after it. */
  lemma YearHoldsDay(t: int)
    ensures DayNumber(Date(Year(t), 1, 1)) <= DayOf(t) < DayNumber(Date(Year(t) + 1, 1, 1))
  {
    NewYearDay(Year(t));
    NewYearDay(Year(t) + 1);
  }
}
