/**
 Year/month/day dates.  Day numbers count from 1 January of year 1 in the proleptic
 Gregorian calendar, which is the calendar Go's time package computes in.
 */
module Calendar {
  import Cadence

  datatype Date = Date(year: int, month: int, day: int)

  predicate Leap(y: int) {
    y % 4 == 0 && (y % 100 != 0 || y % 400 == 0)
  }

  function DaysIn(y: int, m: int): int {
    if m == 2 then (if Leap(y) then 29 else 28)
    else if m == 4 || m == 6 || m == 9 || m == 11 then 30
    else 31
  }

  predicate Normalized(d: Date) {
    1 <= d.month <= 12 && 1 <= d.day <= DaysIn(d.year, d.month)
  }

  predicate Before(d: Date, e: Date) {
    if d.year != e.year then d.year < e.year
    else if d.month != e.month then d.month < e.month
    else d.day < e.day
  }

  function DaysBeforeYear(y: int): int {
    365 * (y - 1) + (y - 1) / 4 - (y - 1) / 100 + (y - 1) / 400
  }

  function DaysBeforeMonth(y: int, m: int): int
    requires 1 <= m <= 13
    decreases m
  {
    if m == 1 then 0 else DaysBeforeMonth(y, m - 1) + DaysIn(y, m - 1)
  }

  function DayNumber(d: Date): int
    requires Normalized(d)
  {
    DaysBeforeYear(d.year) + DaysBeforeMonth(d.year, d.month) + d.day - 1
  }

  /** Peels 400-, 100-, 4- and 1-year cycles off a day number. */
  function YearOf(n: int): int {
    var c400, r400 := n / 146097, n % 146097;
    var c100 := Cadence.Min(r400 / 36524, 3);
    var r100 := r400 - c100 * 36524;
    var c4, r4 := r100 / 1461, r100 % 1461;
    400 * c400 + 100 * c100 + 4 * c4 + Cadence.Min(r4 / 365, 3) + 1
  }

  /** The date `k` days after the first of month m of year y. */
  function DayOfYear(y: int, m: int, k: int): Date
    requires 1 <= m <= 12
    decreases 12 - m
  {
    if k < DaysIn(y, m) || m == 12 then Date(y, m, k + 1)
    else DayOfYear(y, m + 1, k - DaysIn(y, m))
  }

  function FromDayNumber(n: int): Date {
    DayOfYear(YearOf(n), 1, n - DaysBeforeYear(YearOf(n)))
  }

  /** time.Date(...).AddDate(0, 0, n). */
  function AddDays(d: Date, n: int): Date
    requires Normalized(d)
  {
    FromDayNumber(DayNumber(d) + n)
  }

  function DaysUntil(d: Date, e: Date): int
    requires Normalized(d) && Normalized(e)
  {
    Cadence.DaysUntil(DayNumber(d), DayNumber(e))
  }

  /** The next day by the rules of the calendar alone: the reference for AddDays. */
  function Tomorrow(d: Date): Date {
    if d.day < DaysIn(d.year, d.month) then d.(day := d.day + 1)
    else if d.month < 12 then Date(d.year, d.month + 1, 1)
    else Date(d.year + 1, 1, 1)
  }

  /** The calendar's own table, and its rule for centuries. */
  lemma MonthLengths(y: int, m: int)
    requires 1 <= m <= 12
    ensures DaysIn(y, m) == [31, if Leap(y) then 29 else 28, 31, 30, 31, 30, 31, 31, 30, 31, 30, 31][m - 1]
    ensures Leap(y) <==> y % 400 == 0 || (y % 4 == 0 && y % 100 != 0)
    ensures Leap(2024) && !Leap(2023) && !Leap(1900) && Leap(2000)
  {
  }

  lemma YearStep(y: int)
    ensures DaysBeforeYear(y + 1) == DaysBeforeYear(y) + (if Leap(y) then 366 else 365)
  {
    FloorStep(y, 4);
    FloorStep(y, 100);
    FloorStep(y, 400);
    MultiplesNest(y, 4, 25);
    MultiplesNest(y, 100, 4);
  }

  lemma MultiplesNest(y: int, m: int, k: int)
    requires m > 0 && k > 0
    ensures y % (m * k) == 0 ==> y % m == 0
  {
    if y % (m * k) == 0 {
      var q := y / (m * k);
      assert y == m * (k * q);
      DivUnique(y, m, k * q, 0);
    }
  }

  lemma FloorStep(y: int, m: int)
    requires m > 1
    ensures y / m == (y - 1) / m + (if y % m == 0 then 1 else 0)
  {
    var q, r := (y - 1) / m, (y - 1) % m;
    assert y - 1 == m * q + r;
    if r == m - 1 {
      assert y == m * (q + 1);
      DivUnique(y, m, q + 1, 0);
    } else {
      DivUnique(y, m, q, r + 1);
    }
  }

  lemma DivUnique(y: int, m: int, q: int, r: int)
    requires m > 0 && y == m * q + r && 0 <= r < m
    ensures y / m == q && y % m == r
  {
    var d := y / m - q;
    assert m * d == r - y % m;
    assert d >= 1 ==> m * d >= m;
    assert d <= -1 ==> m * d <= -m;
  }

  lemma YearsAscend(y: int, z: int)
    requires y < z
    ensures DaysBeforeYear(y + 1) <= DaysBeforeYear(z)
    decreases z - y
  {
    if y + 1 < z {
      YearsAscend(y, z - 1);
      YearStep(z - 1);
    }
  }

  lemma MonthsAscend(y: int, m: int, n: int)
    requires 1 <= m < n <= 13
    ensures DaysBeforeMonth(y, m) + DaysIn(y, m) <= DaysBeforeMonth(y, n)
    decreases n - m
  {
    if m + 1 < n {
      MonthsAscend(y, m, n - 1);
    }
  }

  lemma MonthsFillYear(y: int)
    ensures DaysBeforeMonth(y, 13) == if Leap(y) then 366 else 365
  {
    assert DaysBeforeMonth(y, 5) == DaysBeforeMonth(y, 3) + 61;
    assert DaysBeforeMonth(y, 7) == DaysBeforeMonth(y, 5) + 61;
    assert DaysBeforeMonth(y, 9) == DaysBeforeMonth(y, 7) + 62;
    assert DaysBeforeMonth(y, 11) == DaysBeforeMonth(y, 9) + 61;
    assert DaysBeforeMonth(y, 13) == DaysBeforeMonth(y, 11) + 61;
  }

  lemma BeforeImpliesEarlier(d: Date, e: Date)
    requires Normalized(d) && Normalized(e) && Before(d, e)
    ensures DayNumber(d) < DayNumber(e)
  {
    if d.year != e.year {
      YearsAscend(d.year, e.year);
      YearStep(d.year);
      MonthsFillYear(d.year);
      MonthsAscend(d.year, d.month, 13);
      if e.month > 1 {
        MonthsAscend(e.year, 1, e.month);
      }
    } else if d.month != e.month {
      MonthsAscend(d.year, d.month, e.month);
    }
  }

  /** The field-by-field comparison is the order of the days themselves. */
  lemma BeforeIsDayOrder(d: Date, e: Date)
    requires Normalized(d) && Normalized(e)
    ensures Before(d, e) <==> DayNumber(d) < DayNumber(e)
    ensures d == e <==> DayNumber(d) == DayNumber(e)
  {
    if Before(d, e) {
      BeforeImpliesEarlier(d, e);
    } else if Before(e, d) {
      BeforeImpliesEarlier(e, d);
    } else {
      assert d == e;
    }
  }

  lemma YearOfBrackets(n: int)
    ensures DaysBeforeYear(YearOf(n)) <= n < DaysBeforeYear(YearOf(n) + 1)
  {
    var a, r400 := n / 146097, n % 146097;
    var c := Cadence.Min(r400 / 36524, 3);
    var r100 := r400 - c * 36524;
    var q, r4 := r100 / 1461, r100 % 1461;
    var y := Cadence.Min(r4 / 365, 3);
    assert 0 <= c <= 3 && 0 <= r100 <= 36524 && 0 <= q <= 24 && 0 <= y <= 3;
    var z := 400 * a + 100 * c + 4 * q + y;
    assert z == YearOf(n) - 1;
    hide DaysBeforeYear, Leap, YearOf;
    DaysBeforeCycle(a, c, q, y);
    assert DaysBeforeYear(z + 1) == n - (r4 - 365 * y);
    YearStep(z + 1);
    LeapInCycle(a, c, q, y);
  }

  lemma DaysBeforeCycle(a: int, c: int, q: int, y: int)
    requires 0 <= c <= 3 && 0 <= q <= 24 && 0 <= y <= 3
    ensures DaysBeforeYear(400 * a + 100 * c + 4 * q + y + 1) == 146097 * a + 36524 * c + 1461 * q + 365 * y
  {
    var z := 400 * a + 100 * c + 4 * q + y;
    DivUnique(z, 4, 100 * a + 25 * c + q, y);
    DivUnique(z, 100, 4 * a + c, 4 * q + y);
    DivUnique(z, 400, a, 100 * c + 4 * q + y);
  }

  lemma LeapInCycle(a: int, c: int, q: int, y: int)
    requires 0 <= c <= 3 && 0 <= q <= 24 && 0 <= y <= 3
    ensures Leap(400 * a + 100 * c + 4 * q + y + 1) <==> y == 3 && (q != 24 || c == 3)
  {
    var w := 400 * a + 100 * c + 4 * q + y + 1;
    if y != 3 {
      DivUnique(w, 4, 100 * a + 25 * c + q, y + 1);
    } else {
      DivUnique(w, 4, 100 * a + 25 * c + q + 1, 0);
      if q != 24 {
        DivUnique(w, 100, 4 * a + c, 4 * q + 4);
      } else {
        DivUnique(w, 100, 4 * a + c + 1, 0);
        if c != 3 {
          DivUnique(w, 400, a, 100 * c + 100);
        } else {
          DivUnique(w, 400, a + 1, 0);
        }
      }
    }
  }

  lemma DayOfYearLocates(y: int, m: int, k: int)
    requires 1 <= m <= 12 && 0 <= k < DaysBeforeMonth(y, 13) - DaysBeforeMonth(y, m)
    ensures var d := DayOfYear(y, m, k);
            && Normalized(d) && d.year == y
            && DaysBeforeMonth(y, d.month) + d.day - 1 == DaysBeforeMonth(y, m) + k
    decreases 12 - m
  {
    if !(k < DaysIn(y, m) || m == 12) {
      DayOfYearLocates(y, m + 1, k - DaysIn(y, m));
    }
  }

  /** Every day number names exactly one normalized date. */
  lemma FromDayNumberInverts(n: int)
    ensures Normalized(FromDayNumber(n)) && DayNumber(FromDayNumber(n)) == n
  {
    YearOfBrackets(n);
    YearStep(YearOf(n));
    MonthsFillYear(YearOf(n));
    DayOfYearLocates(YearOf(n), 1, n - DaysBeforeYear(YearOf(n)));
  }

  lemma DayNumberInverts(d: Date)
    requires Normalized(d)
    ensures FromDayNumber(DayNumber(d)) == d
  {
    FromDayNumberInverts(DayNumber(d));
    BeforeIsDayOrder(FromDayNumber(DayNumber(d)), d);
  }

  lemma TomorrowIsNextDay(d: Date)
    requires Normalized(d)
    ensures Normalized(Tomorrow(d)) && DayNumber(Tomorrow(d)) == DayNumber(d) + 1
  {
    if d.day == DaysIn(d.year, d.month) && d.month == 12 {
      YearStep(d.year);
      MonthsFillYear(d.year);
    }
  }

  /** Adding days follows the calendar one day at a time, composes, never leaves the
      normalized dates, and agrees with the order -- across month ends, leap days and
      centuries. */
  lemma AddDaysLaws(d: Date, a: int, b: int)
    requires Normalized(d)
    ensures Normalized(AddDays(d, a)) && AddDays(d, 0) == d
    ensures AddDays(d, a + 1) == Tomorrow(AddDays(d, a))
    ensures AddDays(AddDays(d, a), b) == AddDays(d, a + b)
    ensures Before(AddDays(d, a), AddDays(d, b)) <==> a < b
  {
    hide FromDayNumber, DayNumber, Before, Tomorrow, Cadence.DaysUntil;
    DayNumberInverts(d);
    FromDayNumberInverts(DayNumber(d) + a);
    FromDayNumberInverts(DayNumber(d) + b);
    TomorrowIsNextDay(AddDays(d, a));
    DayNumberInverts(Tomorrow(AddDays(d, a)));
    BeforeIsDayOrder(AddDays(d, a), AddDays(d, b));
  }

  /** DaysUntil undoes AddDays exactly while the span fits a Go duration. */
  lemma DaysUntilInvertsAddDays(d: Date, n: int)
    requires Normalized(d)
    ensures Normalized(AddDays(d, n))
    ensures DaysUntil(d, AddDays(d, n)) == n <==> -Cadence.MAX_SPAN <= n <= Cadence.MAX_SPAN
  {
    hide FromDayNumber, DayNumber, Cadence.DaysUntil;
    FromDayNumberInverts(DayNumber(d) + n);
    Cadence.DaysUntilSaturates(DayNumber(d), DayNumber(d) + n);
  }

  lemma DaysUntilReachesBack(d: Date, e: Date)
    requires Normalized(d) && Normalized(e)
    ensures AddDays(d, DaysUntil(d, e)) == e
            <==> -Cadence.MAX_SPAN <= DayNumber(e) - DayNumber(d) <= Cadence.MAX_SPAN
  {
    hide FromDayNumber, DayNumber, Before, Tomorrow, Cadence.DaysUntil;
    Cadence.DaysUntilSaturates(DayNumber(d), DayNumber(e));
    DayNumberInverts(e);
    FromDayNumberInverts(DayNumber(d) + DaysUntil(d, e));
  }

  lemma Multiples(anchor: int, interval: int, m: int, n: int)
    requires interval > 0
    ensures Cadence.Nth(anchor, interval, n) == anchor + interval * n
    ensures interval * m < interval * n <==> m < n
  {
    Cadence.NthMonotone(0, interval, m, n);
    Cadence.NthMonotone(0, interval, n, m);
    assert Cadence.Nth(0, interval, m) == interval * m && Cadence.Nth(0, interval, n) == interval * n;
  }

  /** The cadence of module Cadence is the cadence of the calendar: the n-th occurrence
      falls n * interval calendar days after the anchor, and later in the cadence is
      later on the calendar. */
  lemma CadenceOnCalendar(anchor: Date, interval: int, m: int, n: int)
    requires Normalized(anchor) && Cadence.ValidInterval(interval)
    ensures Normalized(AddDays(anchor, interval * m)) && Normalized(AddDays(anchor, interval * n))
    ensures DayNumber(AddDays(anchor, interval * n)) == Cadence.Nth(DayNumber(anchor), interval, n)
    ensures Before(AddDays(anchor, interval * m), AddDays(anchor, interval * n)) <==> m < n
  {
    hide FromDayNumber, DayNumber, Before, Cadence.Nth;
    var a, b := interval * m, interval * n;
    Multiples(DayNumber(anchor), interval, m, n);
    FromDayNumberInverts(DayNumber(anchor) + a);
    FromDayNumberInverts(DayNumber(anchor) + b);
    AddDaysLaws(anchor, a, b);
  }
}
