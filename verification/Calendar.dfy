/** The proleptic Gregorian calendar, as a bijection between valid dates and day numbers. */
module Calendar {
  datatype Date = Date(year: nat, month: nat, day: nat)

  predicate IsLeap(year: nat) {
    year % 4 == 0 && (year % 100 != 0 || year % 400 == 0)
  }

  function YearLength(year: nat): nat {
    if IsLeap(year) then 366 else 365
  }

  /** The number of the first day of the year; day 0 is 0000-01-01. */
  function DaysBeforeYear(year: nat): nat {
    if year == 0 then 0 else DaysBeforeYear(year - 1) + YearLength(year - 1)
  }

  function MonthLength(month: nat, leap: bool): nat {
    if month == 2 then (if leap then 29 else 28)
    else if month in {4, 6, 9, 11} then 30
    else 31
  }

  function DaysBeforeMonth(month: nat, leap: bool): nat
    requires 1 <= month
  {
    if month == 1 then 0 else DaysBeforeMonth(month - 1, leap) + MonthLength(month - 1, leap)
  }

  predicate Valid(date: Date) {
    && 1 <= date.month <= 12
    && 1 <= date.day <= MonthLength(date.month, IsLeap(date.year))
  }

  function DayNumber(date: Date): nat
    requires Valid(date)
  {
    DaysBeforeYear(date.year) + DaysBeforeMonth(date.month, IsLeap(date.year)) + date.day - 1
  }

  function YearFrom(day: nat, year: nat): (y: nat)
    requires DaysBeforeYear(year) <= day
    ensures DaysBeforeYear(y) <= day < DaysBeforeYear(y + 1)
    decreases day - DaysBeforeYear(year)
  {
    if day < DaysBeforeYear(year + 1) then year else YearFrom(day, year + 1)
  }

  function MonthFrom(day: nat, leap: bool, month: nat): (m: nat)
    requires 1 <= month <= 12 && DaysBeforeMonth(month, leap) <= day < DaysBeforeMonth(13, leap)
    ensures 1 <= m <= 12 && DaysBeforeMonth(m, leap) <= day < DaysBeforeMonth(m + 1, leap)
    decreases 12 - month
  {
    if day < DaysBeforeMonth(month + 1, leap) then month else MonthFrom(day, leap, month + 1)
  }

  lemma MonthsFillTheYear(year: nat)
    ensures DaysBeforeMonth(13, IsLeap(year)) == YearLength(year)
  {
    var leap := IsLeap(year);
    assert DaysBeforeMonth(2, leap) == 31;
    assert DaysBeforeMonth(3, leap) == 31 + MonthLength(2, leap);
    assert DaysBeforeMonth(5, leap) == DaysBeforeMonth(3, leap) + 61;
    assert DaysBeforeMonth(7, leap) == DaysBeforeMonth(5, leap) + 61;
    assert DaysBeforeMonth(9, leap) == DaysBeforeMonth(7, leap) + 62;
    assert DaysBeforeMonth(11, leap) == DaysBeforeMonth(9, leap) + 61;
    assert DaysBeforeMonth(13, leap) == DaysBeforeMonth(11, leap) + 61;
  }

  function DateOf(day: nat): (date: Date)
    ensures Valid(date) && DayNumber(date) == day
  {
    var year := YearFrom(day, 0);
    var rest := day - DaysBeforeYear(year);
    MonthsFillTheYear(year);
    var month := MonthFrom(rest, IsLeap(year), 1);
    Date(year, month, rest - DaysBeforeMonth(month, IsLeap(year)) + 1)
  }

  /** Each month's first day of the year, in closed form. */
  lemma MonthsInClosedForm(month: nat, leap: bool)
    requires 1 <= month <= 12
    ensures DaysBeforeMonth(month, leap) == 275 * month / 9 - (if leap then 1 else 2) * ((month + 9) / 12) - 30
  {
    if month > 1 {
      MonthsInClosedForm(month - 1, leap);
    }
  }

  lemma {:induction false} YearsGrow(a: nat, b: nat)
    requires a < b
    ensures DaysBeforeYear(a + 1) <= DaysBeforeYear(b)
  {
    if a + 1 < b {
      YearsGrow(a, b - 1);
    }
  }

  lemma {:induction false} MonthsGrow(a: nat, b: nat, leap: bool)
    requires 1 <= a < b
    ensures DaysBeforeMonth(a + 1, leap) <= DaysBeforeMonth(b, leap)
  {
    if a + 1 < b {
      MonthsGrow(a, b - 1, leap);
    }
  }

  lemma DayWithinYear(date: Date)
    requires Valid(date)
    ensures DaysBeforeYear(date.year) <= DayNumber(date) < DaysBeforeYear(date.year + 1)
  {
    MonthsFillTheYear(date.year);
    if date.month < 12 {
      MonthsGrow(date.month, 13, IsLeap(date.year));
    }
  }

  /** A day number belongs to one valid date only, leap years included. */
  lemma DateIsUnique(a: Date, b: Date)
    requires Valid(a) && Valid(b) && DayNumber(a) == DayNumber(b)
    ensures a == b
  {
    DayWithinYear(a);
    DayWithinYear(b);
    if a.year < b.year {
      YearsGrow(a.year, b.year);
    } else if b.year < a.year {
      YearsGrow(b.year, a.year);
    }
    var leap := IsLeap(a.year);
    if a.month < b.month {
      MonthsGrow(a.month, b.month, leap);
    } else if b.month < a.month {
      MonthsGrow(b.month, a.month, leap);
    }
  }

  lemma MultipleIsFar(m: nat, d: int)
    ensures d >= 1 ==> m * d >= m
    ensures d <= -1 ==> m * d + m <= 0
  {
  }

  lemma QuotientIs(n: nat, m: nat, q: nat, r: nat)
    requires n == m * q + r && r < m
    ensures n / m == q && n % m == r
  {
    var d := q - n / m;
    assert m * d == n % m - r;
    MultipleIsFar(m, d);
  }

  /** The multiples of `m` below `year + 1`, counted with and without `year` itself. */
  lemma MultiplesStep(year: nat, m: nat)
    requires m > 1
    ensures (year + m) / m == (year + m - 1) / m + (if year % m == 0 then 1 else 0)
  {
    var q, r := year / m, year % m;
    assert year == m * q + r;
    QuotientIs(year + m, m, q + 1, r);
    if r == 0 {
      QuotientIs(year + m - 1, m, q, m - 1);
    } else {
      QuotientIs(year + m - 1, m, q + 1, r - 1);
    }
  }

  lemma MultiplesNested(year: nat)
    ensures year % 400 == 0 ==> year % 100 == 0
    ensures year % 100 == 0 ==> year % 4 == 0
  {
    if year % 400 == 0 {
      QuotientIs(year, 100, 4 * (year / 400), 0);
    }
    if year % 100 == 0 {
      QuotientIs(year, 4, 25 * (year / 100), 0);
    }
  }

  /** The usual count of the leap years before a year. */
  function LeapYearsBefore(year: nat): int {
    (year + 3) / 4 - (year + 99) / 100 + (year + 399) / 400
  }

  lemma LeapYearsStep(year: nat)
    ensures LeapYearsBefore(year + 1) == LeapYearsBefore(year) + (if IsLeap(year) then 1 else 0)
  {
    MultiplesStep(year, 4);
    MultiplesStep(year, 100);
    MultiplesStep(year, 400);
    MultiplesNested(year);
  }

  /** The usual count agrees with the year-by-year definition. */
  lemma {:induction false} YearsInClosedForm(year: nat)
    ensures DaysBeforeYear(year) == 365 * year + LeapYearsBefore(year)
  {
    if year > 0 {
      YearsInClosedForm(year - 1);
      LeapYearsStep(year - 1);
    }
  }
}
