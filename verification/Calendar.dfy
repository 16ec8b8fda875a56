/** The Gregorian calendar. */
module Calendar {
  datatype Date = Date(year: int, month: nat, day: nat)

  predicate IsLeap(year: int) { year % 4 == 0 && (year % 100 != 0 || year % 400 == 0) }

  function DaysIn(year: int, month: nat): nat {
    if month == 2 then (if IsLeap(year) then 29 else 28)
    else if month in {4, 6, 9, 11} then 30 else 31
  }

  predicate ValidDate(d: Date) { 1 <= d.month <= 12 && 1 <= d.day <= DaysIn(d.year, d.month) }

  // ---- Day numbers ----

  /** Days before 1 January of a year, counted from year 0, in closed form. */
  function DaysBeforeYear(year: int): int { 365 * year + (year + 3) / 4 - (year + 99) / 100 + (year + 399) / 400 }

  /** Days before the first of a month: the year counts from March, five months to 153 days. */
  function DaysBeforeMonth(year: int, month: nat): int
    requires 1 <= month <= 12
  {
    if month <= 2 then DaysBeforeYear(year) + 31 * (month - 1)
    else DaysBeforeYear(year + 1) - 306 + (153 * (month - 3) + 2) / 5
  }

  /** The number of a date, 30 December 1899 being zero. */
  function DayNumber(d: Date): int
    requires 1 <= d.month <= 12
  {
    DaysBeforeMonth(d.year, d.month) + d.day - 693_960
  }

  lemma Fourth(y: int)
    ensures (y + 1 + 3) / 4 - (y + 3) / 4 == if y % 4 == 0 then 1 else 0
  {
  }

  lemma Hundredth(y: int)
    ensures (y + 1 + 99) / 100 - (y + 99) / 100 == if y % 100 == 0 then 1 else 0
  {
  }

  lemma FourHundredth(y: int)
    ensures (y + 1 + 399) / 400 - (y + 399) / 400 == if y % 400 == 0 then 1 else 0
  {
  }

  /** Every fourth year is a leap year, but of the centuries only every fourth. */
  lemma LeapDays(year: int)
    ensures DaysBeforeYear(year + 1) - DaysBeforeYear(year) == if IsLeap(year) then 366 else 365
  {
    Fourth(year);
    Hundredth(year);
    FourHundredth(year);
    CenturiesDivide(year);
  }

  lemma CenturiesDivide(y: int)
    ensures y % 400 == 0 ==> y % 100 == 0
    ensures y % 100 == 0 ==> y % 4 == 0
  {
  }

  lemma FromMarch(month: nat)
    requires 3 <= month <= 12
    ensures (153 * (month - 3) + 2) / 5 == [0, 31, 61, 92, 122, 153, 184, 214, 245, 275][month - 3]
  {
  }

  lemma MonthLength(year: int, month: nat)
    requires 3 <= month < 12
    ensures DaysBeforeMonth(year, month + 1) - DaysBeforeMonth(year, month) == DaysIn(year, month)
  {
    FromMarch(month);
    FromMarch(month + 1);
  }

  lemma WinterLength(year: int)
    ensures DaysBeforeMonth(year, 2) - DaysBeforeMonth(year, 1) == DaysIn(year, 1)
    ensures DaysBeforeMonth(year, 3) - DaysBeforeMonth(year, 2) == DaysIn(year, 2)
    ensures DaysBeforeMonth(year + 1, 1) - DaysBeforeMonth(year, 12) == DaysIn(year, 12)
  {
    LeapDays(year);
    FromMarch(3);
    FromMarch(12);
  }

  /** A date is valid exactly when its number lies between those of the firsts of its month and of the next. */
  lemma ValidDateIff(d: Date)
    ensures ValidDate(d) <==>
              && 1 <= d.month <= 12 && 1 <= d.day
              && DayNumber(d) < (if d.month < 12 then DayNumber(Date(d.year, d.month + 1, 1))
                                 else DayNumber(Date(d.year + 1, 1, 1)))
  {
    WinterLength(d.year);
    if 3 <= d.month < 12 {
      MonthLength(d.year, d.month);
    }
  }
}
