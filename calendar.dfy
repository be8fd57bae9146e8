/**
 * Date arithmetic of src/lib/database.ts:8-29 on naive calendar dates: `addDays`
 * (`setDate(getDate() + days)`), the `monthly` cadence (`setMonth(getMonth() + 1)`,
 * which overflows into the following month rather than clamping), and the month
 * arithmetic behind `new Date(year, month - k, 1)`.
 */
module Calendar {
  import opened Types

  // ---------------------------------------------------------------------------
  // Order

  /** The order `dueDate <= today` compares; IsoText.IsoOrderIsDateOrder shows it is the ISO string order. */
  predicate DateLt(a: Ymd, b: Ymd) {
    a.year < b.year
    || (a.year == b.year && (a.month < b.month || (a.month == b.month && a.day < b.day)))
  }

  predicate DateLe(a: Ymd, b: Ymd) {
    a == b || DateLt(a, b)
  }

  // ---------------------------------------------------------------------------
  // Day numbers: an independent linear count of days, used to state what the
  // arithmetic below does.

  function DaysInYear(year: int): int {
    if IsLeapYear(year) then 366 else 365
  }

  /** Days from 0000-01-01 to the first day of `year`. */
  function DaysBeforeYear(year: int): int
    decreases if year >= 0 then year else -year
  {
    if year == 0 then 0
    else if year > 0 then DaysBeforeYear(year - 1) + DaysInYear(year - 1)
    else DaysBeforeYear(year + 1) - DaysInYear(year)
  }

  /** Days from the first of the year to the first of `month`. */
  function DaysBeforeMonth(year: int, month: int): int
    requires 1 <= month <= 12
  {
    var common :=
      if month == 1 then 0 else if month == 2 then 31 else if month == 3 then 59
      else if month == 4 then 90 else if month == 5 then 120 else if month == 6 then 151
      else if month == 7 then 181 else if month == 8 then 212 else if month == 9 then 243
      else if month == 10 then 273 else if month == 11 then 304 else 334;
    common + if month > 2 && IsLeapYear(year) then 1 else 0
  }

  function DayNumber(d: Date): int {
    DaysBeforeYear(d.year) + DaysBeforeMonth(d.year, d.month) + d.day - 1
  }

  lemma DaysBeforeYearStep(year: int)
    ensures DaysBeforeYear(year + 1) == DaysBeforeYear(year) + DaysInYear(year)
  {
  }

  lemma MonthStep(year: int, month: int)
    requires 1 <= month <= 12
    ensures month < 12 ==> DaysBeforeMonth(year, month + 1) == DaysBeforeMonth(year, month) + DaysInMonth(year, month)
    ensures month == 12 ==> DaysBeforeMonth(year, 12) + 31 == DaysInYear(year)
  {
  }

  /** A later year starts after every day of an earlier year. */
  lemma {:induction false} DaysBeforeYearGrows(y1: int, y2: int)
    requires y1 < y2
    ensures DaysBeforeYear(y1) + DaysInYear(y1) <= DaysBeforeYear(y2)
    decreases y2 - y1
  {
    DaysBeforeYearStep(y1);
    if y1 + 1 < y2 {
      DaysBeforeYearGrows(y1 + 1, y2);
    }
  }

  /** A later month of the same year starts after every day of an earlier month. */
  lemma {:induction false} DaysBeforeMonthGrows(year: int, m1: int, m2: int)
    requires 1 <= m1 < m2 <= 12
    ensures DaysBeforeMonth(year, m1) + DaysInMonth(year, m1) <= DaysBeforeMonth(year, m2)
    decreases m2 - m1
  {
    MonthStep(year, m1);
    if m1 + 1 < m2 {
      DaysBeforeMonthGrows(year, m1 + 1, m2);
    }
  }

  lemma DayWithinYear(d: Date)
    ensures 0 <= DaysBeforeMonth(d.year, d.month) + d.day - 1 < DaysInYear(d.year)
  {
    if d.month < 12 {
      DaysBeforeMonthGrows(d.year, d.month, 12);
    }
    MonthStep(d.year, 12);
  }

  /** The tuple order on dates is the order of their day numbers. */
  lemma DayNumberOrder(a: Date, b: Date)
    ensures DateLt(a, b) <==> DayNumber(a) < DayNumber(b)
  {
    DayWithinYear(a);
    DayWithinYear(b);
    if a.year < b.year {
      DaysBeforeYearGrows(a.year, b.year);
    } else if b.year < a.year {
      DaysBeforeYearGrows(b.year, a.year);
    } else if a.month < b.month {
      DaysBeforeMonthGrows(a.year, a.month, b.month);
    } else if b.month < a.month {
      DaysBeforeMonthGrows(a.year, b.month, a.month);
    }
  }

  // ---------------------------------------------------------------------------
  // addDays, the monthly step, addCadence

  function NextDay(d: Date): (r: Date)
    ensures DayNumber(r) == DayNumber(d) + 1
  {
    MonthStep(d.year, d.month);
    DaysBeforeYearStep(d.year);
    if d.day < DaysInMonth(d.year, d.month) then Ymd(d.year, d.month, d.day + 1)
    else if d.month < 12 then Ymd(d.year, d.month + 1, 1)
    else Ymd(d.year + 1, 1, 1)
  }

  /** `addDays(dateStr, days)`: local-midnight `setDate(getDate() + days)`, read back as a date. */
  function AddDays(d: Date, days: nat): Date
    decreases days
  {
    if days == 0 then d else AddDays(NextDay(d), days - 1)
  }

  lemma {:induction false} AddDaysCount(d: Date, days: nat)
    ensures DayNumber(AddDays(d, days)) == DayNumber(d) + days
    decreases days
  {
    if days > 0 {
      AddDaysCount(NextDay(d), days - 1);
    }
  }

  /**
   * `setMonth(getMonth() + 1)`: same day number in the next month; a day the next
   * month lacks spills into the month after it (2024-01-31 gives 2024-03-02).
   */
  function AddMonth(d: Date): Date {
    var (y, m) := if d.month == 12 then (d.year + 1, 1) else (d.year, d.month + 1);
    if d.day <= DaysInMonth(y, m) then Ymd(y, m, d.day)
    else Ymd(y, m + 1, d.day - DaysInMonth(y, m))
  }

  /** The monthly step moves forward by exactly the length of the starting month. */
  lemma AddMonthCount(d: Date)
    ensures DayNumber(AddMonth(d)) == DayNumber(d) + DaysInMonth(d.year, d.month)
  {
    MonthStep(d.year, d.month);
    DaysBeforeYearStep(d.year);
    if d.month < 11 {
      MonthStep(d.year, d.month + 1);
    }
  }

  function CadenceDays(c: AutoPayCadence): nat
    requires !c.Monthly?
  {
    match c
    case OneDay => 1
    case SevenDays => 7
    case FifteenDays => 15
  }

  /** `addCadence(dateStr, cadence)`. */
  function AddCadence(d: Date, c: AutoPayCadence): Date {
    if c.Monthly? then AddMonth(d) else AddDays(d, CadenceDays(c))
  }

  /** '1d', '7d' and '15d' add exactly 1, 7 and 15 days; 'monthly' adds the length of the current month. */
  lemma AddCadenceCount(d: Date, c: AutoPayCadence)
    ensures c.Monthly? ==> DayNumber(AddCadence(d, c)) == DayNumber(d) + DaysInMonth(d.year, d.month)
    ensures !c.Monthly? ==> DayNumber(AddCadence(d, c)) == DayNumber(d) + CadenceDays(c)
  {
    if c.Monthly? {
      AddMonthCount(d);
    } else {
      AddDaysCount(d, CadenceDays(c));
    }
  }

  /** Every cadence step lands strictly later: the catch-up loop makes progress. */
  lemma AddCadenceLater(d: Date, c: AutoPayCadence)
    ensures DateLt(d, AddCadence(d, c))
    ensures DayNumber(d) < DayNumber(AddCadence(d, c))
  {
    AddCadenceCount(d, c);
    DayNumberOrder(d, AddCadence(d, c));
  }

  // ---------------------------------------------------------------------------
  // Months

  function MonthOf(d: Date): Month {
    YearMonth(d.year, d.month)
  }

  function MonthOrdinal(ym: YearMonth): int {
    ym.year * 12 + ym.month - 1
  }

  function MonthFromOrdinal(o: int): (ym: Month)
    ensures MonthOrdinal(ym) == o
  {
    YearMonth(o / 12, o % 12 + 1)
  }

  /** `new Date(year, month - 1 + delta, 1)` as a month: the month `delta` months after `ym`. */
  function ShiftMonth(ym: Month, delta: int): (r: Month)
    ensures MonthOrdinal(r) == MonthOrdinal(ym) + delta
  {
    MonthFromOrdinal(MonthOrdinal(ym) + delta)
  }

  lemma MonthOrdinalInjective(a: Month, b: Month)
    ensures MonthOrdinal(a) == MonthOrdinal(b) <==> a == b
  {
  }

  function FirstDay(ym: Month): Ymd {
    Ymd(ym.year, ym.month, 1)
  }

  /** The first of a month is on or before a date exactly when the month is not after the date's month. */
  lemma FirstDayOrder(ym: Month, d: Date)
    ensures DateLe(FirstDay(ym), d) <==> MonthOrdinal(ym) <= MonthOrdinal(MonthOf(d))
  {
  }

  /**
   * The half-open range of `getMonthRange` (first of the month up to the first of
   * the next month) holds exactly the dates of that month.
   */
  lemma MonthRangeIsMonth(ym: Month, d: Date)
    ensures (DateLe(FirstDay(ym), d) && DateLt(d, FirstDay(ShiftMonth(ym, 1)))) <==> MonthOf(d) == ym
  {
    FirstDayOrder(ym, d);
    FirstDayOrder(ShiftMonth(ym, 1), d);
    MonthOrdinalInjective(MonthOf(d), ym);
  }
}
