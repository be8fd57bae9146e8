/** Row shapes of the ledger (src/types/index.ts) and the naive calendar date they use. */
module Types {

  datatype Option<+T> = None | Some(value: T)

  /** A calendar date with no time and no time zone: the `YYYY-MM-DD` strings the ledger stores. */
  datatype Ymd = Ymd(year: int, month: int, day: int)

  function DaysInMonth(year: int, month: int): (n: int)
    ensures 28 <= n <= 31
  {
    if month == 2 then (if IsLeapYear(year) then 29 else 28)
    else if month == 4 || month == 6 || month == 9 || month == 11 then 30
    else 31
  }

  /** Gregorian leap-year rule, as the JavaScript `Date` object applies it. */
  predicate IsLeapYear(year: int) {
    year % 4 == 0 && (year % 100 != 0 || year % 400 == 0)
  }

  /** A real calendar day; years before 0000 are not written by `toISOString` as `YYYY`. */
  predicate ValidYmd(d: Ymd) {
    0 <= d.year && 1 <= d.month <= 12 && 1 <= d.day <= DaysInMonth(d.year, d.month)
  }

  /** A date that exists in the calendar. */
  type Date = d: Ymd | ValidYmd(d) witness Ymd(2024, 1, 1)

  /** A calendar month, the value behind a `YYYY-MM` month key. */
  datatype YearMonth = YearMonth(year: int, month: int)

  type Month = ym: YearMonth | 1 <= ym.month <= 12 witness YearMonth(2024, 1)

  /** 'income' | 'expense' | 'autopay' */
  datatype FinanceKind = Income | Expense | Autopay

  /** '1d' | '7d' | '15d' | 'monthly' */
  datatype AutoPayCadence = OneDay | SevenDays | FifteenDays | Monthly

  /** A row of `finance_entries`; `created_at` is not kept (insertion order is the id order). */
  datatype FinanceEntry = FinanceEntry(
    id: nat,
    owner: string,
    kind: FinanceKind,
    title: string,
    amount: real,
    category: string,
    date: Date,
    sourceKey: Option<string>)

  /** A row of `goals`. */
  datatype GoalItem = GoalItem(
    id: nat,
    owner: string,
    name: string,
    currentAmount: real,
    targetAmount: real,
    targetDate: Option<string>)

  /** A row of `budgets`, unique per (owner, month). */
  datatype Budget = Budget(id: nat, owner: string, month: Month, amount: real)

  /** A row of `autopay_plans`; `active` is the 0/1 column. */
  datatype AutoPayPlan = AutoPayPlan(
    id: nat,
    owner: string,
    title: string,
    amount: real,
    cadence: AutoPayCadence,
    startDate: Date,
    nextPaymentDate: Date,
    active: bool)
}
