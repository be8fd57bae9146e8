/**
 * The aggregate reads of src/lib/database.ts as functions over the rows of
 * `finance_entries` and `budgets`: the `SUM(amount)` queries of `getFinanceSummary`
 * (:586-592), `getAvailableMoney` (:619-631), `getMonthlyTotals` (:643-649) and
 * `getBudgetOverview` (:546-572), and the arithmetic of `getDynamicScore` (:674-691).
 */
module Aggregates {
  import opened Types
  import opened Calendar

  // ---------------------------------------------------------------------------
  // SUM(amount) ... WHERE ...

  /**
   * The WHERE clause of an aggregate over `finance_entries`: owner, kind, an
   * optional `entry_date >= from`, an optional `entry_date < before`, and an
   * optional month group (`strftime('%Y-%m', entry_date) = month`).
   */
  datatype Selector = Selector(
    owner: string,
    kind: FinanceKind,
    from: Option<Ymd>,
    before: Option<Ymd>,
    month: Option<Month>)

  predicate Selects(s: Selector, e: FinanceEntry) {
    && e.owner == s.owner
    && e.kind == s.kind
    && (s.from.None? || DateLe(s.from.value, e.date))
    && (s.before.None? || DateLt(e.date, s.before.value))
    && (s.month.None? || MonthOf(e.date) == s.month.value)
  }

  /** `COALESCE(SUM(amount), 0)` over the selected rows. */
  function Total(es: seq<FinanceEntry>, s: Selector): real
    decreases |es|
  {
    if es == [] then 0.0
    else
      var e := es[|es| - 1];
      Total(es[..|es| - 1], s) + (if Selects(s, e) then e.amount else 0.0)
  }

  lemma TotalAppend(es: seq<FinanceEntry>, e: FinanceEntry, s: Selector)
    ensures Total(es + [e], s) == Total(es, s) + (if Selects(s, e) then e.amount else 0.0)
  {
    assert (es + [e])[..|es|] == es;
  }

  /** Two WHERE clauses that pick the same rows give the same sum. */
  lemma {:induction false} TotalSameRows(es: seq<FinanceEntry>, s1: Selector, s2: Selector)
    requires forall e :: e in es ==> (Selects(s1, e) <==> Selects(s2, e))
    ensures Total(es, s1) == Total(es, s2)
    decreases |es|
  {
    if es != [] {
      var n := |es| - 1;
      assert forall e :: e in es[..n] ==> e in es;
      TotalSameRows(es[..n], s1, s2);
    }
  }

  /** A sum over no selected rows is 0 (`COALESCE(..., 0)` and the `?? 0` fallbacks). */
  lemma {:induction false} TotalOfNoRows(es: seq<FinanceEntry>, s: Selector)
    requires forall e :: e in es ==> !Selects(s, e)
    ensures Total(es, s) == 0.0
    decreases |es|
  {
    if es != [] {
      var n := |es| - 1;
      assert forall e :: e in es[..n] ==> e in es;
      TotalOfNoRows(es[..n], s);
    }
  }

  /** With non-negative amounts, a sum is non-negative. */
  lemma {:induction false} TotalNonNegative(es: seq<FinanceEntry>, s: Selector)
    requires forall e :: e in es ==> e.amount >= 0.0
    ensures Total(es, s) >= 0.0
    decreases |es|
  {
    if es != [] {
      var n := |es| - 1;
      assert forall e :: e in es[..n] ==> e in es;
      TotalNonNegative(es[..n], s);
    }
  }

  /** The rows of one owner, one kind, all dates. */
  function Lifetime(owner: string, kind: FinanceKind): Selector {
    Selector(owner, kind, None, None, None)
  }

  /** The rows of one owner and kind in month `ym`. */
  function InMonth(owner: string, kind: FinanceKind, ym: Month): Selector {
    Selector(owner, kind, None, None, Some(ym))
  }

  // ---------------------------------------------------------------------------
  // getFinanceSummary

  /** `entry_date >= range.start AND entry_date < range.end` for the `getMonthRange` of `current`. */
  function CurrentMonthRange(owner: string, kind: FinanceKind, current: Month): Selector {
    Selector(owner, kind, Some(FirstDay(current)), Some(FirstDay(ShiftMonth(current, 1))), None)
  }

  /** The month range selects exactly the entries of the current calendar month. */
  lemma CurrentMonthRangeIsMonth(es: seq<FinanceEntry>, owner: string, kind: FinanceKind, current: Month)
    ensures Total(es, CurrentMonthRange(owner, kind, current)) == Total(es, InMonth(owner, kind, current))
  {
    forall e | e in es
      ensures Selects(CurrentMonthRange(owner, kind, current), e) <==> Selects(InMonth(owner, kind, current), e)
    {
      MonthRangeIsMonth(current, e.date);
    }
    TotalSameRows(es, CurrentMonthRange(owner, kind, current), InMonth(owner, kind, current));
  }

  predicate AnySelected(es: seq<FinanceEntry>, s: Selector) {
    exists e :: e in es && Selects(s, e)
  }

  /**
   * The rows of `SELECT kind, SUM(amount) ... GROUP BY kind`: one row for each kind
   * that has entries in the range (in the text order of the kind names).
   */
  function SummaryRows(es: seq<FinanceEntry>, owner: string, current: Month): (rows: seq<(FinanceKind, real)>)
    ensures forall i, j :: 0 <= i < j < |rows| ==> rows[i].0 != rows[j].0
    ensures forall i :: 0 <= i < |rows| ==> rows[i].1 == Total(es, CurrentMonthRange(owner, rows[i].0, current))
  {
    (if AnySelected(es, CurrentMonthRange(owner, Autopay, current)) then [(Autopay, Total(es, CurrentMonthRange(owner, Autopay, current)))] else [])
    + (if AnySelected(es, CurrentMonthRange(owner, Expense, current)) then [(Expense, Total(es, CurrentMonthRange(owner, Expense, current)))] else [])
    + (if AnySelected(es, CurrentMonthRange(owner, Income, current)) then [(Income, Total(es, CurrentMonthRange(owner, Income, current)))] else [])
  }

  /** Every kind with rows in the range has a group row. */
  lemma SummaryRowsCoverKinds(es: seq<FinanceEntry>, owner: string, current: Month, k: FinanceKind)
    requires AnySelected(es, CurrentMonthRange(owner, k, current))
    ensures exists i :: 0 <= i < |SummaryRows(es, owner, current)| && SummaryRows(es, owner, current)[i].0 == k
  {
    var rows := SummaryRows(es, owner, current);
    var a := if AnySelected(es, CurrentMonthRange(owner, Autopay, current)) then 1 else 0;
    var e := if AnySelected(es, CurrentMonthRange(owner, Expense, current)) then 1 else 0;
    match k
    case Autopay => assert rows[0].0 == k;
    case Expense => assert rows[a].0 == k;
    case Income => assert rows[a + e].0 == k;
  }

  /** A kind without a group row has total 0, so `totals[kind]` keeping its 0 is the sum. */
  lemma MissingRowMeansZero(es: seq<FinanceEntry>, owner: string, kind: FinanceKind, current: Month)
    requires !AnySelected(es, CurrentMonthRange(owner, kind, current))
    ensures Total(es, CurrentMonthRange(owner, kind, current)) == 0.0
  {
    TotalOfNoRows(es, CurrentMonthRange(owner, kind, current));
  }

  /** The value `getFinanceSummary` returns (the month is its index, not its locale name). */
  datatype FinanceSummary = FinanceSummary(month: Month, income: real, expense: real, autopay: real, savings: real)

  function Max0(x: real): (r: real)
    ensures r >= 0.0 && r >= x && (r == x || r == 0.0)
  {
    if x > 0.0 then x else 0.0
  }

  // ---------------------------------------------------------------------------
  // getAvailableMoney

  /** `SUM(CASE WHEN kind = 'income' THEN amount ELSE -amount END)` over the owner's rows. */
  function AvailableMoney(es: seq<FinanceEntry>, owner: string): real
    decreases |es|
  {
    if es == [] then 0.0
    else
      var e := es[|es| - 1];
      AvailableMoney(es[..|es| - 1], owner)
      + (if e.owner != owner then 0.0 else if e.kind == Income then e.amount else -e.amount)
  }

  /** The available balance is lifetime income minus lifetime expenses minus lifetime autopay. */
  lemma {:induction false} AvailableMoneyByKind(es: seq<FinanceEntry>, owner: string)
    ensures AvailableMoney(es, owner)
      == Total(es, Lifetime(owner, Income)) - Total(es, Lifetime(owner, Expense)) - Total(es, Lifetime(owner, Autopay))
    decreases |es|
  {
    if es != [] {
      AvailableMoneyByKind(es[..|es| - 1], owner);
    }
  }

  // ---------------------------------------------------------------------------
  // getMonthlyTotals

  /** `getSixMonthStart`: the first day of the month five months before `current`. */
  function SixMonthStart(current: Month): Ymd {
    FirstDay(ShiftMonth(current, -5))
  }

  /** The `GROUP BY ym` row of month `ym` in the query `... AND entry_date >= start`. */
  function WindowedMonth(owner: string, kind: FinanceKind, current: Month, ym: Month): Selector {
    Selector(owner, kind, Some(SixMonthStart(current)), None, Some(ym))
  }

  /** One element of the `getMonthlyTotals` result (the month instead of its short locale name). */
  datatype MonthTotal = MonthTotal(month: Month, total: real)

  /** The `i`-th output row for a request of `months` months: month `current - (months - 1 - i)`. */
  function MonthSlot(current: Month, months: nat, i: nat): Month {
    ShiftMonth(current, i - (months - 1))
  }

  /** The output months are consecutive and ascending, ending with the current month. */
  lemma MonthSlotsAscending(current: Month, months: nat, i: nat)
    requires i < months
    ensures i + 1 < months ==> ShiftMonth(MonthSlot(current, months, i), 1) == MonthSlot(current, months, i + 1)
    ensures i + 1 == months ==> MonthSlot(current, months, i) == current
  {
    if i + 1 < months {
      MonthOrdinalInjective(ShiftMonth(MonthSlot(current, months, i), 1), MonthSlot(current, months, i + 1));
    } else {
      MonthOrdinalInjective(MonthSlot(current, months, i), current);
    }
  }

  /** For the last six months the `entry_date >= start` window drops nothing: the totals are the month sums. */
  lemma WindowKeepsLastSixMonths(es: seq<FinanceEntry>, owner: string, kind: FinanceKind, current: Month, back: nat)
    requires back <= 5
    ensures Total(es, WindowedMonth(owner, kind, current, ShiftMonth(current, -(back as int))))
      == Total(es, InMonth(owner, kind, ShiftMonth(current, -(back as int))))
  {
    var ym := ShiftMonth(current, -(back as int));
    forall e | e in es
      ensures Selects(WindowedMonth(owner, kind, current, ym), e) <==> Selects(InMonth(owner, kind, ym), e)
    {
      FirstDayOrder(ShiftMonth(current, -5), e.date);
      MonthOrdinalInjective(MonthOf(e.date), ym);
    }
    TotalSameRows(es, WindowedMonth(owner, kind, current, ym), InMonth(owner, kind, ym));
  }

  /** Months older than the six-month window always read 0, whatever entries they have. */
  lemma WindowHidesOlderMonths(es: seq<FinanceEntry>, owner: string, kind: FinanceKind, current: Month, back: nat)
    requires back >= 6
    ensures Total(es, WindowedMonth(owner, kind, current, ShiftMonth(current, -(back as int)))) == 0.0
  {
    var ym := ShiftMonth(current, -(back as int));
    forall e | e in es
      ensures !Selects(WindowedMonth(owner, kind, current, ym), e)
    {
      FirstDayOrder(ShiftMonth(current, -5), e.date);
      MonthOrdinalInjective(MonthOf(e.date), ym);
    }
    TotalOfNoRows(es, WindowedMonth(owner, kind, current, ym));
  }

  // ---------------------------------------------------------------------------
  // getBudgetOverview

  /** The `UNIQUE(user_email, month_key)` constraint of `budgets`. */
  ghost predicate BudgetsUnique(bs: seq<Budget>) {
    forall i, j :: 0 <= i < j < |bs| ==> !(bs[i].owner == bs[j].owner && bs[i].month == bs[j].month)
  }

  /** `SELECT amount FROM budgets WHERE user_email = ? AND month_key = ? LIMIT 1`, `?? 0`. */
  function CurrentBudget(bs: seq<Budget>, owner: string, current: Month): (r: real)
    ensures (forall b :: b in bs ==> !(b.owner == owner && b.month == current)) ==> r == 0.0
    ensures (exists b :: b in bs && b.owner == owner && b.month == current) ==>
      exists b :: b in bs && b.owner == owner && b.month == current && r == b.amount
    decreases |bs|
  {
    if bs == [] then 0.0
    else if bs[0].owner == owner && bs[0].month == current then bs[0].amount
    else CurrentBudget(bs[1..], owner, current)
  }

  /** `COALESCE(SUM(amount), 0) FROM budgets WHERE user_email = ?`. */
  function TotalBudget(bs: seq<Budget>, owner: string): real
    decreases |bs|
  {
    if bs == [] then 0.0
    else TotalBudget(bs[..|bs| - 1], owner) + (if bs[|bs| - 1].owner == owner then bs[|bs| - 1].amount else 0.0)
  }

  /** What one budget row adds to `savingsToDate`: its amount less that month's expense-kind total. */
  function BudgetSaving(b: Budget, es: seq<FinanceEntry>): real {
    b.amount - Total(es, InMonth(b.owner, Expense, b.month))
  }

  /** `SUM(b.amount - COALESCE(e.total, 0))` of the LEFT JOIN of budgets with the monthly expense totals. */
  function SavingsToDate(bs: seq<Budget>, es: seq<FinanceEntry>, owner: string): real
    decreases |bs|
  {
    if bs == [] then 0.0
    else
      var b := bs[|bs| - 1];
      SavingsToDate(bs[..|bs| - 1], es, owner) + (if b.owner == owner then BudgetSaving(b, es) else 0.0)
  }

  /** The expenses of the budgeted months of an owner. */
  function BudgetedSpending(bs: seq<Budget>, es: seq<FinanceEntry>, owner: string): real
    decreases |bs|
  {
    if bs == [] then 0.0
    else
      var b := bs[|bs| - 1];
      BudgetedSpending(bs[..|bs| - 1], es, owner)
      + (if b.owner == owner then Total(es, InMonth(owner, Expense, b.month)) else 0.0)
  }

  /** The value `getBudgetOverview` returns. */
  datatype BudgetOverview = BudgetOverview(currentMonth: Month, currentBudget: real, totalBudget: real, savingsToDate: real)

  /** Savings to date are the total budget less the expenses of budgeted months, with no clamping. */
  lemma {:induction false} SavingsAreBudgetLessBudgetedSpending(bs: seq<Budget>, es: seq<FinanceEntry>, owner: string)
    ensures SavingsToDate(bs, es, owner) == TotalBudget(bs, owner) - BudgetedSpending(bs, es, owner)
    decreases |bs|
  {
    if bs != [] {
      SavingsAreBudgetLessBudgetedSpending(bs[..|bs| - 1], es, owner);
    }
  }

  /** A new expense in a month the owner has no budget for leaves the savings unchanged. */
  lemma {:induction false} UnbudgetedExpenseIgnored(bs: seq<Budget>, es: seq<FinanceEntry>, owner: string, e: FinanceEntry)
    requires forall b :: b in bs && b.owner == owner ==> b.month != MonthOf(e.date)
    ensures SavingsToDate(bs, es + [e], owner) == SavingsToDate(bs, es, owner)
    decreases |bs|
  {
    if bs != [] {
      var b := bs[|bs| - 1];
      assert forall x :: x in bs[..|bs| - 1] ==> x in bs;
      UnbudgetedExpenseIgnored(bs[..|bs| - 1], es, owner, e);
      TotalAppend(es, e, InMonth(b.owner, Expense, b.month));
    }
  }

  /** A new expense of amount `a` in a budgeted month lowers the savings by exactly `a`. */
  lemma {:induction false} BudgetedExpenseCounted(bs: seq<Budget>, es: seq<FinanceEntry>, owner: string, e: FinanceEntry, i: nat)
    requires BudgetsUnique(bs)
    requires i < |bs| && bs[i].owner == owner && bs[i].month == MonthOf(e.date)
    requires e.owner == owner && e.kind == Expense
    ensures SavingsToDate(bs, es + [e], owner) == SavingsToDate(bs, es, owner) - e.amount
    decreases |bs|
  {
    var n := |bs| - 1;
    var b := bs[n];
    TotalAppend(es, e, InMonth(b.owner, Expense, b.month));
    if i < n {
      assert bs[..n][i] == bs[i];
      BudgetedExpenseCounted(bs[..n], es, owner, e, i);
    } else {
      assert forall x :: x in bs[..n] && x.owner == owner ==> x.month != MonthOf(e.date) by {
        forall x | x in bs[..n] && x.owner == owner
          ensures x.month != MonthOf(e.date)
        {
          var j :| 0 <= j < n && bs[..n][j] == x;
          assert bs[j] == x;
        }
      }
      UnbudgetedExpenseIgnored(bs[..n], es, owner, e);
    }
  }

  // ---------------------------------------------------------------------------
  // getDynamicScore

  /** `series.reduce((sum, row) => sum + row.total, 0)`. */
  function SeriesSum(s: seq<real>): real
    decreases |s|
  {
    if s == [] then 0.0 else SeriesSum(s[..|s| - 1]) + s[|s| - 1]
  }

  /** The number of months whose income covers that month's expense and autopay. */
  function PositiveMonths(inc: seq<real>, exp: seq<real>, aut: seq<real>): (n: nat)
    requires |exp| == |inc| && |aut| == |inc|
    ensures n <= |inc|
    decreases |inc|
  {
    if inc == [] then 0
    else
      var k := |inc| - 1;
      PositiveMonths(inc[..k], exp[..k], aut[..k]) + (if inc[k] - (exp[k] + aut[k]) >= 0.0 then 1 else 0)
  }

  function SavingsRate(income: real, outflow: real): real
    requires income > 0.0
  {
    Max0((income - outflow) / income)
  }

  function ExpenseRatio(income: real, outflow: real): real
    requires income > 0.0
  {
    outflow / income
  }

  function Consistency(inc: seq<real>, exp: seq<real>, aut: seq<real>): (c: real)
    requires |exp| == |inc| && |aut| == |inc| && |inc| > 0
    ensures 0.0 <= c <= 1.0
  {
    (PositiveMonths(inc, exp, aut) as real) / (|inc| as real)
  }

  function RawScore(savingsRate: real, consistency: real, expenseRatio: real): real {
    540.0 + savingsRate * 180.0 + consistency * 100.0 - expenseRatio * 70.0
  }

  /** `Math.round`: the nearest integer, halves rounded up. */
  function Round(x: real): (r: int)
    ensures x - 0.5 < r as real <= x + 0.5
  {
    (x + 0.5).Floor
  }

  /** `Math.max(300, Math.min(850, n))`. */
  function ClampScore(n: int): (r: int)
    ensures 300 <= r <= 850
    ensures 300 <= n <= 850 ==> r == n
    ensures n < 300 ==> r == 300
    ensures n > 850 ==> r == 850
  {
    if n < 300 then 300 else if n > 850 then 850 else n
  }

  /** The score `getDynamicScore` derives from the three monthly series. */
  function Score(inc: seq<real>, exp: seq<real>, aut: seq<real>): (r: int)
    requires |exp| == |inc| && |aut| == |inc|
    ensures 300 <= r <= 850
    ensures SeriesSum(inc) <= 0.0 ==> r == 500
  {
    var income := SeriesSum(inc);
    var outflow := SeriesSum(exp) + SeriesSum(aut);
    if income <= 0.0 then 500
    else
      assert |inc| > 0;
      ClampScore(Round(RawScore(SavingsRate(income, outflow), Consistency(inc, exp, aut), ExpenseRatio(income, outflow))))
  }

  lemma MulStrict(x: real, y: real, b: real)
    requires b > 0.0
    ensures x < y ==> x * b < y * b
  {
  }

  /** Multiplying by a positive factor reflects order. */
  lemma MulMono(x: real, y: real, b: real)
    requires b > 0.0 && x * b <= y * b
    ensures x <= y
  {
    MulStrict(y, x, b);
  }

  /** The quotient by a positive `b` is the one number whose product with `b` gives back `x`. */
  lemma DivUnique(x: real, b: real, z: real)
    requires b > 0.0 && z * b == x
    ensures x / b == z
  {
    var w := x / b;
    assert w * b == x;
    MulStrict(w, z, b);
    MulStrict(z, w, b);
  }

  /** `a / b` for a positive `b`, bounded from both sides by how `a` compares with `b`. */
  lemma RatioBounds(a: real, b: real)
    requires b > 0.0
    ensures 0.0 <= a ==> 0.0 <= a / b
    ensures a <= b ==> a / b <= 1.0
    ensures a >= 5.0 * b ==> a / b >= 5.0
    ensures (b - a) / b == 1.0 - a / b
  {
    var q := a / b;
    assert q * b == a;
    if 0.0 <= a {
      assert 0.0 * b <= q * b;
      MulMono(0.0, q, b);
    }
    if a <= b {
      assert q * b <= 1.0 * b;
      MulMono(q, 1.0, b);
    }
    if a >= 5.0 * b {
      assert 5.0 * b <= q * b;
      MulMono(5.0, q, b);
    }
    var z := 1.0 - q;
    assert z * b == b - q * b;
    DivUnique(b - a, b, z);
  }

  /** The savings rate is never negative, and is at most 1 when the outflow is not negative. */
  lemma SavingsRateBounds(income: real, outflow: real)
    requires income > 0.0
    ensures SavingsRate(income, outflow) >= 0.0
    ensures outflow >= 0.0 ==> SavingsRate(income, outflow) <= 1.0
  {
    RatioBounds(outflow, income);
  }

  /** While the outflow stays within the income, the score is not clamped and lies in [470, 820]. */
  lemma SolventScoreRange(inc: seq<real>, exp: seq<real>, aut: seq<real>)
    requires |exp| == |inc| && |aut| == |inc|
    requires SeriesSum(inc) > 0.0
    requires 0.0 <= SeriesSum(exp) + SeriesSum(aut) <= SeriesSum(inc)
    ensures 470 <= Score(inc, exp, aut) <= 820
  {
    var income := SeriesSum(inc);
    var outflow := SeriesSum(exp) + SeriesSum(aut);
    RatioBounds(outflow, income);
    var e := ExpenseRatio(income, outflow);
    var c := Consistency(inc, exp, aut);
    assert SavingsRate(income, outflow) == 1.0 - e;
    var raw := RawScore(1.0 - e, c, e);
    assert 470.0 <= raw <= 820.0;
  }

  /** An outflow of five times the income or more pins the score to the floor of 300. */
  lemma OverspendingScoresFloor(inc: seq<real>, exp: seq<real>, aut: seq<real>)
    requires |exp| == |inc| && |aut| == |inc|
    requires SeriesSum(inc) > 0.0
    requires SeriesSum(exp) + SeriesSum(aut) >= 5.0 * SeriesSum(inc)
    ensures Score(inc, exp, aut) == 300
  {
    var income := SeriesSum(inc);
    var outflow := SeriesSum(exp) + SeriesSum(aut);
    RatioBounds(outflow, income);
    var e := ExpenseRatio(income, outflow);
    var c := Consistency(inc, exp, aut);
    assert SavingsRate(income, outflow) == 0.0;
    assert RawScore(0.0, c, e) <= 290.0;
  }
}
