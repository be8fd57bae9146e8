/**
 * The ledger store of src/lib/database.ts: the four per-user tables as fields of
 * one object, each exported operation as a method (statements that write) or a
 * function or read-only method (queries). The clock is a parameter: `today` stands
 * for `getToday()` and `current` for the month of `new Date()`.
 */
module LedgerStore {
  import opened Types
  import opened Calendar
  import opened IsoText
  import opened Ordering
  import opened Autopay
  import opened Aggregates
  import opened Tables

  /** The three per-kind totals of `getFinanceSummary`, filled row by row. */
  datatype KindTotals = KindTotals(income: real, expense: real, autopay: real) {
    function Get(k: FinanceKind): real {
      match k
      case Income => income
      case Expense => expense
      case Autopay => autopay
    }

    /** `totals[row.kind] = row.total`. */
    function Set(k: FinanceKind, v: real): (t: KindTotals)
      ensures t.Get(k) == v
      ensures forall k' :: k' != k ==> t.Get(k') == Get(k')
    {
      match k
      case Income => this.(income := v)
      case Expense => this.(expense := v)
      case Autopay => this.(autopay := v)
    }
  }

  /** The series `getMonthlyTotals(owner, kind)` returns with its default of six months, as totals. */
  function SixMonthSeries(es: seq<FinanceEntry>, owner: string, kind: FinanceKind, current: Month): (s: seq<real>)
    ensures |s| == 6
  {
    seq(6, t requires 0 <= t < 6 => Total(es, InMonth(owner, kind, MonthSlot(current, 6, t))))
  }

  /** `rowMap`: the `GROUP BY ym` rows of `getMonthlyTotals`, keyed by month. */
  function MonthRows(es: seq<FinanceEntry>, owner: string, kind: FinanceKind, current: Month): map<Month, real> {
    var window := Selector(owner, kind, Some(SixMonthStart(current)), None, None);
    map ym | ym in (set e | e in es && Selects(window, e) :: MonthOf(e.date))
      :: Total(es, WindowedMonth(owner, kind, current, ym))
  }

  /** `rowMap.get(key) ?? 0` is the windowed total of the month, whether or not the month has a row. */
  lemma MonthRowLookup(es: seq<FinanceEntry>, owner: string, kind: FinanceKind, current: Month, ym: Month)
    ensures (if ym in MonthRows(es, owner, kind, current) then MonthRows(es, owner, kind, current)[ym] else 0.0)
      == Total(es, WindowedMonth(owner, kind, current, ym))
  {
    var window := Selector(owner, kind, Some(SixMonthStart(current)), None, None);
    forall e | e in es && Selects(WindowedMonth(owner, kind, current, ym), e)
      ensures ym in MonthRows(es, owner, kind, current)
    {
      assert Selects(window, e);
      assert MonthOf(e.date) in (set x | x in es && Selects(window, x) :: MonthOf(x.date));
    }
    if ym !in MonthRows(es, owner, kind, current) {
      TotalOfNoRows(es, WindowedMonth(owner, kind, current, ym));
    }
  }

  /** The rows `getFinanceEntriesByKind` returns are the newest `limit` rows of one owner and kind, newest first. */
  lemma NewestRows(es: seq<FinanceEntry>, owner: string, kind: FinanceKind, limit: nat, r: seq<FinanceEntry>)
    requires r == Take(SortBy(EntriesOfKind(es, owner, kind), RecentFirst), limit)
    ensures |r| == if limit < |EntriesOfKind(es, owner, kind)| then limit else |EntriesOfKind(es, owner, kind)|
    ensures forall e :: e in r ==> e in es && e.owner == owner && e.kind == kind
    ensures SortedBy(r, RecentFirst)
    ensures forall x, y :: x in r && y in es && y.owner == owner && y.kind == kind && y !in r ==>
      KeyLe(RecentFirst(x), RecentFirst(y))
  {
    LimitKeepsSmallest(EntriesOfKind(es, owner, kind), RecentFirst, limit);
  }

  /** Those rows repeat no row of the table, and when its ids increase they repeat no id. */
  lemma NewestRowsOnce(es: seq<FinanceEntry>, owner: string, kind: FinanceKind, limit: nat, r: seq<FinanceEntry>)
    requires r == Take(SortBy(EntriesOfKind(es, owner, kind), RecentFirst), limit)
    ensures multiset(r) <= multiset(EntriesOfKind(es, owner, kind))
    ensures EntryIdsIncreasing(es) ==> EntryIdsDistinct(r)
  {
    var rows := EntriesOfKind(es, owner, kind);
    var sorted := SortBy(rows, RecentFirst);
    assert multiset(r) <= multiset(sorted) == multiset(rows) <= multiset(es);
    EntryIdsDistinctIn(es, r);
  }

  class Ledger {
    var entries: seq<FinanceEntry>
    var goals: seq<GoalItem>
    var budgets: seq<Budget>
    var plans: seq<AutoPayPlan>
    /** The AUTOINCREMENT counters: the id the next inserted row of each table gets. */
    var nextEntryId: nat
    var nextGoalId: nat
    var nextBudgetId: nat
    var nextPlanId: nat

    /** Every id is below its table's counter, plans and goals keep creation order, and budgets are unique per month. */
    ghost predicate Valid()
      reads this
    {
      && (forall e :: e in entries ==> e.id < nextEntryId)
      && (forall g :: g in goals ==> g.id < nextGoalId)
      && (forall b :: b in budgets ==> b.id < nextBudgetId)
      && (forall p :: p in plans ==> p.id < nextPlanId)
      && (forall i, j :: 0 <= i < j < |plans| ==> plans[i].id < plans[j].id)
      && EntryIdsIncreasing(entries)
      && GoalIdsIncreasing(goals)
      && BudgetsUnique(budgets)
    }

    /** `initDatabase` on a fresh database: empty tables, counters at 1. */
    constructor ()
      ensures Valid()
      ensures entries == [] && goals == [] && budgets == [] && plans == []
      ensures nextEntryId == 1 && nextGoalId == 1 && nextBudgetId == 1 && nextPlanId == 1
    {
      entries, goals, budgets, plans := [], [], [], [];
      nextEntryId, nextGoalId, nextBudgetId, nextPlanId := 1, 1, 1, 1;
    }

    // -------------------------------------------------------------------------
    // finance_entries

    /** `addFinanceEntry`: inserts one row and returns its new id (`entryDate` is passed explicitly). */
    method AddFinanceEntry(owner: string, kind: FinanceKind, title: string, amount: real, category: string,
                           date: Date, sourceKey: Option<string>) returns (id: nat)
      requires Valid()
      modifies this
      ensures Valid()
      ensures id == old(nextEntryId) && nextEntryId == id + 1
      ensures forall e :: e in old(entries) ==> e.id != id
      ensures entries == old(entries) + [FinanceEntry(id, owner, kind, title, amount, category, date, sourceKey)]
      ensures goals == old(goals) && budgets == old(budgets) && plans == old(plans)
      ensures nextGoalId == old(nextGoalId) && nextBudgetId == old(nextBudgetId) && nextPlanId == old(nextPlanId)
    {
      id := nextEntryId;
      entries := entries + [FinanceEntry(id, owner, kind, title, amount, category, date, sourceKey)];
      nextEntryId := nextEntryId + 1;
    }

    /** `getFinanceEntriesByKind`: the owner's rows of one kind, newest first, at most `limit` of them. */
    function GetFinanceEntriesByKind(owner: string, kind: FinanceKind, limit: nat): (r: seq<FinanceEntry>)
      reads this
      ensures |r| == if limit < |EntriesOfKind(entries, owner, kind)| then limit else |EntriesOfKind(entries, owner, kind)|
      ensures forall e :: e in r ==> e in entries && e.owner == owner && e.kind == kind
      ensures SortedBy(r, RecentFirst)
      ensures forall x, y :: x in r && y in entries && y.owner == owner && y.kind == kind && y !in r ==>
        KeyLe(RecentFirst(x), RecentFirst(y))
      ensures multiset(r) <= multiset(EntriesOfKind(entries, owner, kind))
      ensures EntryIdsIncreasing(entries) ==> EntryIdsDistinct(r)
    {
      var r := Take(SortBy(EntriesOfKind(entries, owner, kind), RecentFirst), limit);
      NewestRows(entries, owner, kind, limit, r);
      NewestRowsOnce(entries, owner, kind, limit, r);
      r
    }

    /** `deleteFinanceEntry`: removes the owner's row with that id; another owner's row is left alone. */
    method DeleteFinanceEntry(owner: string, entryId: nat)
      requires Valid()
      modifies this
      ensures Valid()
      ensures entries == WithoutEntry(old(entries), owner, entryId)
      ensures goals == old(goals) && budgets == old(budgets) && plans == old(plans)
      ensures nextEntryId == old(nextEntryId) && nextGoalId == old(nextGoalId)
      ensures nextBudgetId == old(nextBudgetId) && nextPlanId == old(nextPlanId)
    {
      entries := WithoutEntry(entries, owner, entryId);
    }

    /** `getAvailableMoney`: lifetime income less lifetime expense and autopay. */
    function GetAvailableMoney(owner: string): (r: real)
      reads this
      ensures r == Total(entries, Lifetime(owner, Income)) - Total(entries, Lifetime(owner, Expense))
        - Total(entries, Lifetime(owner, Autopay))
    {
      AvailableMoneyByKind(entries, owner);
      AvailableMoney(entries, owner)
    }

    /** `getFinanceSummary`: this month's totals per kind, folded from the `GROUP BY kind` rows. */
    method GetFinanceSummary(owner: string, current: Month) returns (s: FinanceSummary)
      ensures s.month == current
      ensures s.income == Total(entries, InMonth(owner, Income, current))
      ensures s.expense == Total(entries, InMonth(owner, Expense, current))
      ensures s.autopay == Total(entries, InMonth(owner, Autopay, current))
      ensures s.savings >= 0.0 && s.savings >= s.income - s.expense - s.autopay
      ensures s.savings == s.income - s.expense - s.autopay || s.savings == 0.0
    {
      var rows := SummaryRows(entries, owner, current);
      var totals := KindTotals(0.0, 0.0, 0.0);
      for j := 0 to |rows|
        invariant forall k :: (exists t :: 0 <= t < j && rows[t].0 == k) ==>
          totals.Get(k) == Total(entries, CurrentMonthRange(owner, k, current))
        invariant forall k :: (forall t :: 0 <= t < j ==> rows[t].0 != k) ==> totals.Get(k) == 0.0
      {
        totals := totals.Set(rows[j].0, rows[j].1);
      }
      forall k
        ensures totals.Get(k) == Total(entries, InMonth(owner, k, current))
      {
        if AnySelected(entries, CurrentMonthRange(owner, k, current)) {
          SummaryRowsCoverKinds(entries, owner, current, k);
        } else {
          MissingRowMeansZero(entries, owner, k, current);
        }
        CurrentMonthRangeIsMonth(entries, owner, k, current);
      }
      var income, expense, autopay := totals.Get(Income), totals.Get(Expense), totals.Get(Autopay);
      s := FinanceSummary(current, income, expense, autopay, Max0(income - expense - autopay));
    }

    /**
     * `getMonthlyTotals`: one total per month, oldest first, ending with the current
     * month; each is read from the rows dated on or after the six-month start.
     */
    method GetMonthlyTotals(owner: string, kind: FinanceKind, months: nat, current: Month) returns (out: seq<MonthTotal>)
      ensures |out| == months
      ensures forall t :: 0 <= t < months ==> out[t].month == MonthSlot(current, months, t)
      ensures forall t :: 0 <= t < months ==> out[t].total == Total(entries, WindowedMonth(owner, kind, current, out[t].month))
      ensures months <= 6 ==>
        forall t :: 0 <= t < months ==> out[t].total == Total(entries, InMonth(owner, kind, out[t].month))
    {
      var rowMap := MonthRows(entries, owner, kind, current);
      out := [];
      var i: int := months - 1;
      while i >= 0
        invariant -1 <= i < months
        invariant |out| == months - 1 - i
        invariant forall t :: 0 <= t < |out| ==> out[t].month == MonthSlot(current, months, t)
        invariant forall t :: 0 <= t < |out| ==>
          out[t].total == Total(entries, WindowedMonth(owner, kind, current, out[t].month))
      {
        var ym := ShiftMonth(current, -i);
        MonthRowLookup(entries, owner, kind, current, ym);
        MonthOrdinalInjective(ym, MonthSlot(current, months, |out|));
        out := out + [MonthTotal(ym, if ym in rowMap then rowMap[ym] else 0.0)];
        i := i - 1;
      }
      if months <= 6 {
        forall t | 0 <= t < months
          ensures out[t].total == Total(entries, InMonth(owner, kind, out[t].month))
        {
          WindowKeepsLastSixMonths(entries, owner, kind, current, months - 1 - t);
          MonthOrdinalInjective(out[t].month, ShiftMonth(current, -(months - 1 - t)));
        }
      }
    }

    /** `getDynamicScore`: the score of the last six months of income, expense and autopay. */
    method GetDynamicScore(owner: string, current: Month) returns (score: int)
      ensures score == Score(SixMonthSeries(entries, owner, Income, current),
                             SixMonthSeries(entries, owner, Expense, current),
                             SixMonthSeries(entries, owner, Autopay, current))
      ensures 300 <= score <= 850
    {
      var incomeRows := GetMonthlyTotals(owner, Income, 6, current);
      var expenseRows := GetMonthlyTotals(owner, Expense, 6, current);
      var autopayRows := GetMonthlyTotals(owner, Autopay, 6, current);
      var inc := seq(6, t requires 0 <= t < 6 => incomeRows[t].total);
      var exp := seq(6, t requires 0 <= t < 6 => expenseRows[t].total);
      var aut := seq(6, t requires 0 <= t < 6 => autopayRows[t].total);
      assert inc == SixMonthSeries(entries, owner, Income, current);
      assert exp == SixMonthSeries(entries, owner, Expense, current);
      assert aut == SixMonthSeries(entries, owner, Autopay, current);
      score := Score(inc, exp, aut);
    }

    // -------------------------------------------------------------------------
    // autopay_plans

    /**
     * `createAutopayPlan`: inserts an active plan whose cursor is one cadence step
     * after the start, and records the first payment on the start date under the
     * key `autopay:<planId>:<startDate>`.
     */
    method CreateAutopayPlan(owner: string, title: string, amount: real, cadence: AutoPayCadence, start: Date)
      returns (planId: nat)
      requires Valid() && start.year <= 9999
      modifies this
      ensures Valid()
      ensures planId == old(nextPlanId) && nextPlanId == planId + 1
      ensures plans == old(plans) + [AutoPayPlan(planId, owner, title, amount, cadence, start, AddCadence(start, cadence), true)]
      ensures entries == old(entries)
        + [FinanceEntry(old(nextEntryId), owner, Expense, title, amount, AutopayCategory, start, Some(AutopayKey(planId, start)))]
      ensures nextEntryId == old(nextEntryId) + 1
      ensures goals == old(goals) && budgets == old(budgets)
      ensures nextGoalId == old(nextGoalId) && nextBudgetId == old(nextBudgetId)
    {
      var next := AddCadence(start, cadence);
      planId := nextPlanId;
      plans := plans + [AutoPayPlan(planId, owner, title, amount, cadence, start, next, true)];
      nextPlanId := nextPlanId + 1;
      var _ := AddFinanceEntry(owner, Expense, title, amount, AutopayCategory, start, Some(AutopayKey(planId, start)));
    }

    /**
     * One iteration of the `for (const plan of plans)` loop of `processAutopayPlans`:
     * every due date of plan `i` up to `today` gets an entry unless the owner already
     * has a row with its source key, then the cursor is moved past `today`.
     */
    method CatchUpPlan(owner: string, today: Date, i: nat)
      requires Valid() && today.year <= 9999
      requires i < |plans| && Selected(plans[i], owner)
      modifies this
      ensures Valid()
      ensures plans == old(plans)[i := CaughtUp(old(plans)[i], owner, today)]
      ensures Extends(old(entries), entries)
      ensures AppendedFromPlan(old(entries), entries, old(plans)[i], owner, today)
      ensures CountsCaughtUp(old(entries), entries, owner, PlanDueKeys(old(plans)[i], owner, today))
      ensures goals == old(goals) && budgets == old(budgets)
      ensures nextGoalId == old(nextGoalId) && nextBudgetId == old(nextBudgetId) && nextPlanId == old(nextPlanId)
    {
      var p := plans[i];
      var dueDate := p.nextPaymentDate;
      ghost var visited: seq<Date> := [];
      CountsCaughtUpStart(entries, owner);
      while DateLe(dueDate, today)
        invariant Valid()
        invariant plans == old(plans) && goals == old(goals) && budgets == old(budgets)
        invariant nextGoalId == old(nextGoalId) && nextBudgetId == old(nextBudgetId) && nextPlanId == old(nextPlanId)
        invariant DueDates(p.nextPaymentDate, p.cadence, today) == visited + DueDates(dueDate, p.cadence, today)
        invariant Advance(p.nextPaymentDate, p.cadence, today) == Advance(dueDate, p.cadence, today)
        invariant Extends(old(entries), entries) && AppendedFromPlan(old(entries), entries, p, owner, today)
        invariant CountsCaughtUp(old(entries), entries, owner, OccurrenceKeys(p.id, visited))
        decreases DayNumber(today) - DayNumber(dueDate)
      {
        DueDatesStep(p.nextPaymentDate, dueDate, p.cadence, today, visited);
        var sourceKey := AutopayKey(p.id, dueDate);
        var existing := FindBySourceKey(entries, owner, sourceKey);
        OccurrenceKeysSnoc(p.id, visited, dueDate);
        if existing.None? {
          ghost var before := entries;
          var _ := AddFinanceEntry(owner, Expense, p.title, p.amount, AutopayCategory, dueDate, Some(sourceKey));
          CountsCaughtUpAdded(old(entries), before, entries[|before|], owner, OccurrenceKeys(p.id, visited), sourceKey);
          AppendedFromPlanStep(old(entries), before, entries[|before|], p, owner, today);
        } else {
          CountsCaughtUpPresent(old(entries), entries, owner, OccurrenceKeys(p.id, visited), sourceKey);
        }
        visited := visited + [dueDate];
        dueDate := AddCadence(dueDate, p.cadence);
      }
      DueDatesDone(p.nextPaymentDate, dueDate, p.cadence, today, visited);
      if dueDate != p.nextPaymentDate {
        plans := plans[i := p.(nextPaymentDate := dueDate)];
      }
    }

    /**
     * `processAutopayPlans`: catches up every active plan of the owner. Afterwards each
     * due key of the owner's plans is present (an existing row is never duplicated),
     * nothing else is inserted, and each selected plan's cursor is past `today`.
     */
    method ProcessAutopayPlans(owner: string, today: Date)
      requires Valid() && today.year <= 9999
      modifies this
      ensures Valid()
      ensures CaughtUpPrefix(plans, old(plans), |old(plans)|, owner, today)
      ensures Extends(old(entries), entries)
      ensures AppendedFromPlans(old(entries), entries, old(plans), owner, today)
      ensures CountsCaughtUp(old(entries), entries, owner, DueKeys(old(plans), owner, today))
      ensures goals == old(goals) && budgets == old(budgets)
      ensures nextGoalId == old(nextGoalId) && nextBudgetId == old(nextBudgetId) && nextPlanId == old(nextPlanId)
    {
      CountsCaughtUpStart(entries, owner);
      var i := 0;
      while i < |plans|
        invariant Valid()
        invariant CaughtUpPrefix(plans, old(plans), i, owner, today)
        invariant Extends(old(entries), entries) && AppendedFromPlans(old(entries), entries, old(plans), owner, today)
        invariant CountsCaughtUp(old(entries), entries, owner, DueKeys(old(plans)[..i], owner, today))
        invariant goals == old(goals) && budgets == old(budgets)
        invariant nextGoalId == old(nextGoalId) && nextBudgetId == old(nextBudgetId) && nextPlanId == old(nextPlanId)
      {
        DueKeysSnoc(old(plans), i, owner, today);
        CaughtUpPrefixStep(plans, old(plans), i, owner, today);
        if Selected(plans[i], owner) {
          ghost var mid := entries;
          CatchUpPlan(owner, today, i);
          CountsCaughtUpCompose(old(entries), mid, entries, owner,
            DueKeys(old(plans)[..i], owner, today), PlanDueKeys(old(plans)[i], owner, today));
          AppendedFromPlansStep(old(entries), mid, entries, old(plans), i, owner, today);
        } else {
          assert PlanDueKeys(old(plans)[i], owner, today) == {};
        }
        i := i + 1;
      }
      assert old(plans)[..i] == old(plans);
    }

    /**
     * Running the catch-up twice for the same day: the second run inserts nothing and
     * moves no cursor, so the ledger is left as the first run left it.
     */
    method ProcessAutopayPlansTwice(owner: string, today: Date)
      returns (ghost entriesAfterFirst: seq<FinanceEntry>, ghost plansAfterFirst: seq<AutoPayPlan>)
      requires Valid() && today.year <= 9999
      modifies this
      ensures Valid()
      ensures CaughtUpPrefix(plansAfterFirst, old(plans), |old(plans)|, owner, today)
      ensures Extends(old(entries), entriesAfterFirst)
      ensures AppendedFromPlans(old(entries), entriesAfterFirst, old(plans), owner, today)
      ensures CountsCaughtUp(old(entries), entriesAfterFirst, owner, DueKeys(old(plans), owner, today))
      ensures entries == entriesAfterFirst && plans == plansAfterFirst
      ensures goals == old(goals) && budgets == old(budgets)
      ensures nextGoalId == old(nextGoalId) && nextBudgetId == old(nextBudgetId) && nextPlanId == old(nextPlanId)
    {
      ProcessAutopayPlans(owner, today);
      entriesAfterFirst, plansAfterFirst := entries, plans;
      NothingDueAfterCatchUp(old(plans), owner, today, plans);
      ProcessAutopayPlans(owner, today);
      NothingDueAppendsNothing(entriesAfterFirst, entries, plansAfterFirst, owner, today);
      assert plans == plansAfterFirst;
    }

    /** `getAutopayPlans`: the owner's active plans, soonest payment first. */
    function GetAutopayPlans(owner: string): (r: seq<AutoPayPlan>)
      reads this
      ensures forall p :: p in r <==> p in plans && Selected(p, owner)
      ensures |r| == |SelectedPlans(plans, owner)|
      ensures multiset(r) == multiset(SelectedPlans(plans, owner))
      ensures SortedBy(r, SoonestFirst)
    {
      var rows := SelectedPlans(plans, owner);
      var r := SortBy(rows, SoonestFirst);
      assert forall p :: p in r <==> p in multiset(rows);
      r
    }

    /** `removeAutopayPlan`: marks the owner's plan inactive; it stays in the table. */
    method RemoveAutopayPlan(owner: string, planId: nat)
      requires Valid()
      modifies this
      ensures Valid()
      ensures plans == Deactivated(old(plans), owner, planId)
      ensures entries == old(entries) && goals == old(goals) && budgets == old(budgets)
      ensures nextEntryId == old(nextEntryId) && nextGoalId == old(nextGoalId)
      ensures nextBudgetId == old(nextBudgetId) && nextPlanId == old(nextPlanId)
    {
      plans := Deactivated(plans, owner, planId);
    }

    // -------------------------------------------------------------------------
    // goals

    /** `getGoals`: the owner's goals, newest first. */
    function GetGoals(owner: string): (r: seq<GoalItem>)
      reads this
      ensures forall g :: g in r <==> g in goals && g.owner == owner
      ensures |r| == |GoalsOf(goals, owner)|
      ensures GoalIdsIncreasing(goals) ==> forall i, j :: 0 <= i < j < |r| ==> r[i].id > r[j].id
    {
      var mine := GoalsOf(goals, owner);
      var r := NewestFirst(mine);
      assert forall g :: g in r <==> g in mine by {
        forall g | g in mine
          ensures g in r
        {
          var t :| 0 <= t < |mine| && mine[t] == g;
          assert r[|mine| - 1 - t] == g;
        }
      }
      r
    }

    /** `addGoal`: inserts one goal and returns its new id. */
    method AddGoal(owner: string, name: string, currentAmount: real, targetAmount: real, targetDate: Option<string>)
      returns (id: nat)
      requires Valid()
      modifies this
      ensures Valid()
      ensures id == old(nextGoalId) && nextGoalId == id + 1
      ensures forall g :: g in old(goals) ==> g.id != id
      ensures goals == old(goals) + [GoalItem(id, owner, name, currentAmount, targetAmount, targetDate)]
      ensures entries == old(entries) && budgets == old(budgets) && plans == old(plans)
      ensures nextEntryId == old(nextEntryId) && nextBudgetId == old(nextBudgetId) && nextPlanId == old(nextPlanId)
    {
      id := nextGoalId;
      goals := goals + [GoalItem(id, owner, name, currentAmount, targetAmount, targetDate)];
      nextGoalId := nextGoalId + 1;
    }

    /** `deleteGoal`: removes the owner's goal with that id; another owner's goal is left alone. */
    method DeleteGoal(owner: string, goalId: nat)
      requires Valid()
      modifies this
      ensures Valid()
      ensures goals == WithoutGoal(old(goals), owner, goalId)
      ensures entries == old(entries) && budgets == old(budgets) && plans == old(plans)
      ensures nextEntryId == old(nextEntryId) && nextGoalId == old(nextGoalId)
      ensures nextBudgetId == old(nextBudgetId) && nextPlanId == old(nextPlanId)
    {
      goals := WithoutGoal(goals, owner, goalId);
    }

    /** `addToGoalProgress`: adds a signed amount to the owner's goal, never going below 0. */
    method AddToGoalProgress(owner: string, goalId: nat, amount: real)
      requires Valid()
      modifies this
      ensures Valid()
      ensures goals == ApplyProgress(old(goals), owner, goalId, amount)
      ensures entries == old(entries) && budgets == old(budgets) && plans == old(plans)
      ensures nextEntryId == old(nextEntryId) && nextGoalId == old(nextGoalId)
      ensures nextBudgetId == old(nextBudgetId) && nextPlanId == old(nextPlanId)
    {
      goals := ApplyProgress(goals, owner, goalId, amount);
    }

    // -------------------------------------------------------------------------
    // budgets

    /** `upsertBudget`: sets the owner's budget for a month, inserting the row if the month has none. */
    method UpsertBudget(owner: string, amount: real, month: Month)
      requires Valid()
      modifies this
      ensures Valid()
      ensures budgets == Upserted(old(budgets), owner, month, amount, old(nextBudgetId))
      ensures nextBudgetId == old(nextBudgetId) + (if FindBudget(old(budgets), owner, month).None? then 1 else 0)
      ensures entries == old(entries) && goals == old(goals) && plans == old(plans)
      ensures nextEntryId == old(nextEntryId) && nextGoalId == old(nextGoalId) && nextPlanId == old(nextPlanId)
    {
      var found := FindBudget(budgets, owner, month);
      budgets := Upserted(budgets, owner, month, amount, nextBudgetId);
      if found.None? {
        nextBudgetId := nextBudgetId + 1;
      }
    }

    /** `getBudgetOverview`: this month's budget, the total of all budgets, and what they saved. */
    function GetBudgetOverview(owner: string, current: Month): (r: BudgetOverview)
      reads this
      ensures r.currentMonth == current
      ensures (forall b :: b in budgets ==> !(b.owner == owner && b.month == current)) ==> r.currentBudget == 0.0
      ensures r.totalBudget == TotalBudget(budgets, owner)
      ensures (exists b :: b in budgets && b.owner == owner && b.month == current) ==>
        exists b :: b in budgets && b.owner == owner && b.month == current && r.currentBudget == b.amount
      ensures r.savingsToDate == r.totalBudget - BudgetedSpending(budgets, entries, owner)
    {
      SavingsAreBudgetLessBudgetedSpending(budgets, entries, owner);
      BudgetOverview(current, CurrentBudget(budgets, owner, current), TotalBudget(budgets, owner),
        SavingsToDate(budgets, entries, owner))
    }

    // -------------------------------------------------------------------------
    // cleanupSeededDemoData

    /** `cleanupSeededDemoData`: drops the owner's entries and goals when they are only demo rows. */
    method CleanupSeededDemoData(owner: string)
      requires Valid()
      modifies this
      ensures Valid()
      ensures entries == CleanedEntries(old(entries), owner)
      ensures goals == CleanedGoals(old(goals), owner)
      ensures budgets == old(budgets) && plans == old(plans)
      ensures nextEntryId == old(nextEntryId) && nextGoalId == old(nextGoalId)
      ensures nextBudgetId == old(nextBudgetId) && nextPlanId == old(nextPlanId)
    {
      var onlyDemoEntries := OnlyDemoEntries(entries, owner);
      var onlyDemoGoals := OnlyDemoGoals(goals, owner);
      if onlyDemoEntries {
        entries := EntriesOfOthers(entries, owner);
      }
      if onlyDemoGoals {
        goals := GoalsOfOthers(goals, owner);
      }
    }
  }
}
