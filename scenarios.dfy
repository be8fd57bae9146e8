/**
 * Worked examples of the ledger's behaviour on concrete rows: the monthly cadence's
 * overflow, a catch-up over several months, the budget arithmetic, the demo-data
 * guard and the goal progress rule.
 */
module Scenarios {
  import opened Types
  import opened Calendar
  import opened IsoText
  import opened Autopay
  import opened Aggregates
  import opened Tables
  import opened LedgerStore

  /** 'monthly' keeps the day number and spills over: Jan 31 is followed by Mar 2 in a leap year. */
  lemma MonthlyOverflow()
    ensures AddCadence(Ymd(2024, 1, 31), Monthly) == Ymd(2024, 3, 2)
    ensures AddCadence(Ymd(2023, 1, 31), Monthly) == Ymd(2023, 3, 3)
    ensures AddCadence(Ymd(2024, 12, 15), Monthly) == Ymd(2025, 1, 15)
  {
  }

  /** The one-day cadence reaches 2024-02-29 and crosses the year end. */
  lemma DayCadences()
    ensures AddCadence(Ymd(2024, 2, 28), OneDay) == Ymd(2024, 2, 29)
    ensures AddCadence(Ymd(2024, 12, 31), OneDay) == Ymd(2025, 1, 1)
  {
    assert NextDay(Ymd(2024, 2, 28)) == Ymd(2024, 2, 29);
    assert NextDay(Ymd(2024, 12, 31)) == Ymd(2025, 1, 1);
  }

  /** The ISO text of a date pads the month and the day. */
  lemma DateText()
    ensures Iso(Ymd(2024, 3, 5)) == "2024-03-05"
  {
    assert Pad2(20) == "20" && Pad2(24) == "24";
    assert Pad4(2024) == "2024";
    assert Pad2(3) == "03" && Pad2(5) == "05";
  }

  /** The month key writes the year as it is and pads the month. */
  lemma MonthText()
    ensures MonthKey(YearMonth(2024, 3)) == "2024-03"
  {
    assert Pad2(20) == "20" && Pad2(24) == "24";
    assert Pad4(2024) == "2024";
    NatTextFourDigits(2024);
    assert Pad2(3) == "03";
    assert MonthKey(YearMonth(2024, 3)) == "2024" + "-" + "03";
  }

  /** A payment's source key joins the plan id and the ISO date. */
  lemma PaymentKeyText()
    ensures AutopayKey(7, Ymd(2024, 3, 5)) == "autopay:7:2024-03-05"
  {
    DateText();
    assert NatText(7) == "7";
  }

  /**
   * A monthly plan created on 2024-01-01 has its cursor on 2024-02-01; processed on
   * 2024-04-15 it pays on Feb 1, Mar 1 and Apr 1 and moves its cursor to May 1.
   */
  lemma MonthlyCatchUp()
    ensures AddCadence(Ymd(2024, 1, 1), Monthly) == Ymd(2024, 2, 1)
    ensures DueDates(Ymd(2024, 2, 1), Monthly, Ymd(2024, 4, 15)) == [Ymd(2024, 2, 1), Ymd(2024, 3, 1), Ymd(2024, 4, 1)]
    ensures Advance(Ymd(2024, 2, 1), Monthly, Ymd(2024, 4, 15)) == Ymd(2024, 5, 1)
  {
    var today: Date := Ymd(2024, 4, 15);
    assert DueDates(Ymd(2024, 5, 1), Monthly, today) == [];
    assert DueDates(Ymd(2024, 4, 1), Monthly, today) == [Ymd(2024, 4, 1)];
    assert DueDates(Ymd(2024, 3, 1), Monthly, today) == [Ymd(2024, 3, 1), Ymd(2024, 4, 1)];
    assert Advance(Ymd(2024, 4, 1), Monthly, today) == Ymd(2024, 5, 1);
    assert Advance(Ymd(2024, 3, 1), Monthly, today) == Ymd(2024, 5, 1);
  }

  /** A cursor after today is left where it is. */
  lemma FutureCursorUntouched()
    ensures DueDates(Ymd(2024, 5, 1), SevenDays, Ymd(2024, 4, 15)) == []
    ensures Advance(Ymd(2024, 5, 1), SevenDays, Ymd(2024, 4, 15)) == Ymd(2024, 5, 1)
  {
  }

  function Spent(id: nat, owner: string, amount: real, d: Date): FinanceEntry {
    FinanceEntry(id, owner, Types.Expense, "Groceries", amount, "food", d, None)
  }

  /** A budget of 1000 with 300 spent saves 700; unspent it saves 1000; with no budget nothing is saved. */
  lemma BudgetSavings()
    ensures SavingsToDate([Budget(1, "a", YearMonth(2024, 3), 1000.0)], [Spent(1, "a", 300.0, Ymd(2024, 3, 9))], "a") == 700.0
    ensures SavingsToDate([Budget(1, "a", YearMonth(2024, 3), 1000.0)], [], "a") == 1000.0
    ensures SavingsToDate([], [Spent(1, "a", 300.0, Ymd(2024, 3, 9))], "a") == 0.0
  {
    var es := [Spent(1, "a", 300.0, Ymd(2024, 3, 9))];
    assert es[..0] == [];
  }

  /** Overspending a budget makes the savings negative: they are not clamped. */
  lemma OverspentBudget()
    ensures SavingsToDate([Budget(1, "a", YearMonth(2024, 3), 100.0)], [Spent(1, "a", 250.0, Ymd(2024, 3, 9))], "a") == -150.0
  {
    var es := [Spent(1, "a", 250.0, Ymd(2024, 3, 9))];
    assert es[..0] == [];
  }

  function Titled(id: nat, title: string): FinanceEntry {
    FinanceEntry(id, "a", Income, title, 10.0, "misc", Ymd(2024, 1, 1), None)
  }

  /** Only-demo titles are cleaned up; one title of the owner's own keeps everything. */
  lemma DemoGuard()
    ensures CleanedEntries([Titled(1, "Salary"), Titled(2, "Groceries")], "a") == []
    ensures CleanedEntries([Titled(1, "Salary"), Titled(2, "Rent")], "a") == [Titled(1, "Salary"), Titled(2, "Rent")]
  {
    var demo := [Titled(1, "Salary"), Titled(2, "Groceries")];
    assert TitlesOf(demo, "a") == {"Salary", "Groceries"};
    RealEntryBlocksCleanup([Titled(1, "Salary"), Titled(2, "Rent")], "a", Titled(2, "Rent"));
  }

  /** Progress may pass the target. */
  lemma ProgressPastTarget()
    ensures WithProgress(GoalItem(1, "a", "Trip", 4900.0, 5000.0, None), "a", 1, 200.0).currentAmount == 5100.0
  {
  }

  /** No income in the window gives the neutral score, whatever was spent. */
  lemma NeutralScore()
    ensures Score([0.0], [10.0], [0.0]) == 500
  {
    assert [0.0][..0] == [];
  }

  // ---------------------------------------------------------------------------
  // The monthly plan of `MonthlyCatchUp`, run through a fresh store

  /** Source-key counts add up over a concatenation. */
  lemma {:induction false} CountKeyConcat(a: seq<FinanceEntry>, b: seq<FinanceEntry>, owner: string, k: string)
    ensures CountKey(a + b, owner, k) == CountKey(a, owner, k) + CountKey(b, owner, k)
    decreases |b|
  {
    if b == [] {
      assert a + b == a;
    } else {
      var init, e := b[..|b| - 1], b[|b| - 1];
      assert b == init + [e];
      assert a + b == (a + init) + [e];
      CountKeyConcat(a, init, owner, k);
      CountKeyAppend(a + init, e, owner, k);
      CountKeyAppend(init, e, owner, k);
    }
  }

  /** Rows of one owner, each keyed by one of three distinct keys, number the sum of the three counts. */
  lemma {:induction false} CountThreeKeys(a: seq<FinanceEntry>, owner: string, k1: string, k2: string, k3: string)
    requires k1 != k2 && k1 != k3 && k2 != k3
    requires forall e :: e in a ==> e.owner == owner && (e.sourceKey == Some(k1) || e.sourceKey == Some(k2) || e.sourceKey == Some(k3))
    ensures |a| == CountKey(a, owner, k1) + CountKey(a, owner, k2) + CountKey(a, owner, k3)
    decreases |a|
  {
    if a != [] {
      var init := a[..|a| - 1];
      assert forall e :: e in init ==> e in a;
      CountThreeKeys(init, owner, k1, k2, k3);
    }
  }

  const Owner: string := "ana@example.com"

  /** The keys of three occurrences. */
  lemma OccurrenceKeysOfThree(id: nat, a: Date, b: Date, c: Date)
    requires a.year <= 9999 && b.year <= 9999 && c.year <= 9999
    ensures OccurrenceKeys(id, [a, b, c]) == {AutopayKey(id, a), AutopayKey(id, b), AutopayKey(id, c)}
  {
    assert forall d :: d in [a, b, c] <==> d == a || d == b || d == c;
  }

  /** The due keys of the one plan whose due dates are `feb`, `mar` and `apr`. */
  lemma LifecycleDueKeys(plan: AutoPayPlan, today: Date, feb: Date, mar: Date, apr: Date)
    requires feb.year <= 9999 && mar.year <= 9999 && apr.year <= 9999
    requires Selected(plan, Owner)
    requires DueDates(plan.nextPaymentDate, plan.cadence, today) == [feb, mar, apr]
    ensures DueKeys([plan], Owner, today) == {AutopayKey(plan.id, feb), AutopayKey(plan.id, mar), AutopayKey(plan.id, apr)}
  {
    assert [plan][..0] == [];
    assert DueKeys([plan], Owner, today) == PlanDueKeys(plan, Owner, today);
    OccurrenceKeysOfThree(plan.id, feb, mar, apr);
  }

  /** Every row the catch-up of that plan appends carries one of its three keys. */
  lemma LifecycleAddedRows(before: seq<FinanceEntry>, after: seq<FinanceEntry>, plan: AutoPayPlan, today: Date,
                           feb: Date, mar: Date, apr: Date)
    requires feb.year <= 9999 && mar.year <= 9999 && apr.year <= 9999
    requires DueDates(plan.nextPaymentDate, plan.cadence, today) == [feb, mar, apr]
    requires |before| <= |after| && AppendedFromPlans(before, after, [plan], Owner, today)
    ensures forall e :: e in after[|before|..] ==>
      (e.owner == Owner
       && (e.sourceKey == Some(AutopayKey(plan.id, feb)) || e.sourceKey == Some(AutopayKey(plan.id, mar)) || e.sourceKey == Some(AutopayKey(plan.id, apr))))
  {
    var added := after[|before|..];
    forall e | e in added
      ensures e.owner == Owner
        && (e.sourceKey == Some(AutopayKey(plan.id, feb)) || e.sourceKey == Some(AutopayKey(plan.id, mar)) || e.sourceKey == Some(AutopayKey(plan.id, apr)))
    {
      var j :| 0 <= j < |added| && added[j] == e;
      assert after[|before| + j] == e;
      assert FromPlan(e, plan, Owner, today);
      assert e.date in [feb, mar, apr];
    }
  }

  /**
   * After the start payment on `jan`, a catch-up of the one plan whose due dates are
   * `feb`, `mar` and `apr` leaves four rows, each date's key counted once.
   */
  lemma LifecycleCounts(before: seq<FinanceEntry>, after: seq<FinanceEntry>, plan: AutoPayPlan, today: Date,
                        jan: Date, feb: Date, mar: Date, apr: Date)
    requires jan.year <= 9999 && feb.year <= 9999 && mar.year <= 9999 && apr.year <= 9999
    requires jan != feb && jan != mar && jan != apr && feb != mar && feb != apr && mar != apr
    requires |before| == 1 && before[0].owner == Owner && before[0].sourceKey == Some(AutopayKey(plan.id, jan))
    requires Selected(plan, Owner)
    requires DueDates(plan.nextPaymentDate, plan.cadence, today) == [feb, mar, apr]
    requires Extends(before, after) && AppendedFromPlans(before, after, [plan], Owner, today)
    requires CountsCaughtUp(before, after, Owner, DueKeys([plan], Owner, today))
    ensures |after| == 4
    ensures CountKey(after, Owner, AutopayKey(plan.id, jan)) == 1
    ensures CountKey(after, Owner, AutopayKey(plan.id, feb)) == 1
    ensures CountKey(after, Owner, AutopayKey(plan.id, mar)) == 1
    ensures CountKey(after, Owner, AutopayKey(plan.id, apr)) == 1
  {
    var k0, k1, k2, k3 := AutopayKey(plan.id, jan), AutopayKey(plan.id, feb), AutopayKey(plan.id, mar), AutopayKey(plan.id, apr);
    DistinctKeys(plan.id, jan, feb, mar, apr);
    LifecycleDueKeys(plan, today, feb, mar, apr);
    var added := after[1..];
    LifecycleAddedRows(before, after, plan, today, feb, mar, apr);
    LifecycleTally(before, added, after, Owner, k0, k1, k2, k3, DueKeys([plan], Owner, today));
  }

  /**
   * The counting half of the lifecycle: one start row keyed `k0`, a catch-up whose due
   * keys are `k1`, `k2`, `k3`, and appended rows that carry only those keys.
   */
  lemma LifecycleTally(before: seq<FinanceEntry>, added: seq<FinanceEntry>, after: seq<FinanceEntry>,
                       owner: string, k0: string, k1: string, k2: string, k3: string, due: set<string>)
    requires k0 != k1 && k0 != k2 && k0 != k3 && k1 != k2 && k1 != k3 && k2 != k3
    requires |before| == 1 && before[0].owner == owner && before[0].sourceKey == Some(k0)
    requires Extends(before, after) && added == after[1..] && due == {k1, k2, k3}
    requires CountsCaughtUp(before, after, owner, due)
    requires forall e :: e in added ==>
      (e.owner == owner && (e.sourceKey == Some(k1) || e.sourceKey == Some(k2) || e.sourceKey == Some(k3)))
    ensures |after| == 4
    ensures CountKey(after, owner, k0) == 1 && CountKey(after, owner, k1) == 1
    ensures CountKey(after, owner, k2) == 1 && CountKey(after, owner, k3) == 1
  {
    assert after == after[..1] + added;
    LifecycleStartKey(before, added, after, owner, k0, due);
    LifecycleNewKey(before, added, after, owner, k1, due);
    LifecycleNewKey(before, added, after, owner, k2, due);
    LifecycleNewKey(before, added, after, owner, k3, due);
    CountThreeKeys(added, owner, k1, k2, k3);
  }

  /** Four distinct dates give four distinct source keys for one plan. */
  lemma DistinctKeys(id: nat, jan: Date, feb: Date, mar: Date, apr: Date)
    requires jan.year <= 9999 && feb.year <= 9999 && mar.year <= 9999 && apr.year <= 9999
    requires jan != feb && jan != mar && jan != apr && feb != mar && feb != apr && mar != apr
    ensures AutopayKey(id, jan) != AutopayKey(id, feb) && AutopayKey(id, jan) != AutopayKey(id, mar)
    ensures AutopayKey(id, jan) != AutopayKey(id, apr) && AutopayKey(id, feb) != AutopayKey(id, mar)
    ensures AutopayKey(id, feb) != AutopayKey(id, apr) && AutopayKey(id, mar) != AutopayKey(id, apr)
  {
    AutopayKeyInjective(id, jan, id, feb);
    AutopayKeyInjective(id, jan, id, mar);
    AutopayKeyInjective(id, jan, id, apr);
    AutopayKeyInjective(id, feb, id, mar);
    AutopayKeyInjective(id, feb, id, apr);
    AutopayKeyInjective(id, mar, id, apr);
  }

  /** The single start row's key, not due again, is still counted once after the catch-up. */
  lemma LifecycleStartKey(before: seq<FinanceEntry>, added: seq<FinanceEntry>, after: seq<FinanceEntry>,
                          owner: string, k: string, due: set<string>)
    requires |before| == 1 && before[0].owner == owner && before[0].sourceKey == Some(k)
    requires after == before + added && k !in due
    requires CountsCaughtUp(before, after, owner, due)
    ensures CountKey(after, owner, k) == 1
  {
    assert before == [] + [before[0]];
    CountKeyAppend([], before[0], owner, k);
    assert CountKey(after, owner, k) == CaughtUpCount(CountKey(before, owner, k), k in due);
  }

  /** A due key the single start row does not carry is counted once after the catch-up, all of it in the appended rows. */
  lemma LifecycleNewKey(before: seq<FinanceEntry>, added: seq<FinanceEntry>, after: seq<FinanceEntry>,
                        owner: string, k: string, due: set<string>)
    requires |before| == 1 && before[0].sourceKey != Some(k)
    requires after == before + added && k in due
    requires CountsCaughtUp(before, after, owner, due)
    ensures CountKey(after, owner, k) == 1 && CountKey(added, owner, k) == 1
  {
    assert before == [] + [before[0]];
    CountKeyAppend([], before[0], owner, k);
    assert CountKey(after, owner, k) == CaughtUpCount(CountKey(before, owner, k), k in due);
    CountKeyConcat(before, added, owner, k);
  }

  /**
   * A fresh store, a monthly plan created on 2024-01-01 and a catch-up on 2024-04-15:
   * four entries (the start payment, then Feb 1, Mar 1 and Apr 1), one per date, and a
   * cursor on 2024-05-01.
   */
  method MonthlyPlanLifecycle() returns (entries: seq<FinanceEntry>, cursor: Date)
    ensures |entries| == 4
    ensures cursor == Ymd(2024, 5, 1)
    ensures CountKey(entries, Owner, AutopayKey(1, Ymd(2024, 1, 1))) == 1
    ensures CountKey(entries, Owner, AutopayKey(1, Ymd(2024, 2, 1))) == 1
    ensures CountKey(entries, Owner, AutopayKey(1, Ymd(2024, 3, 1))) == 1
    ensures CountKey(entries, Owner, AutopayKey(1, Ymd(2024, 4, 1))) == 1
  {
    var jan, feb, mar, apr, today := Ymd(2024, 1, 1), Ymd(2024, 2, 1), Ymd(2024, 3, 1), Ymd(2024, 4, 1), Ymd(2024, 4, 15);
    var store := new Ledger();
    var id := store.CreateAutopayPlan(Owner, "Rent", 900.0, Monthly, jan);
    MonthlyCatchUp();
    ghost var before, plan := store.entries, store.plans[0];
    assert plan.nextPaymentDate == feb && plan.cadence == Monthly;
    store.ProcessAutopayPlans(Owner, today);
    cursor := store.plans[0].nextPaymentDate;
    entries := store.entries;
    assert store.plans[0] == CaughtUp(plan, Owner, today);
    LifecycleCounts(before, entries, plan, today, jan, feb, mar, apr);
  }
}
