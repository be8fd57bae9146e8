/**
 * The row-level effect of the SQL statements in src/lib/database.ts: the WHERE
 * filters of the DELETE and SELECT statements, the `source_key` lookup, the goal
 * progress UPDATE, the budget UPSERT, the plan deactivation, and the demo-data
 * guards of `cleanupSeededDemoData`. The `Ledger` class applies them to its tables.
 */
module Tables {
  import opened Types
  import opened Calendar
  import opened IsoText
  import opened Autopay
  import opened Aggregates

  const AutopayCategory: string := "autopay"

  // ---------------------------------------------------------------------------
  // finance_entries

  /** Rows kept in insertion order: every id is below the ids of the rows after it. */
  ghost predicate EntryIdsIncreasing(es: seq<FinanceEntry>) {
    forall i, j :: 0 <= i < j < |es| ==> es[i].id < es[j].id
  }

  /** An entry table with increasing ids keeps them increasing when its head is put before rows taken from its tail. */
  lemma EntryIdsPrepend(es: seq<FinanceEntry>, rest: seq<FinanceEntry>)
    requires es != []
    requires forall h :: h in rest ==> h in es[1..]
    requires EntryIdsIncreasing(es[1..]) ==> EntryIdsIncreasing(rest)
    ensures EntryIdsIncreasing(es) ==> EntryIdsIncreasing(rest) && EntryIdsIncreasing([es[0]] + rest)
  {
    if EntryIdsIncreasing(es) {
      assert EntryIdsIncreasing(es[1..]) by {
        forall i, j | 0 <= i < j < |es[1..]|
          ensures es[1..][i].id < es[1..][j].id
        {
          assert es[1..][i] == es[i + 1] && es[1..][j] == es[j + 1];
        }
      }
      var r := [es[0]] + rest;
      forall i, j | 0 <= i < j < |r|
        ensures r[i].id < r[j].id
      {
        assert r[j] == rest[j - 1] && r[j] in rest;
        var k :| 0 <= k < |es[1..]| && es[1..][k] == r[j];
        assert es[k + 1] == r[j];
        if i > 0 {
          assert r[i] == rest[i - 1];
        }
      }
    }
  }

  /** With increasing ids a row occurs at most once. */
  lemma {:induction false} EntryIdsIncreasingOnce(es: seq<FinanceEntry>, x: FinanceEntry)
    requires EntryIdsIncreasing(es)
    ensures multiset(es)[x] <= 1
    decreases |es|
  {
    if es != [] {
      assert es == [es[0]] + es[1..];
      assert EntryIdsIncreasing(es[1..]) by {
        forall i, j | 0 <= i < j < |es[1..]|
          ensures es[1..][i].id < es[1..][j].id
        {
          assert es[1..][i] == es[i + 1] && es[1..][j] == es[j + 1];
        }
      }
      EntryIdsIncreasingOnce(es[1..], x);
      if x == es[0] {
        assert x !in es[1..] by {
          forall k | 0 <= k < |es[1..]|
            ensures es[1..][k] != x
          {
            assert es[1..][k] == es[k + 1];
          }
        }
      }
    }
  }

  /** No two rows share an id. */
  ghost predicate EntryIdsDistinct(es: seq<FinanceEntry>) {
    forall i, j :: 0 <= i < j < |es| ==> es[i].id != es[j].id
  }

  /** Rows drawn, without repetition, from a table with increasing ids have distinct ids. */
  lemma EntryIdsDistinctIn(es: seq<FinanceEntry>, t: seq<FinanceEntry>)
    requires multiset(t) <= multiset(es)
    ensures EntryIdsIncreasing(es) ==> EntryIdsDistinct(t)
  {
    forall i, j | EntryIdsIncreasing(es) && 0 <= i < j < |t|
      ensures t[i].id != t[j].id
    {
      assert t[i] in multiset(es) && t[j] in multiset(es);
      if t[i] == t[j] {
        var x := t[i];
        assert t == t[..j] + t[j..];
        assert x in t[..j] && x in t[j..];
        assert multiset(t)[x] == multiset(t[..j])[x] + multiset(t[j..])[x];
        EntryIdsIncreasingOnce(es, x);
        assert false;
      } else {
        var a :| 0 <= a < |es| && es[a] == t[i];
        var b :| 0 <= b < |es| && es[b] == t[j];
        assert a != b;
      }
    }
  }

  /** `DELETE FROM finance_entries WHERE id = ? AND user_email = ?`: the rows that remain. */
  function WithoutEntry(es: seq<FinanceEntry>, owner: string, id: nat): (r: seq<FinanceEntry>)
    ensures forall e :: e in r <==> e in es && !(e.id == id && e.owner == owner)
    ensures |r| <= |es|
    ensures EntryIdsIncreasing(es) ==> EntryIdsIncreasing(r)
  {
    if es == [] then []
    else
      var rest := WithoutEntry(es[1..], owner, id);
      EntryIdsPrepend(es, rest);
      (if es[0].id == id && es[0].owner == owner then [] else [es[0]]) + rest
  }

  /** `DELETE FROM finance_entries WHERE user_email = ?`: the rows that remain. */
  function EntriesOfOthers(es: seq<FinanceEntry>, owner: string): (r: seq<FinanceEntry>)
    ensures forall e :: e in r <==> e in es && e.owner != owner
    ensures EntryIdsIncreasing(es) ==> EntryIdsIncreasing(r)
  {
    if es == [] then []
    else
      var rest := EntriesOfOthers(es[1..], owner);
      EntryIdsPrepend(es, rest);
      (if es[0].owner == owner then [] else [es[0]]) + rest
  }

  /** `WHERE user_email = ? AND kind = ?`, in table order. */
  function EntriesOfKind(es: seq<FinanceEntry>, owner: string, kind: FinanceKind): (r: seq<FinanceEntry>)
    ensures forall e :: e in r <==> e in es && e.owner == owner && e.kind == kind
    ensures multiset(r) <= multiset(es)
  {
    if es == [] then []
    else
      assert es == [es[0]] + es[1..];
      (if es[0].owner == owner && es[0].kind == kind then [es[0]] else []) + EntriesOfKind(es[1..], owner, kind)
  }

  /** `ORDER BY entry_date DESC, id DESC` as a key: newest date first, then highest id. */
  function RecentFirst(e: FinanceEntry): (int, int) {
    (-DayNumber(e.date), -(e.id as int))
  }

  /** The number of the owner's rows whose `source_key` is `k`. */
  function CountKey(es: seq<FinanceEntry>, owner: string, k: string): nat
    decreases |es|
  {
    if es == [] then 0
    else
      var e := es[|es| - 1];
      CountKey(es[..|es| - 1], owner, k) + (if e.owner == owner && e.sourceKey == Some(k) then 1 else 0)
  }

  lemma CountKeyAppend(es: seq<FinanceEntry>, e: FinanceEntry, owner: string, k: string)
    ensures CountKey(es + [e], owner, k) == CountKey(es, owner, k) + (if e.owner == owner && e.sourceKey == Some(k) then 1 else 0)
  {
    assert (es + [e])[..|es|] == es;
  }

  /** `SELECT id FROM finance_entries WHERE user_email = ? AND source_key = ? LIMIT 1`. */
  function FindBySourceKey(es: seq<FinanceEntry>, owner: string, k: string): (r: Option<nat>)
    ensures r.Some? <==> CountKey(es, owner, k) > 0
    ensures r.Some? ==> exists e :: e in es && e.owner == owner && e.sourceKey == Some(k) && e.id == r.value
    decreases |es|
  {
    if es == [] then None
    else
      var e := es[|es| - 1];
      if e.owner == owner && e.sourceKey == Some(k) then Some(e.id)
      else
        var r := FindBySourceKey(es[..|es| - 1], owner, k);
        assert r.Some? ==> exists x :: x in es[..|es| - 1] && x.owner == owner && x.sourceKey == Some(k) && x.id == r.value;
        assert forall x :: x in es[..|es| - 1] ==> x in es;
        r
  }

  /**
   * How many rows carry a key after the catch-up, given how many carried it before
   * and whether the catch-up was due for it: a due key that was missing is written
   * once; a key already present is never written again.
   */
  function CaughtUpCount(before: nat, due: bool): (n: nat)
    ensures n >= before && (n == before || (before == 0 && n == 1))
    ensures due ==> n >= 1
    ensures !due ==> n == before
  {
    if due && before == 0 then 1 else before
  }

  /** Catching up for `a` then for `b` leaves the counts a single catch-up for both would leave. */
  lemma CaughtUpCountCompose(before: nat, a: bool, b: bool)
    ensures CaughtUpCount(CaughtUpCount(before, a), b) == CaughtUpCount(before, a || b)
  {
  }

  /** The row `processAutopayPlans` inserts for plan `p` on one of its due dates. */
  predicate FromPlan(e: FinanceEntry, p: AutoPayPlan, owner: string, today: Date) {
    && e.owner == owner
    && e.kind == Expense
    && e.title == p.title
    && e.amount == p.amount
    && e.category == AutopayCategory
    && e.date in DueDates(p.nextPaymentDate, p.cadence, today)
    && e.date.year <= 9999
    && e.sourceKey == Some(AutopayKey(p.id, e.date))
  }

  /** `after` is `before` with rows appended. */
  ghost predicate Extends(before: seq<FinanceEntry>, after: seq<FinanceEntry>) {
    |before| <= |after| && after[..|before|] == before
  }

  /** Every source key's count went from `before` to `after` as a catch-up due for `keys` leaves it. */
  ghost predicate CountsCaughtUp(before: seq<FinanceEntry>, after: seq<FinanceEntry>, owner: string, keys: set<string>) {
    forall k :: CountKey(after, owner, k) == CaughtUpCount(CountKey(before, owner, k), k in keys)
  }

  /** Every row appended to `before` is a due payment of plan `p`. */
  ghost predicate AppendedFromPlan(before: seq<FinanceEntry>, after: seq<FinanceEntry>, p: AutoPayPlan,
                                   owner: string, today: Date) {
    forall j :: |before| <= j < |after| ==> FromPlan(after[j], p, owner, today)
  }

  /** Every row appended to `before` is a due payment of one of the selected plans. */
  ghost predicate AppendedFromPlans(before: seq<FinanceEntry>, after: seq<FinanceEntry>, plans: seq<AutoPayPlan>,
                                    owner: string, today: Date) {
    forall j :: |before| <= j < |after| ==>
      exists q :: 0 <= q < |plans| && Selected(plans[q], owner) && FromPlan(after[j], plans[q], owner, today)
  }

  lemma CountsCaughtUpStart(es: seq<FinanceEntry>, owner: string)
    ensures CountsCaughtUp(es, es, owner, {})
  {
  }

  /** A due key already present is left as it is. */
  lemma CountsCaughtUpPresent(e0: seq<FinanceEntry>, es: seq<FinanceEntry>, owner: string, keys: set<string>, key: string)
    requires CountsCaughtUp(e0, es, owner, keys)
    requires CountKey(es, owner, key) > 0
    ensures CountsCaughtUp(e0, es, owner, keys + {key})
  {
  }

  /** A due key that is missing is written once. */
  lemma CountsCaughtUpAdded(e0: seq<FinanceEntry>, es: seq<FinanceEntry>, e: FinanceEntry, owner: string,
                            keys: set<string>, key: string)
    requires CountsCaughtUp(e0, es, owner, keys)
    requires CountKey(es, owner, key) == 0
    requires e.owner == owner && e.sourceKey == Some(key)
    ensures CountsCaughtUp(e0, es + [e], owner, keys + {key})
  {
    forall k
      ensures CountKey(es + [e], owner, k) == CaughtUpCount(CountKey(e0, owner, k), k in keys + {key})
    {
      CountKeyAppend(es, e, owner, k);
    }
  }

  /** Two catch-ups in a row count as one for the union of their keys. */
  lemma CountsCaughtUpCompose(e0: seq<FinanceEntry>, e1: seq<FinanceEntry>, e2: seq<FinanceEntry>, owner: string,
                              k1: set<string>, k2: set<string>)
    requires CountsCaughtUp(e0, e1, owner, k1) && CountsCaughtUp(e1, e2, owner, k2)
    ensures CountsCaughtUp(e0, e2, owner, k1 + k2)
  {
    forall k
      ensures CountKey(e2, owner, k) == CaughtUpCount(CountKey(e0, owner, k), k in k1 + k2)
    {
      CaughtUpCountCompose(CountKey(e0, owner, k), k in k1, k in k2);
    }
  }

  lemma AppendedFromPlanStep(e0: seq<FinanceEntry>, es: seq<FinanceEntry>, e: FinanceEntry, p: AutoPayPlan,
                             owner: string, today: Date)
    requires Extends(e0, es) && AppendedFromPlan(e0, es, p, owner, today)
    requires FromPlan(e, p, owner, today)
    ensures Extends(e0, es + [e]) && AppendedFromPlan(e0, es + [e], p, owner, today)
  {
    assert (es + [e])[..|e0|] == es[..|e0|];
  }

  /** What one plan's catch-up appends extends what the earlier plans appended. */
  lemma AppendedFromPlansStep(e0: seq<FinanceEntry>, e1: seq<FinanceEntry>, e2: seq<FinanceEntry>,
                              plans: seq<AutoPayPlan>, i: nat, owner: string, today: Date)
    requires i < |plans| && Selected(plans[i], owner)
    requires Extends(e0, e1) && AppendedFromPlans(e0, e1, plans, owner, today)
    requires Extends(e1, e2) && AppendedFromPlan(e1, e2, plans[i], owner, today)
    ensures Extends(e0, e2) && AppendedFromPlans(e0, e2, plans, owner, today)
  {
    assert e2[..|e1|][..|e0|] == e2[..|e0|];
    forall j | |e0| <= j < |e2|
      ensures exists q :: 0 <= q < |plans| && Selected(plans[q], owner) && FromPlan(e2[j], plans[q], owner, today)
    {
      if j < |e1| {
        assert e2[j] == e1[j];
      } else {
        assert FromPlan(e2[j], plans[i], owner, today);
      }
    }
  }

  /**
   * After a catch-up of `plans`, every due date of a selected plan has its payment
   * recorded, exactly once when it was recorded at most once before.
   */
  lemma DuePaymentRecorded(e0: seq<FinanceEntry>, e1: seq<FinanceEntry>, plans: seq<AutoPayPlan>, owner: string,
                           today: Date, q: nat, d: Date)
    requires CountsCaughtUp(e0, e1, owner, DueKeys(plans, owner, today))
    requires q < |plans| && Selected(plans[q], owner)
    requires d in DueDates(plans[q].nextPaymentDate, plans[q].cadence, today) && d.year <= 9999
    ensures CountKey(e1, owner, AutopayKey(plans[q].id, d)) >= 1
    ensures CountKey(e0, owner, AutopayKey(plans[q].id, d)) <= 1 ==> CountKey(e1, owner, AutopayKey(plans[q].id, d)) == 1
  {
    OccurrencesAreDueKeys(plans, owner, today, q, d);
  }

  /**
   * A catch-up with no due keys appends nothing: together with
   * Autopay.NothingDueAfterCatchUp, running `processAutopayPlans` twice on the same
   * day inserts the payments once.
   */
  lemma NothingDueAppendsNothing(e0: seq<FinanceEntry>, e1: seq<FinanceEntry>, plans: seq<AutoPayPlan>,
                                 owner: string, today: Date)
    requires DueKeys(plans, owner, today) == {}
    requires Extends(e0, e1) && AppendedFromPlans(e0, e1, plans, owner, today)
    ensures e1 == e0
  {
    if |e1| > |e0| {
      var e := e1[|e0|];
      var q :| 0 <= q < |plans| && Selected(plans[q], owner) && FromPlan(e, plans[q], owner, today);
      OccurrencesAreDueKeys(plans, owner, today, q, e.date);
      assert false;
    }
  }

  // ---------------------------------------------------------------------------
  // goals

  /** Goal ids grow with insertion order, as `AUTOINCREMENT` hands them out. */
  ghost predicate GoalIdsIncreasing(gs: seq<GoalItem>) {
    forall i, j :: 0 <= i < j < |gs| ==> gs[i].id < gs[j].id
  }

  /** A goal table with increasing ids keeps them increasing when its head is put before rows taken from its tail. */
  lemma GoalIdsPrepend(gs: seq<GoalItem>, rest: seq<GoalItem>)
    requires gs != []
    requires forall h :: h in rest ==> h in gs[1..]
    requires GoalIdsIncreasing(gs[1..]) ==> GoalIdsIncreasing(rest)
    ensures GoalIdsIncreasing(gs) ==> GoalIdsIncreasing(rest) && GoalIdsIncreasing([gs[0]] + rest)
  {
    if GoalIdsIncreasing(gs) {
      assert GoalIdsIncreasing(gs[1..]) by {
        forall i, j | 0 <= i < j < |gs[1..]|
          ensures gs[1..][i].id < gs[1..][j].id
        {
          assert gs[1..][i] == gs[i + 1] && gs[1..][j] == gs[j + 1];
        }
      }
      var r := [gs[0]] + rest;
      forall i, j | 0 <= i < j < |r|
        ensures r[i].id < r[j].id
      {
        assert r[j] == rest[j - 1] && r[j] in rest;
        var k :| 0 <= k < |gs[1..]| && gs[1..][k] == r[j];
        assert gs[k + 1] == r[j];
        if i > 0 {
          assert r[i] == rest[i - 1];
        }
      }
    }
  }

  function GoalsOf(gs: seq<GoalItem>, owner: string): (r: seq<GoalItem>)
    ensures forall g :: g in r <==> g in gs && g.owner == owner
    ensures GoalIdsIncreasing(gs) ==> GoalIdsIncreasing(r)
  {
    if gs == [] then []
    else
      var rest := GoalsOf(gs[1..], owner);
      GoalIdsPrepend(gs, rest);
      (if gs[0].owner == owner then [gs[0]] else []) + rest
  }

  function GoalsOfOthers(gs: seq<GoalItem>, owner: string): (r: seq<GoalItem>)
    ensures forall g :: g in r <==> g in gs && g.owner != owner
    ensures GoalIdsIncreasing(gs) ==> GoalIdsIncreasing(r)
  {
    if gs == [] then []
    else
      var rest := GoalsOfOthers(gs[1..], owner);
      GoalIdsPrepend(gs, rest);
      (if gs[0].owner == owner then [] else [gs[0]]) + rest
  }

  function WithoutGoal(gs: seq<GoalItem>, owner: string, id: nat): (r: seq<GoalItem>)
    ensures forall g :: g in r <==> g in gs && !(g.id == id && g.owner == owner)
    ensures |r| <= |gs|
    ensures GoalIdsIncreasing(gs) ==> GoalIdsIncreasing(r)
  {
    if gs == [] then []
    else
      var rest := WithoutGoal(gs[1..], owner, id);
      GoalIdsPrepend(gs, rest);
      (if gs[0].id == id && gs[0].owner == owner then [] else [gs[0]]) + rest
  }

  /** `ORDER BY created_at DESC`: the newest row first, rows being kept in insertion order. */
  function NewestFirst(gs: seq<GoalItem>): (r: seq<GoalItem>)
    ensures |r| == |gs|
    ensures forall i :: 0 <= i < |gs| ==> r[i] == gs[|gs| - 1 - i]
  {
    if gs == [] then [] else [gs[|gs| - 1]] + NewestFirst(gs[..|gs| - 1])
  }

  /** `SET current_amount = MAX(0, current_amount + ?) WHERE id = ? AND user_email = ?` on one row. */
  function WithProgress(g: GoalItem, owner: string, id: nat, delta: real): (r: GoalItem)
    ensures r.id == g.id && r.owner == g.owner && r.name == g.name
    ensures r.targetAmount == g.targetAmount && r.targetDate == g.targetDate
    ensures g.id == id && g.owner == owner ==> r.currentAmount >= 0.0 && r.currentAmount >= g.currentAmount + delta
    ensures g.id == id && g.owner == owner ==> r.currentAmount == 0.0 || r.currentAmount == g.currentAmount + delta
    ensures !(g.id == id && g.owner == owner) ==> r == g
  {
    if g.id == id && g.owner == owner then g.(currentAmount := Max0(g.currentAmount + delta)) else g
  }

  function ApplyProgress(gs: seq<GoalItem>, owner: string, id: nat, delta: real): (r: seq<GoalItem>)
    ensures |r| == |gs|
    ensures forall i :: 0 <= i < |gs| ==> r[i] == WithProgress(gs[i], owner, id, delta)
  {
    seq(|gs|, i requires 0 <= i < |gs| => WithProgress(gs[i], owner, id, delta))
  }

  /** Deposits into a goal with a non-negative balance add up; the progress is not capped at the target. */
  lemma DepositsAccumulate(g: GoalItem, owner: string, a: real, b: real)
    requires g.owner == owner && g.currentAmount >= 0.0 && a >= 0.0 && b >= 0.0
    ensures WithProgress(WithProgress(g, owner, g.id, a), owner, g.id, b) == WithProgress(g, owner, g.id, a + b)
    ensures WithProgress(g, owner, g.id, a).currentAmount == g.currentAmount + a
  {
  }

  /** A withdrawal larger than the balance stops at 0, and it is not undone by depositing the same amount back. */
  lemma WithdrawalClampsAtZero(g: GoalItem, owner: string, w: real)
    requires g.owner == owner && 0.0 <= g.currentAmount < w
    ensures WithProgress(g, owner, g.id, -w).currentAmount == 0.0
    ensures WithProgress(WithProgress(g, owner, g.id, -w), owner, g.id, w).currentAmount == w
  {
  }

  // ---------------------------------------------------------------------------
  // budgets

  /** The row `ON CONFLICT(user_email, month_key)` finds, if any. */
  function FindBudget(bs: seq<Budget>, owner: string, month: Month): (r: Option<nat>)
    ensures r.Some? ==> r.value < |bs| && bs[r.value].owner == owner && bs[r.value].month == month
    ensures r.Some? ==> forall i :: 0 <= i < r.value ==> !(bs[i].owner == owner && bs[i].month == month)
    ensures r.None? ==> forall b :: b in bs ==> !(b.owner == owner && b.month == month)
    decreases |bs|
  {
    if bs == [] then None
    else if bs[0].owner == owner && bs[0].month == month then Some(0)
    else
      var r := FindBudget(bs[1..], owner, month);
      if r.Some? then Some(r.value + 1) else None
  }

  /** `INSERT ... ON CONFLICT(user_email, month_key) DO UPDATE SET amount = excluded.amount`. */
  function Upserted(bs: seq<Budget>, owner: string, month: Month, amount: real, newId: nat): (r: seq<Budget>)
    ensures BudgetsUnique(bs) ==> BudgetsUnique(r)
  {
    match FindBudget(bs, owner, month)
    case Some(i) => bs[i := bs[i].(amount := amount)]
    case None => bs + [Budget(newId, owner, month, amount)]
  }

  /** After an upsert the month's budget reads back as the new amount. */
  lemma {:induction false} UpsertSetsCurrentBudget(bs: seq<Budget>, owner: string, month: Month, amount: real, newId: nat)
    ensures CurrentBudget(Upserted(bs, owner, month, amount, newId), owner, month) == amount
    decreases |bs|
  {
    var r := Upserted(bs, owner, month, amount, newId);
    if bs != [] && !(bs[0].owner == owner && bs[0].month == month) {
      UpsertSetsCurrentBudget(bs[1..], owner, month, amount, newId);
      assert r[1..] == Upserted(bs[1..], owner, month, amount, newId);
    }
  }

  /** An upsert leaves the budget of every other owner and month as it was. */
  lemma {:induction false} UpsertKeepsOtherBudgets(bs: seq<Budget>, owner: string, month: Month, amount: real, newId: nat,
                                                   owner': string, month': Month)
    requires owner' != owner || month' != month
    ensures CurrentBudget(Upserted(bs, owner, month, amount, newId), owner', month') == CurrentBudget(bs, owner', month')
    decreases |bs|
  {
    var r := Upserted(bs, owner, month, amount, newId);
    if bs == [] {
      assert r[1..] == [];
    } else if !(bs[0].owner == owner && bs[0].month == month) {
      UpsertKeepsOtherBudgets(bs[1..], owner, month, amount, newId, owner', month');
      assert r[1..] == Upserted(bs[1..], owner, month, amount, newId);
    }
  }

  /** Replacing one row of a budget table changes the owner's total by the difference of the amounts. */
  lemma {:induction false} TotalBudgetUpdate(bs: seq<Budget>, i: nat, b: Budget, owner: string)
    requires i < |bs| && b.owner == bs[i].owner
    ensures TotalBudget(bs[i := b], owner)
      == TotalBudget(bs, owner) + (if b.owner == owner then b.amount - bs[i].amount else 0.0)
    decreases |bs|
  {
    var n := |bs| - 1;
    if i < n {
      assert bs[i := b][..n] == bs[..n][i := b];
      TotalBudgetUpdate(bs[..n], i, b, owner);
    } else {
      assert bs[i := b][..n] == bs[..n];
    }
  }

  /** An upsert moves the owner's total budget from the month's old amount to the new one. */
  lemma UpsertTotalBudget(bs: seq<Budget>, owner: string, month: Month, amount: real, newId: nat)
    ensures TotalBudget(Upserted(bs, owner, month, amount, newId), owner)
      == TotalBudget(bs, owner) - CurrentBudget(bs, owner, month) + amount
  {
    match FindBudget(bs, owner, month)
    case Some(i) =>
      TotalBudgetUpdate(bs, i, bs[i].(amount := amount), owner);
      FirstBudgetIsCurrent(bs, owner, month, i);
    case None =>
      assert (bs + [Budget(newId, owner, month, amount)])[..|bs|] == bs;
  }

  lemma {:induction false} FirstBudgetIsCurrent(bs: seq<Budget>, owner: string, month: Month, i: nat)
    requires i < |bs| && bs[i].owner == owner && bs[i].month == month
    requires forall j :: 0 <= j < i ==> !(bs[j].owner == owner && bs[j].month == month)
    ensures CurrentBudget(bs, owner, month) == bs[i].amount
    decreases i
  {
    if i > 0 {
      FirstBudgetIsCurrent(bs[1..], owner, month, i - 1);
    }
  }

  // ---------------------------------------------------------------------------
  // autopay_plans

  /** `SET active = 0 WHERE id = ? AND user_email = ?` on one row. */
  function Deactivate(p: AutoPayPlan, owner: string, id: nat): (q: AutoPayPlan)
    ensures p.id == id && p.owner == owner ==> !q.active
    ensures q == p.(active := q.active)
    ensures !(p.id == id && p.owner == owner) ==> q == p
  {
    if p.id == id && p.owner == owner then p.(active := false) else p
  }

  function Deactivated(ps: seq<AutoPayPlan>, owner: string, id: nat): (r: seq<AutoPayPlan>)
    ensures |r| == |ps|
    ensures forall i :: 0 <= i < |ps| ==> r[i] == Deactivate(ps[i], owner, id)
  {
    seq(|ps|, i requires 0 <= i < |ps| => Deactivate(ps[i], owner, id))
  }

  /** After removing a plan, no later catch-up asks for a key of that plan. */
  lemma DeactivatedPlanIsNotBilled(ps: seq<AutoPayPlan>, owner: string, id: nat, today: Date, d: Date)
    requires d.year <= 9999
    ensures AutopayKey(id, d) !in DueKeys(Deactivated(ps, owner, id), owner, today)
  {
    var qs := Deactivated(ps, owner, id);
    var k := AutopayKey(id, d);
    if k in DueKeys(qs, owner, today) {
      DueKeysMeaning(qs, owner, today, k);
      var i, d' :| 0 <= i < |qs| && IsDueOccurrence(qs[i], owner, today, d') && k == AutopayKey(qs[i].id, d');
      AutopayKeyInjective(id, d, qs[i].id, d');
      assert false;
    }
  }

  /** `WHERE user_email = ? AND active = 1`, in table order. */
  function SelectedPlans(ps: seq<AutoPayPlan>, owner: string): (r: seq<AutoPayPlan>)
    ensures forall p :: p in r <==> p in ps && Selected(p, owner)
  {
    if ps == [] then []
    else (if Selected(ps[0], owner) then [ps[0]] else []) + SelectedPlans(ps[1..], owner)
  }

  /** `ORDER BY next_payment_date ASC, created_at DESC`, with ids standing for creation order. */
  function SoonestFirst(p: AutoPayPlan): (int, int) {
    (DayNumber(p.nextPaymentDate), -(p.id as int))
  }

  // ---------------------------------------------------------------------------
  // cleanupSeededDemoData

  const DemoTitles: set<string> := {"Salary", "Groceries", "Utilities", "Subscriptions"}
  const DemoGoalName: string := "Trip to Japan"
  const DemoGoalTarget: real := 5000.0

  /** The distinct titles of the owner's entries. */
  function TitlesOf(es: seq<FinanceEntry>, owner: string): set<string> {
    set e | e in es && e.owner == owner :: e.title
  }

  /** `onlyDemoEntries`: the owner has entries and every distinct title is a demo title. */
  predicate OnlyDemoEntries(es: seq<FinanceEntry>, owner: string) {
    |TitlesOf(es, owner)| > 0 && TitlesOf(es, owner) <= DemoTitles
  }

  /** `onlyDemoGoals`: the owner has goals and every one is the demo goal. */
  predicate OnlyDemoGoals(gs: seq<GoalItem>, owner: string) {
    (exists g :: g in gs && g.owner == owner)
    && forall g :: g in gs && g.owner == owner ==> g.name == DemoGoalName && g.targetAmount == DemoGoalTarget
  }

  /** The entries after the cleanup: all of the owner's go when they are only demo rows. */
  function CleanedEntries(es: seq<FinanceEntry>, owner: string): (r: seq<FinanceEntry>)
    ensures OnlyDemoEntries(es, owner) ==> forall e :: e in r <==> e in es && e.owner != owner
    ensures !OnlyDemoEntries(es, owner) ==> r == es
  {
    if OnlyDemoEntries(es, owner) then EntriesOfOthers(es, owner) else es
  }

  function CleanedGoals(gs: seq<GoalItem>, owner: string): (r: seq<GoalItem>)
    ensures OnlyDemoGoals(gs, owner) ==> forall g :: g in r <==> g in gs && g.owner != owner
    ensures !OnlyDemoGoals(gs, owner) ==> r == gs
  {
    if OnlyDemoGoals(gs, owner) then GoalsOfOthers(gs, owner) else gs
  }

  /** The cleanup is idempotent: a second run finds nothing left to remove. */
  lemma CleanupIdempotent(es: seq<FinanceEntry>, gs: seq<GoalItem>, owner: string)
    ensures CleanedEntries(CleanedEntries(es, owner), owner) == CleanedEntries(es, owner)
    ensures CleanedGoals(CleanedGoals(gs, owner), owner) == CleanedGoals(gs, owner)
  {
    var r := CleanedEntries(es, owner);
    if OnlyDemoEntries(es, owner) {
      assert TitlesOf(r, owner) == {};
    }
  }

  /** One entry with a title outside the demo set protects all of the owner's entries. */
  lemma RealEntryBlocksCleanup(es: seq<FinanceEntry>, owner: string, e: FinanceEntry)
    requires e in es && e.owner == owner && e.title !in DemoTitles
    ensures CleanedEntries(es, owner) == es
  {
    assert e.title in TitlesOf(es, owner);
  }

  /** The cleanup never touches another owner's rows. */
  lemma CleanupKeepsOtherOwners(es: seq<FinanceEntry>, gs: seq<GoalItem>, owner: string)
    ensures forall e :: e in es && e.owner != owner ==> e in CleanedEntries(es, owner)
    ensures forall g :: g in gs && g.owner != owner ==> g in CleanedGoals(gs, owner)
  {
  }
}
