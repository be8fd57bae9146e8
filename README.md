# Financio ledger store, modelled in Dafny

This project models the finance store of the Financio app, `src/lib/database.ts`. It is a per-user ledger kept in four SQLite tables:

- `finance_entries`: income, expense and autopay rows;
- `goals`: savings goals;
- `budgets`: one budget per user and month;
- `autopay_plans`: recurring payments.

The store's exported operations are modelled as methods and functions of `LedgerStore.Ledger`. The class holds one `seq` per table and one `AUTOINCREMENT` counter per table.

Around the class, the modules are:

- `Types`: the rows, kinds, cadences and naive calendar dates.
- `Calendar`: the date arithmetic of `addDays`, `addCadence` and `new Date(y, m - k, 1)`. It uses a day-number scale. A monthly cadence overflows the way JavaScript's `setMonth` does: 31 January becomes 2 or 3 March.
- `IsoText`: the `YYYY-MM-DD` and `YYYY-MM` texts and the `autopay:<plan id>:<date>` source keys. It proves the ISO string order equals date order, which is what `dueDate <= today` relies on. It also proves the keys are injective.
- `Ordering`: `ORDER BY … LIMIT n`.
- `Autopay`: the due chain of a plan, `d, d+c, d+2c, …` that is not after today. It defines the cursor a catch-up leaves behind and the set of source keys the catch-up must record.
- `Aggregates`: the SQL sums behind
  - the monthly summary,
  - the available balance,
  - the budget overview,
  - the six-month series,
  - the dynamic score.
- `Tables`: the row filters and updates that the mutators apply, with their laws.
- `Scenarios`: concrete instances worked out from the code.

The main result is `Ledger.ProcessAutopayPlans`. Its nested loops are proved to do three things (`Tables.DuePaymentRecorded` spells out the second):

- move every selected plan's cursor to the first chain date after today, and touch no other plan;
- record, for every due chain date, exactly one payment keyed `autopay:<id>:<date>`, unless it was already recorded;
- append nothing else.

A second run is then a no-op: `Ledger.ProcessAutopayPlansTwice` runs the catch-up twice and shows the second run changes no entry and no plan (through `Autopay.NothingDueAfterCatchUp` and `Tables.NothingDueAppendsNothing`).

## Model

| member | source | states |
|---|---|---|
| LedgerStore.Ledger.constructor | src/lib/database.ts:97-145 | A fresh store has four empty tables and every id counter at 1. |
| LedgerStore.Ledger.AddFinanceEntry | src/lib/database.ts:311-336 | Appends exactly one row with the given fields and returns its id. The id is fresh (no existing row has it), and nothing else changes. |
| LedgerStore.Ledger.GetFinanceEntriesByKind | src/lib/database.ts:338-352 | Returns only the owner's rows of that kind, `min(limit, count)` of them. They are sorted by date descending, then id descending. Every row left out sorts after every row returned (top-k). No row is returned twice: the result is a sub-multiset of the matching rows, and under `Valid` its ids are distinct. |
| LedgerStore.Ledger.DeleteFinanceEntry | src/lib/database.ts:354-364 | Removes exactly the rows with that id and owner. Other owners' rows and the other tables are untouched. |
| LedgerStore.Ledger.CreateAutopayPlan | src/lib/database.ts:366-394 | Appends an active plan whose cursor is start plus one cadence. Records the start date as an expense with category `autopay` and key `autopay:<id>:<start>`. |
| LedgerStore.Ledger.CatchUpPlan | src/lib/database.ts:406-441 | For one selected plan: appends one payment for each due key not yet present, appends nothing else, and sets the cursor to the first chain date after today. |
| LedgerStore.Ledger.ProcessAutopayPlans | src/lib/database.ts:396-442 | Every active plan of the owner is caught up and every other plan is unchanged. Each due key's count becomes 1 if it was 0, else stays the same. Every appended row is a due payment of one of those plans. |
| LedgerStore.Ledger.ProcessAutopayPlansTwice | src/lib/database.ts:396-442 | Two catch-ups for the same day: after the second the entries and plans are exactly as the first left them, and the first run meets the whole contract of `ProcessAutopayPlans`: cursors caught up, entries only extended, every appended row a due payment, every due key counted once. |
| LedgerStore.NewestRows | src/lib/database.ts:345-349 | `ORDER BY entry_date DESC, id DESC LIMIT n` over the owner's rows of one kind returns `min(n, count)` of them, newest first, and every row left out is no newer than every row returned. |
| LedgerStore.NewestRowsOnce | src/lib/database.ts:345-349 | Those rows repeat no row of the table; when the table's ids increase (insertion order) no id appears twice. |
| LedgerStore.Ledger.GetAutopayPlans | src/lib/database.ts:444-453 | Returns exactly the owner's active plans, each as often as in the table (the same multiset), sorted by next payment date ascending with the newest plan first on ties. |
| LedgerStore.Ledger.RemoveAutopayPlan | src/lib/database.ts:455-463 | Only the owner's plan with that id becomes inactive; it stays in the table with its other fields unchanged. |
| LedgerStore.Ledger.GetGoals | src/lib/database.ts:465-474 | Returns exactly the owner's goals, newest (highest id) first. |
| LedgerStore.Ledger.AddGoal | src/lib/database.ts:476-497 | Appends one goal with a fresh id; nothing else changes. |
| LedgerStore.Ledger.DeleteGoal | src/lib/database.ts:499-506 | Removes exactly the owner's goal with that id. |
| LedgerStore.Ledger.AddToGoalProgress | src/lib/database.ts:508-520 | Sets the owner's goal with that id to `max(0, current + amount)`; every other goal is unchanged. |
| LedgerStore.Ledger.UpsertBudget | src/lib/database.ts:522-535 | Replaces the owner's budget for the month in place, or inserts one when there is none. Budgets stay unique per owner and month. |
| LedgerStore.Ledger.GetBudgetOverview | src/lib/database.ts:537-580 | `currentBudget` is the stored amount for the month, or 0 when there is none. `totalBudget` is the sum of the owner's budgets. `savingsToDate` is that sum less the expenses of the budgeted months. |
| LedgerStore.Ledger.GetFinanceSummary | src/lib/database.ts:582-615 | Each kind's figure is that kind's total for the current month, 0 when it has no rows. Savings is `max(0, income - expense - autopay)`. |
| LedgerStore.Ledger.GetAvailableMoney | src/lib/database.ts:617-633 | Equals lifetime income minus lifetime expense minus lifetime autopay of the owner. |
| LedgerStore.Ledger.GetMonthlyTotals | src/lib/database.ts:635-665 | Returns one slot per month, oldest first, ending at the current month. Each slot is that month's total among rows on or after the six-month start. When `months <= 6` that is the plain month total. |
| LedgerStore.Ledger.GetDynamicScore | src/lib/database.ts:667-692 | The score is computed from the three six-month series and lies in 300..850. |
| LedgerStore.Ledger.CleanupSeededDemoData | src/lib/database.ts:261-295 | The owner's entries are dropped iff they are non-empty and all carry demo titles. Goals are dropped iff they are all the demo goal. Each decision is independent of the other, and other owners' rows are kept. |
| LedgerStore.SixMonthSeries | src/lib/database.ts:668-672 | Definition: the six totals `getMonthlyTotals` returns with its default of six months, one per slot; it always has six entries. |
| LedgerStore.MonthRows | src/lib/database.ts:641-651 | Definition: the `GROUP BY ym` rows of the windowed query as a map from month to total; `LedgerStore.MonthRowLookup` states what a lookup gives. |
| LedgerStore.MonthRowLookup | src/lib/database.ts:651-660 | Looking a month up in the grouped rows, with a default of 0, gives the windowed total of that month. |
| LedgerStore.KindTotals.Set | src/lib/database.ts:594-604 | Setting one kind's total leaves the other kinds' totals unchanged. |
| Calendar.NextDay | src/lib/database.ts:18 | One `setDate(getDate() + 1)` step: the next calendar day, rolling over month and year ends; its day number is one more. |
| Calendar.AddDays | src/lib/database.ts:16-20 | Definition: `days` applications of the next-day step (`setDate(getDate() + days)`); its meaning is stated by `Calendar.AddDaysCount`. |
| Calendar.AddMonth | src/lib/database.ts:26-28 | Definition: the same day in the next month, overflowing into the month after when that day does not exist (`setMonth(getMonth() + 1)`); its meaning is stated by `Calendar.AddMonthCount`. |
| Calendar.AddCadence | src/lib/database.ts:22-29 | Definition: one day, 7 days or 15 days for the daily, weekly and biweekly cadences, the monthly step otherwise; see `Calendar.AddCadenceCount` and `Calendar.AddCadenceLater`. |
| Calendar.AddDaysCount | src/lib/database.ts:16-20 | Adding n days moves the day number by exactly n. |
| Calendar.AddMonthCount | src/lib/database.ts:26-28 | `setMonth(+1)` moves the day number by the length of the current month, hence the overflow into the month after. |
| Calendar.AddCadenceCount | src/lib/database.ts:22-29 | Each cadence moves a date by 1, 7 or 15 days, or by the current month's length. |
| Calendar.AddCadenceLater | src/lib/database.ts:22-29 | Every cadence step moves strictly forward, so the catch-up loop terminates. |
| Calendar.DayNumberOrder | src/lib/database.ts:408 | Date order is day-number order. |
| Calendar.ShiftMonth | src/lib/database.ts:256-259 | Shifting a month by k moves its ordinal by exactly k, as `new Date(y, m - k, 1)` normalises. |
| Calendar.MonthRangeIsMonth | src/lib/database.ts:246-254 | `start <= d < end` of `getMonthRange` holds iff d lies in that month. |
| Calendar.FirstDayOrder | src/lib/database.ts:256-259 | A date is on or after a month's first day iff its month is that month or later. |
| Calendar.MonthOrdinalInjective | src/lib/database.ts:655-657 | Distinct months have distinct ordinals. |
| IsoText.Iso | src/lib/database.ts:19 | `toISOString().slice(0, 10)` of a naive date: ten characters `YYYY-MM-DD`, zero-padded; order and injectivity are stated by `IsoText.IsoOrderIsDateOrder` and `IsoText.IsoInjective`. |
| IsoText.MonthKey | src/lib/database.ts:8-12 | `getMonthKey`: the unpadded year, a dash and the two-digit month; the dash is the third character from the end. |
| IsoText.AutopayKey | src/lib/database.ts:390 | The source key `autopay:<plan id>:<YYYY-MM-DD>`; it starts with `autopay:`, and `IsoText.AutopayKeyInjective` shows distinct plan/date pairs give distinct keys. The same key is built at src/lib/database.ts:409. |
| IsoText.IsoOrderIsDateOrder | src/lib/database.ts:408 | For years 0..9999, comparing `YYYY-MM-DD` strings is the same as comparing dates. |
| IsoText.AutopayKeyInjective | src/lib/database.ts:409 | Two source keys are equal iff plan ids and dates are equal. |
| IsoText.StrftimeIsMonthKey | src/lib/database.ts:8-12 | For years 1000..9999, `strftime('%Y-%m')` of a date equals `getMonthKey` of its month. |
| IsoText.MonthKeyInjective | src/lib/database.ts:8-12 | Distinct months give distinct month keys. |
| Ordering.SortBy | src/lib/database.ts:348 | The result is sorted by the key and is a permutation of the input. |
| Ordering.LimitKeepsSmallest | src/lib/database.ts:345-349 | `LIMIT n` after `ORDER BY` keeps rows of the input, each sorting no later than any row dropped. |
| Autopay.Iterate | src/lib/database.ts:430 | Definition: the cursor after n steps of `addCadence`, the k-th date of a plan's chain. |
| Autopay.DueDates | src/lib/database.ts:407-431 | Definition: the dates the `while (dueDate <= today)` loop visits, in order; `Autopay.AdvanceIsFirstAfterToday` and `Autopay.DueDatesIncreasing` state what they are. |
| Autopay.Advance | src/lib/database.ts:407-440 | Definition: the value of `dueDate` when the loop stops, which is written back as `next_payment_date`; `Autopay.AdvanceIsFirstAfterToday` and `Autopay.AdvanceMonotone` state what it is. |
| Autopay.AdvanceIsFirstAfterToday | src/lib/database.ts:407-431 | The due dates are the chain `d + k·c` for k below their count. The final cursor is the next chain date, and it is after today. |
| Autopay.DueDatesIncreasing | src/lib/database.ts:407-431 | Every due date lies between the cursor and today, and the due dates strictly increase. |
| Autopay.AdvanceMonotone | src/lib/database.ts:433-440 | The cursor never moves back. It stays put iff it is already after today, which is exactly when nothing is due. |
| Autopay.AdvanceIdempotent | src/lib/database.ts:406-441 | After a catch-up nothing is due, and a second catch-up leaves the cursor where it is. |
| Autopay.CaughtUp | src/lib/database.ts:433-440 | Only the cursor of a selected plan changes, to the end of its chain; every other field and every other plan is unchanged. |
| Autopay.DueKeysMeaning | src/lib/database.ts:406-431 | A key is due iff it names a due chain date of an active plan of the owner. |
| Autopay.NothingDueAfterCatchUp | src/lib/database.ts:396-442 | Once every plan is caught up no key is due, and catching up again changes no plan. |
| Autopay.DueKeysSnoc | src/lib/database.ts:406 | The due keys of the first n+1 plans are those of the first n plus those of plan n. |
| Tables.FindBySourceKey | src/lib/database.ts:410-416 | Finds a row iff some row of the owner carries that key, and returns that row's id. |
| Tables.CaughtUpCount | src/lib/database.ts:418-428 | A due key absent before is present once; a key present before, or not due, keeps its count. |
| Tables.DuePaymentRecorded | src/lib/database.ts:406-431 | After a catch-up, every due date of an active plan has its payment recorded, exactly once if it was recorded at most once before. |
| Tables.NothingDueAppendsNothing | src/lib/database.ts:408-428 | A catch-up with nothing due leaves the entries unchanged. |
| Tables.CountsCaughtUpCompose | src/lib/database.ts:406-441 | Catching up the plans one after the other adds up to catching up their union of due keys. |
| Tables.WithoutEntry | src/lib/database.ts:359-363 | Keeps exactly the rows that do not have both that id and that owner. |
| Tables.EntriesOfOthers | src/lib/database.ts:283-286 | Definition: the rows left by `DELETE FROM finance_entries WHERE user_email = ?`; it keeps exactly the other owners' rows, in table order. |
| Tables.RecentFirst | src/lib/database.ts:348 | Definition: the sort key of `ORDER BY entry_date DESC, id DESC`, the negated day number and then the negated id; `LedgerStore.NewestRows` states the order it gives. |
| Tables.EntriesOfKind | src/lib/database.ts:347 | Keeps exactly the owner's rows of that kind. |
| Tables.WithoutGoal | src/lib/database.ts:501-505 | Keeps exactly the goals that do not have both that id and that owner, in id order. |
| Tables.GoalsOfOthers | src/lib/database.ts:289-293 | Definition: the goals left by `DELETE FROM goals WHERE user_email = ?`; it keeps exactly the other owners' goals, in id order. |
| Tables.GoalsOf | src/lib/database.ts:470 | Keeps exactly the owner's goals, in id order. |
| Tables.NewestFirst | src/lib/database.ts:471 | Reverses insertion order. |
| Tables.WithProgress | src/lib/database.ts:514-519 | The matching goal's amount becomes `max(0, current + delta)`: it is non-negative, at least `current + delta`, and equal to either 0 or `current + delta`; a non-matching goal is unchanged; name, target and date never change. |
| Tables.ApplyProgress | src/lib/database.ts:514-519 | Definition: the `UPDATE goals … WHERE id = ? AND user_email = ?` applied row by row through `Tables.WithProgress`, keeping the table length; what the update does is stated by `Tables.WithProgress`, `Tables.DepositsAccumulate` and `Tables.WithdrawalClampsAtZero`. |
| Tables.DepositsAccumulate | src/lib/database.ts:516 | Deposits into a non-negative goal add up, and they are not capped at the target. |
| Tables.WithdrawalClampsAtZero | src/lib/database.ts:516 | An over-withdrawal floors at 0, and a later deposit starts from 0. |
| Tables.FindBudget | src/lib/database.ts:529-532 | Finds the first budget of that owner and month, or reports that none exists. |
| Tables.Upserted | src/lib/database.ts:528-534 | The upsert keeps budgets unique per owner and month. |
| Tables.UpsertSetsCurrentBudget | src/lib/database.ts:528-534 | After the upsert, the month's budget is the new amount, so a second save overwrites the first. |
| Tables.UpsertKeepsOtherBudgets | src/lib/database.ts:528-534 | Every other owner/month keeps its budget. |
| Tables.UpsertTotalBudget | src/lib/database.ts:528-534 | The owner's total budget changes by exactly the new amount minus the replaced one, or 0 when there was none. |
| Tables.FirstBudgetIsCurrent | src/lib/database.ts:546-552 | `LIMIT 1` returns the first matching row. |
| Tables.Deactivate | src/lib/database.ts:458-461 | Only the `active` flag of the matching plan changes. |
| Tables.Deactivated | src/lib/database.ts:458-461 | Definition: the `UPDATE autopay_plans SET active = 0 WHERE …` applied row by row through `Tables.Deactivate`, keeping the table length; its effect is stated by `Tables.Deactivate` and `Tables.DeactivatedPlanIsNotBilled`. |
| Tables.DeactivatedPlanIsNotBilled | src/lib/database.ts:399-404 | A removed plan produces no due key afterwards. |
| Tables.SoonestFirst | src/lib/database.ts:450 | Definition: the sort key of `ORDER BY next_payment_date ASC, created_at DESC`, the day number and then the negated id (insertion order stands in for `created_at`). |
| Tables.SelectedPlans | src/lib/database.ts:449 | Keeps exactly the owner's active plans. |
| Tables.TitlesOf | src/lib/database.ts:263-268 | Definition: the set of distinct titles of the owner's entries (`new Set(entries.map((x) => x.title))`). |
| Tables.OnlyDemoEntries | src/lib/database.ts:268-272 | Definition: the owner has at least one distinct title and every distinct title is one of the four demo titles. |
| Tables.OnlyDemoGoals | src/lib/database.ts:274-280 | Definition: the owner has at least one goal and every one is named "Trip to Japan" with target 5000. |
| Tables.CleanedEntries | src/lib/database.ts:263-287 | The owner's entries are removed iff they are non-empty and all carry demo titles; otherwise the table is unchanged. |
| Tables.CleanedGoals | src/lib/database.ts:274-294 | The owner's goals are removed iff they are non-empty and all are "Trip to Japan" with target 5000. |
| Tables.CleanupIdempotent | src/lib/database.ts:261-295 | A second cleanup changes nothing. |
| Tables.RealEntryBlocksCleanup | src/lib/database.ts:268-272 | One entry with a non-demo title keeps all of the owner's entries. |
| Tables.CleanupKeepsOtherOwners | src/lib/database.ts:282-294 | Other owners' rows survive the cleanup. |
| Aggregates.Total | src/lib/database.ts:587-589 | Definition: `COALESCE(SUM(amount), 0)` over the rows a selector picks (owner, kind, date bounds); the same sum serves src/lib/database.ts:644-649. Its laws are `Aggregates.TotalAppend`, `Aggregates.TotalOfNoRows` and `Aggregates.TotalNonNegative`. |
| Aggregates.AvailableMoney | src/lib/database.ts:619-631 | Definition: the `CASE` sum, income counted positive and expense and autopay negative; `Aggregates.AvailableMoneyByKind` states its value. |
| Aggregates.TotalBudget | src/lib/database.ts:554-559 | Definition: the sum of the owner's budget amounts over all months. |
| Aggregates.SavingsToDate | src/lib/database.ts:561-572 | Definition: the `LEFT JOIN` sum of budget less that month's expenses, one term per budget row; `Aggregates.SavingsAreBudgetLessBudgetedSpending` states its value. |
| Aggregates.SeriesSum | src/lib/database.ts:674-676 | Definition: the `reduce((sum, row) => sum + row.total, 0)` of a series. |
| Aggregates.SavingsRate | src/lib/database.ts:681 | Definition: `Math.max(0, (income - outflow) / income)`; `Aggregates.SavingsRateBounds` bounds it. |
| Aggregates.ExpenseRatio | src/lib/database.ts:682 | Definition: `outflow / income`; `Aggregates.RatioBounds` bounds it. |
| Aggregates.RawScore | src/lib/database.ts:690 | Definition: `540 + savingsRate·180 + consistency·100 - expenseRatio·70`; `Aggregates.Score` and `Aggregates.SolventScoreRange` bound the clamped result. |
| Aggregates.TotalAppend | src/lib/database.ts:587 | A new row adds its amount to a total iff it is selected. |
| Aggregates.TotalOfNoRows | src/lib/database.ts:587 | `COALESCE(SUM(amount), 0)` over no selected rows is 0. |
| Aggregates.TotalNonNegative | src/lib/database.ts:587 | Totals of non-negative amounts are non-negative. |
| Aggregates.CurrentMonthRange | src/lib/database.ts:246-254 | Definition: the selector `entry_date >= start AND entry_date < end` with `start` the first day of the current month and `end` the first day of the next, as used at src/lib/database.ts:589-590; `Aggregates.CurrentMonthRangeIsMonth` states what it selects. |
| Aggregates.CurrentMonthRangeIsMonth | src/lib/database.ts:584-592 | The half-open date range selects exactly the current month's rows. |
| Aggregates.SummaryRows | src/lib/database.ts:586-592 | `GROUP BY kind` yields at most one row per kind, holding that kind's total. |
| Aggregates.SummaryRowsCoverKinds | src/lib/database.ts:586-592 | Every kind with a row in the month has a group. |
| Aggregates.MissingRowMeansZero | src/lib/database.ts:594-598 | A kind with no group has total 0, so the default of 0 is exact. |
| Aggregates.Max0 | src/lib/database.ts:606 | `Math.max(0, x)` is the least value that is non-negative and at least x. |
| Aggregates.AvailableMoneyByKind | src/lib/database.ts:619-631 | The signed sum equals income minus expense minus autopay. |
| Aggregates.SixMonthStart | src/lib/database.ts:256-259 | Definition: the first day of the month five months before the current one; `Aggregates.WindowKeepsLastSixMonths` and `Aggregates.WindowHidesOlderMonths` state what the window keeps. |
| Aggregates.MonthSlot | src/lib/database.ts:655-657 | Definition: the month of output slot i, the current month shifted back by `months - 1 - i` (the loop's `new Date(y, m - i, 1)` read oldest first); `Aggregates.MonthSlotsAscending` states its order. |
| Aggregates.MonthSlotsAscending | src/lib/database.ts:655-657 | Consecutive slots are consecutive months, and the last slot is the current month. |
| Aggregates.WindowKeepsLastSixMonths | src/lib/database.ts:641-660 | For the current month and the five before it, the windowed total is the full month total. |
| Aggregates.WindowHidesOlderMonths | src/lib/database.ts:641-660 | Months six or more back always total 0. |
| Aggregates.CurrentBudget | src/lib/database.ts:546-552 | 0 when the month has no budget, else the amount of a budget row for that month. |
| Aggregates.SavingsAreBudgetLessBudgetedSpending | src/lib/database.ts:561-572 | The LEFT JOIN sum equals total budget less the expenses of the budgeted months. |
| Aggregates.BudgetedSpending | src/lib/database.ts:561-572 | Definition: the owner's expenses summed over the months that carry a budget row, one month total per budget row; `Aggregates.SavingsAreBudgetLessBudgetedSpending` relates it to the join. |
| Aggregates.UnbudgetedExpenseIgnored | src/lib/database.ts:561-572 | An expense in a month with no budget does not change `savingsToDate`. |
| Aggregates.BudgetedExpenseCounted | src/lib/database.ts:561-572 | With unique budgets, an expense in a budgeted month lowers `savingsToDate` by exactly its amount. There is no clamp. |
| Aggregates.PositiveMonths | src/lib/database.ts:683-687 | At most one count per month. |
| Aggregates.Consistency | src/lib/database.ts:688 | The share of non-negative months lies in [0, 1]. |
| Aggregates.Round | src/lib/database.ts:691 | `Math.round` gives the integer nearest its argument, with halves rounded up. |
| Aggregates.ClampScore | src/lib/database.ts:691 | The result lies in 300..850: a value already in range is kept, a value below 300 becomes 300 and a value above 850 becomes 850. |
| Aggregates.Score | src/lib/database.ts:674-691 | The score is in 300..850, and exactly 500 when total income is not positive. |
| Aggregates.RatioBounds | src/lib/database.ts:681-682 | Bounds of the income ratios used by the score. |
| Aggregates.SavingsRateBounds | src/lib/database.ts:681 | The savings rate is non-negative, and at most 1 when outflow is non-negative. |
| Aggregates.SolventScoreRange | src/lib/database.ts:674-691 | With positive income and outflow between 0 and income, the score lies in 470..820. |
| Aggregates.OverspendingScoresFloor | src/lib/database.ts:690-691 | Outflow of five times income or more drives the score to the floor of 300. |
| Scenarios.MonthlyOverflow | src/lib/database.ts:26-28 | 2024-01-31 + 1 month = 2024-03-02; 2023-01-31 gives 2023-03-03; December rolls into January. |
| Scenarios.DayCadences | src/lib/database.ts:16-23 | A one-day step reaches the leap day 2024-02-29 and crosses the year end. |
| Scenarios.DateText | src/lib/database.ts:19 | 2024-03-05 is written `2024-03-05`. |
| Scenarios.MonthText | src/lib/database.ts:8-12 | March 2024 is keyed `2024-03`. |
| Scenarios.PaymentKeyText | src/lib/database.ts:409 | Plan 7's payment on 2024-03-05 is keyed `autopay:7:2024-03-05`. |
| Scenarios.MonthlyCatchUp | src/lib/database.ts:374-431 | A plan started 2024-01-01 and caught up on 2024-04-15 pays on Feb 1, Mar 1 and Apr 1, then waits for May 1. |
| Scenarios.MonthlyPlanLifecycle | src/lib/database.ts:366-442 | A fresh store, a monthly plan created on 2024-01-01 and a catch-up on 2024-04-15 end with four entries, one keyed for each of Jan 1, Feb 1, Mar 1 and Apr 1, and the cursor on 2024-05-01. |
| Scenarios.FutureCursorUntouched | src/lib/database.ts:433 | A cursor after today produces nothing and is not rewritten. |
| Scenarios.BudgetSavings | src/lib/database.ts:561-572 | A budget of 1000 with 300 spent saves 700; with no expense it saves 1000; expenses without a budget save 0. |
| Scenarios.OverspentBudget | src/lib/database.ts:562 | Overspending makes savings negative (-150). |
| Scenarios.DemoGuard | src/lib/database.ts:268-287 | Demo-only titles are wiped; one real title keeps everything. |
| Scenarios.ProgressPastTarget | src/lib/database.ts:516 | Progress may exceed the target (4900 + 200 = 5100 against 5000). |
| Scenarios.NeutralScore | src/lib/database.ts:679 | No income gives the neutral score 500. |

## Left out

- SQLite itself (the connection, the `CREATE TABLE` statements, the `source_key` column migration and the legacy tables) is outside the model. Each table is a sequence of rows, and each `AUTOINCREMENT` counter is a field.
- The users, auth and settings helpers of the same file are left out because they are not part of the ledger.
- `seedUserFinanceData` returns without writing anything in every branch, so it has no model.
- The clock is not modelled. `getToday()` and the current month (`new Date()`) are parameters `today` and `current` of the operations that read them. `entryDate ?? getToday()` becomes an explicit date, and `monthKey ?? getCurrentMonthKey()` an explicit month.
- Time zones are not modelled. Dates are naive calendar dates, which matches the code when the device zone is UTC. East of UTC, `toISOString()` turns local midnight into the previous day. A one-day step then returns the same date, so the catch-up loop does not advance, and month starts fall on the last day of the month before.
- Amounts are exact reals, since JavaScript's and SQLite's floating point is not modelled. `Math.round` is `floor(x + 0.5)`, which is what JavaScript does for every value.
- Locale month names (`toLocaleString`) are not modelled: a month is a year/month pair.
- Every exported operation is modelled as atomic: it runs from start to finish with nothing else touching the tables. The code awaits between statements, so two calls can interleave. For example `processAutopayPlans` awaits between its `SELECT` of a source key (src/lib/database.ts:410-416) and its `INSERT` (src/lib/database.ts:419-427); two overlapping runs, which the dashboard can start on load and after a save, could both miss a key and insert it twice. Interleaved async calls are not modelled.
- `Promise.all` in `getDynamicScore` is modelled as three reads in sequence. Under the atomicity assumption above the three reads see the same tables, so their order does not matter.
- `created_at` has one-second resolution, and that is not modelled. Insertion order (equal to id order) stands in for it, so ties are broken by id. `Tables.SoonestFirst` breaks `next_payment_date` ties by higher plan id first.
- LedgerStore.Ledger.GetFinanceEntriesByKind: `limit` is a natural number. SQL's negative `LIMIT` (no limit) is not modelled, and the default of 12 is left to the caller.
- LedgerStore.Ledger.CreateAutopayPlan and LedgerStore.Ledger.ProcessAutopayPlans require dates with years up to 9999. A `YYYY-MM-DD` text cannot hold a larger year, and the key and order lemmas rely on that format.
- LedgerStore.Ledger.CreateAutopayPlan does not model a cursor that lands past 9999-12-31 (a start within one cadence step of the end of 9999, such as 9999-12-31 with a daily cadence). The model stores such a cursor as a date in year 10000. The code stores the text `toISOString().slice(0, 10)`, which for year 10000 is `+010000-MM` (src/lib/database.ts:19, :374-379).
- LedgerStore.Ledger.CatchUpPlan does not model a cursor or due date that steps past 9999-12-31. In the model such a cursor is after every `today` and nothing is billed. In the code the text `+010000-MM` sorts before every `YYYY-MM-DD`, because `+` sorts before the digits, so `dueDate <= today` (src/lib/database.ts:408) holds for ever. For the daily, weekly and biweekly cadences the first pass inserts one payment keyed `autopay:<id>:+010000-MM`. `addDays` parses that text as the first of the month, and `slice(0, 10)` gives the same text back, so later passes find the key (src/lib/database.ts:410-418), insert nothing, and the loop never ends. For the monthly cadence each pass inserts a payment for the next month (`+010000-02`, `+010000-03`, …) until the `Date` passes the largest time value (+275760-09-13) and `toISOString` throws a `RangeError`. This is a defect of the code; the contract describes the catch-up only up to the end of 9999.
- LedgerStore.Ledger.ProcessAutopayPlans inherits that gap from CatchUpPlan. For a plan whose cursor would pass the end of 9999, the code either never returns (daily, weekly and biweekly plans) or throws after inserting a payment for every month up to the largest date (monthly plans). The model bills nothing past that point.
- LedgerStore.Ledger.ProcessAutopayPlansTwice inherits the same gap from ProcessAutopayPlans.
- Dates and months that do not exist (`2024-02-30`, month `2024-13`) cannot be represented: `Date` and `Month` values are valid by construction. The code accepts any text of the right shape from its callers and would pass such a text to SQLite and `new Date(...)` unchanged.
- LedgerStore.Ledger.GetMonthlyTotals matches grouped rows to output slots by month value. In the code, the `strftime` keys pad the year to four digits and `getMonthKey` does not. The two agree for years 1000..9999 (`IsoText.StrftimeIsMonthKey`); earlier years never match in the code.
- LedgerStore.Ledger.GetBudgetOverview joins budgets to expenses on `strftime('%Y-%m', entry_date) = month_key` (src/lib/database.ts:561-572), so the same mismatch applies: the model joins by month value, which agrees with the code for years 1000..9999 only; for earlier years the code finds no expenses of a budgeted month.
- LedgerStore.Ledger.UpsertBudget advances the budget id counter only when it inserts a row. Whether SQLite's `AUTOINCREMENT` sequence also moves on the `DO UPDATE` path is not modelled; budget ids are never read.
- The monthly cadence is not clamped to the last day of the month. The code overflows into the next month (`setMonth`), and the model follows the code.
- Reversing a goal's progress when an entry is deleted happens outside this file, so it is not modelled. The same goes for isolating one plan's failure from the other plans during the catch-up.
- Errors thrown by the database driver are not modelled: every statement here succeeds.
