/**
 * What `processAutopayPlans` (src/lib/database.ts:396-442) computes for one plan:
 * starting from the stored cursor, the loop `while (dueDate <= today)` visits the
 * cadence chain of the cursor up to `today` and stops on the first chain date
 * after `today`.
 */
module Autopay {
  import opened Types
  import opened Calendar
  import opened IsoText

  /** The `n`-th date of the cadence chain that starts at `d`. */
  function Iterate(d: Date, c: AutoPayCadence, n: nat): Date
    decreases n
  {
    if n == 0 then d else Iterate(AddCadence(d, c), c, n - 1)
  }

  /** The due dates the loop visits from cursor `d`: the chain up to and including `today`. */
  function DueDates(d: Date, c: AutoPayCadence, today: Date): seq<Date>
    decreases DayNumber(today) - DayNumber(d)
  {
    if DateLe(d, today) then
      AddCadenceLater(d, c);
      DayNumberOrder(d, today);
      [d] + DueDates(AddCadence(d, c), c, today)
    else []
  }

  /** The cursor value the loop ends with. */
  function Advance(d: Date, c: AutoPayCadence, today: Date): Date
    decreases DayNumber(today) - DayNumber(d)
  {
    if DateLe(d, today) then
      AddCadenceLater(d, c);
      DayNumberOrder(d, today);
      Advance(AddCadence(d, c), c, today)
    else d
  }

  /** The `k`-th due date is the `k`-th date of the cadence chain. */
  lemma {:induction false} DueDateIsChainDate(d: Date, c: AutoPayCadence, today: Date, k: nat)
    requires k < |DueDates(d, c, today)|
    ensures DueDates(d, c, today)[k] == Iterate(d, c, k)
    decreases k
  {
    var d' := AddCadence(d, c);
    AddCadenceLater(d, c);
    DayNumberOrder(d, today);
    assert DueDates(d, c, today) == [d] + DueDates(d', c, today);
    if k > 0 {
      DueDateIsChainDate(d', c, today, k - 1);
    }
  }

  /** The cursor the loop ends with is the chain date right after the due dates, and it is after `today`. */
  lemma {:induction false} AdvanceIsNext(d: Date, c: AutoPayCadence, today: Date)
    ensures Advance(d, c, today) == Iterate(d, c, |DueDates(d, c, today)|)
    ensures DateLt(today, Advance(d, c, today))
    decreases DayNumber(today) - DayNumber(d)
  {
    if DateLe(d, today) {
      var d' := AddCadence(d, c);
      AddCadenceLater(d, c);
      DayNumberOrder(d, today);
      AdvanceIsNext(d', c, today);
      var rest := DueDates(d', c, today);
      assert |DueDates(d, c, today)| == |rest| + 1;
      assert Iterate(d, c, |rest| + 1) == Iterate(d', c, |rest|);
    } else {
      assert DateLt(today, d);
    }
  }

  /**
   * The visited dates are the first `n` dates of the chain, all on or before
   * `today`, and the new cursor is the `n`-th: the first chain date after `today`.
   */
  lemma AdvanceIsFirstAfterToday(d: Date, c: AutoPayCadence, today: Date)
    ensures forall k :: 0 <= k < |DueDates(d, c, today)| ==>
      DueDates(d, c, today)[k] == Iterate(d, c, k) && DateLe(Iterate(d, c, k), today)
    ensures Advance(d, c, today) == Iterate(d, c, |DueDates(d, c, today)|)
    ensures DateLt(today, Advance(d, c, today))
  {
    AdvanceIsNext(d, c, today);
    DueDatesIncreasing(d, c, today);
    var s := DueDates(d, c, today);
    forall k | 0 <= k < |s|
      ensures s[k] == Iterate(d, c, k) && DateLe(Iterate(d, c, k), today)
    {
      DueDateIsChainDate(d, c, today, k);
      assert s[k] in s;
    }
  }

  /** The due dates lie between the old cursor and `today`, in strictly increasing order. */
  lemma {:induction false} DueDatesIncreasing(d: Date, c: AutoPayCadence, today: Date)
    ensures forall x :: x in DueDates(d, c, today) ==> DateLe(d, x) && DateLe(x, today)
    ensures forall i, j :: 0 <= i < j < |DueDates(d, c, today)| ==>
      DateLt(DueDates(d, c, today)[i], DueDates(d, c, today)[j])
    decreases DayNumber(today) - DayNumber(d)
  {
    if DateLe(d, today) {
      var d' := AddCadence(d, c);
      AddCadenceLater(d, c);
      DayNumberOrder(d, today);
      DueDatesIncreasing(d', c, today);
      var s := DueDates(d, c, today);
      assert s == [d] + DueDates(d', c, today);
      forall i, j | 0 <= i < j < |s|
        ensures DateLt(s[i], s[j])
      {
        if i == 0 {
          assert s[j] in DueDates(d', c, today);
        } else {
          assert s[i] == DueDates(d', c, today)[i - 1];
        }
      }
    }
  }

  /** The cursor never moves backwards, and it moves exactly when it was due. */
  lemma {:induction false} AdvanceMonotone(d: Date, c: AutoPayCadence, today: Date)
    ensures DateLe(d, Advance(d, c, today))
    ensures Advance(d, c, today) == d <==> DateLt(today, d)
    ensures DueDates(d, c, today) == [] <==> DateLt(today, d)
    decreases DayNumber(today) - DayNumber(d)
  {
    if DateLe(d, today) {
      var d' := AddCadence(d, c);
      AddCadenceLater(d, c);
      DayNumberOrder(d, today);
      AdvanceMonotone(d', c, today);
      DayNumberOrder(d, Advance(d, c, today));
      DayNumberOrder(d', Advance(d, c, today));
      DayNumberOrder(d, d');
    }
  }

  /** Catching up a cursor that is already past `today` does nothing. */
  lemma AdvanceIdempotent(d: Date, c: AutoPayCadence, today: Date)
    ensures DueDates(Advance(d, c, today), c, today) == []
    ensures Advance(Advance(d, c, today), c, today) == Advance(d, c, today)
  {
    AdvanceIsFirstAfterToday(d, c, today);
    AdvanceMonotone(Advance(d, c, today), c, today);
  }

  /**
   * One turn of the `while (dueDate <= today)` loop: the date it visits is the next
   * due date of the chain, and the date it moves to has the same remaining chain.
   */
  lemma DueDatesStep(start: Date, d: Date, c: AutoPayCadence, today: Date, visited: seq<Date>)
    requires DueDates(start, c, today) == visited + DueDates(d, c, today)
    requires Advance(start, c, today) == Advance(d, c, today)
    requires DateLe(d, today)
    ensures DueDates(start, c, today) == (visited + [d]) + DueDates(AddCadence(d, c), c, today)
    ensures Advance(start, c, today) == Advance(AddCadence(d, c), c, today)
    ensures d in DueDates(start, c, today)
    ensures d.year <= today.year
    ensures DayNumber(today) - DayNumber(AddCadence(d, c)) < DayNumber(today) - DayNumber(d)
    ensures 0 <= DayNumber(today) - DayNumber(d)
  {
    AddCadenceLater(d, c);
    DayNumberOrder(d, today);
    var rest := DueDates(AddCadence(d, c), c, today);
    assert DueDates(d, c, today) == [d] + rest;
    assert visited + ([d] + rest) == (visited + [d]) + rest;
  }

  /** When the loop stops, it has visited every due date and holds the advanced cursor. */
  lemma DueDatesDone(start: Date, d: Date, c: AutoPayCadence, today: Date, visited: seq<Date>)
    requires DueDates(start, c, today) == visited + DueDates(d, c, today)
    requires Advance(start, c, today) == Advance(d, c, today)
    requires !DateLe(d, today)
    ensures DueDates(start, c, today) == visited
    ensures Advance(start, c, today) == d
  {
  }

  // ---------------------------------------------------------------------------
  // Plans

  /** Whether the plan is one of those `processAutopayPlans(owner)` selects. */
  predicate Selected(p: AutoPayPlan, owner: string) {
    p.owner == owner && p.active
  }

  /** The source keys of a plan's occurrences on `dates`. */
  function OccurrenceKeys(planId: nat, dates: seq<Date>): set<string> {
    set d | d in dates && d.year <= 9999 :: AutopayKey(planId, d)
  }

  /** The plan row after the catch-up: only selected plans have their cursor advanced. */
  function CaughtUp(p: AutoPayPlan, owner: string, today: Date): (q: AutoPayPlan)
    ensures q.nextPaymentDate == if Selected(p, owner) then Advance(p.nextPaymentDate, p.cadence, today) else p.nextPaymentDate
    ensures q == p.(nextPaymentDate := q.nextPaymentDate)
  {
    if Selected(p, owner) then p.(nextPaymentDate := Advance(p.nextPaymentDate, p.cadence, today)) else p
  }

  /** Appending a due date with a four-digit year adds exactly its key. */
  lemma OccurrenceKeysSnoc(planId: nat, dates: seq<Date>, d: Date)
    requires d.year <= 9999
    ensures OccurrenceKeys(planId, dates + [d]) == OccurrenceKeys(planId, dates) + {AutopayKey(planId, d)}
  {
    assert forall x :: x in dates + [d] <==> x in dates || x == d;
  }

  /** The source keys the catch-up of one plan asks for (none for a plan it does not select). */
  function PlanDueKeys(p: AutoPayPlan, owner: string, today: Date): set<string> {
    if Selected(p, owner) then OccurrenceKeys(p.id, DueDates(p.nextPaymentDate, p.cadence, today)) else {}
  }

  /** The first `n` plans of `was` have been caught up in `now`; the rest are untouched. */
  ghost predicate CaughtUpPrefix(now: seq<AutoPayPlan>, was: seq<AutoPayPlan>, n: nat, owner: string, today: Date) {
    && |now| == |was| && n <= |was|
    && (forall j :: 0 <= j < n ==> now[j] == CaughtUp(was[j], owner, today))
    && (forall j :: n <= j < |now| ==> now[j] == was[j])
  }

  lemma CaughtUpPrefixStep(now: seq<AutoPayPlan>, was: seq<AutoPayPlan>, n: nat, owner: string, today: Date)
    requires CaughtUpPrefix(now, was, n, owner, today) && n < |was|
    ensures CaughtUpPrefix(now[n := CaughtUp(now[n], owner, today)], was, n + 1, owner, today)
    ensures !Selected(now[n], owner) ==> CaughtUpPrefix(now, was, n + 1, owner, today)
  {
  }

  /** Every source key the catch-up of `plans` asks for. */
  function DueKeys(plans: seq<AutoPayPlan>, owner: string, today: Date): set<string>
    decreases |plans|
  {
    if plans == [] then {}
    else DueKeys(plans[..|plans| - 1], owner, today) + PlanDueKeys(plans[|plans| - 1], owner, today)
  }

  lemma DueKeysSnoc(plans: seq<AutoPayPlan>, n: nat, owner: string, today: Date)
    requires n < |plans|
    ensures DueKeys(plans[..n + 1], owner, today) == DueKeys(plans[..n], owner, today) + PlanDueKeys(plans[n], owner, today)
  {
    assert plans[..n + 1][..n] == plans[..n];
  }

  /** `d` is an occurrence the catch-up of plan `p` visits. */
  predicate IsDueOccurrence(p: AutoPayPlan, owner: string, today: Date, d: Date) {
    Selected(p, owner) && d in DueDates(p.nextPaymentDate, p.cadence, today) && d.year <= 9999
  }

  /** `k` is the source key of an occurrence some plan of `plans` is due for. */
  ghost predicate NamesDueOccurrence(plans: seq<AutoPayPlan>, owner: string, today: Date, k: string) {
    exists i, d :: 0 <= i < |plans| && IsDueOccurrence(plans[i], owner, today, d) && k == AutopayKey(plans[i].id, d)
  }

  /** Every due key names an occurrence a selected plan is due for. */
  lemma {:induction false} DueKeysAreOccurrences(plans: seq<AutoPayPlan>, owner: string, today: Date, k: string)
    requires k in DueKeys(plans, owner, today)
    ensures NamesDueOccurrence(plans, owner, today, k)
    decreases |plans|
  {
    var n := |plans| - 1;
    var p := plans[n];
    if k in DueKeys(plans[..n], owner, today) {
      DueKeysAreOccurrences(plans[..n], owner, today, k);
      var i, d :| 0 <= i < n && IsDueOccurrence(plans[..n][i], owner, today, d) && k == AutopayKey(plans[..n][i].id, d);
      assert plans[..n][i] == plans[i];
    } else {
      var d :| d in DueDates(p.nextPaymentDate, p.cadence, today) && d.year <= 9999 && k == AutopayKey(p.id, d);
      assert IsDueOccurrence(plans[n], owner, today, d);
    }
  }

  /** Every occurrence a selected plan is due for has its key among the due keys. */
  lemma {:induction false} OccurrencesAreDueKeys(plans: seq<AutoPayPlan>, owner: string, today: Date, i: nat, d: Date)
    requires i < |plans| && IsDueOccurrence(plans[i], owner, today, d)
    ensures AutopayKey(plans[i].id, d) in DueKeys(plans, owner, today)
    decreases |plans|
  {
    var n := |plans| - 1;
    if i < n {
      assert plans[..n][i] == plans[i];
      OccurrencesAreDueKeys(plans[..n], owner, today, i, d);
    }
  }

  /** A key is due exactly when it names an occurrence of a selected plan on a due date. */
  lemma DueKeysMeaning(plans: seq<AutoPayPlan>, owner: string, today: Date, k: string)
    ensures k in DueKeys(plans, owner, today) <==> NamesDueOccurrence(plans, owner, today, k)
  {
    if k in DueKeys(plans, owner, today) {
      DueKeysAreOccurrences(plans, owner, today, k);
    }
    if NamesDueOccurrence(plans, owner, today, k) {
      var i, d :| 0 <= i < |plans| && IsDueOccurrence(plans[i], owner, today, d) && k == AutopayKey(plans[i].id, d);
      OccurrencesAreDueKeys(plans, owner, today, i, d);
    }
  }

  /** After the catch-up no selected plan has a due key left, so a second run has nothing to do. */
  lemma {:induction false} NothingDueAfterCatchUp(plans: seq<AutoPayPlan>, owner: string, today: Date, caught: seq<AutoPayPlan>)
    requires |caught| == |plans|
    requires forall i :: 0 <= i < |plans| ==> caught[i] == CaughtUp(plans[i], owner, today)
    ensures DueKeys(caught, owner, today) == {}
    ensures forall i :: 0 <= i < |caught| ==> CaughtUp(caught[i], owner, today) == caught[i]
    decreases |plans|
  {
    forall i | 0 <= i < |caught|
      ensures CaughtUp(caught[i], owner, today) == caught[i]
      ensures Selected(caught[i], owner) ==> DueDates(caught[i].nextPaymentDate, caught[i].cadence, today) == []
    {
      if Selected(plans[i], owner) {
        AdvanceIdempotent(plans[i].nextPaymentDate, plans[i].cadence, today);
      }
    }
    if plans != [] {
      var n := |plans| - 1;
      NothingDueAfterCatchUp(plans[..n], owner, today, caught[..n]);
    }
  }
}
