/**
 * The savings-goal tracker of the Financial Goals screen: a list of goals
 * kept sorted by deadline, contributions clamped at the target, deletion,
 * the active/completed split with its summary totals, the automatic monthly
 * contribution and the reminder rules.
 *
 * Times are millisecond timestamps; a deadline is the timestamp of the
 * chosen day at midnight UTC. The clock and the new goal's id are
 * parameters; the confirmation dialog is the `confirmed` argument.
 */
module FinancialGoals {
  import opened Common

  /** 1000 * 60 * 60 * 24 */
  const DayMs: int := 86_400_000
  /** 1000 * 60 * 60 * 24 * 30 */
  const MonthMs: int := 2_592_000_000
  /** The screen's fixed assumptions: 20 % of a 10 000 000 monthly income goes to savings. */
  const SavingsPercentage: int := 20
  const MonthlyIncome: int := 10_000_000

  datatype Goal = Goal(
    id: int,
    title: string,
    target: int,
    currentAmount: int,
    deadline: int,
    autoAllocation: bool,
    monthlyContribution: int,
    createdAt: int)

  function DeadlineOf(g: Goal): int {
    g.deadline
  }

  function TargetOf(g: Goal): int {
    g.target
  }

  function CurrentOf(g: Goal): int {
    g.currentAmount
  }

  function Min(a: int, b: int): int {
    if a < b then a else b
  }

  // ---------------------------------------------------------------------
  // Progress, `(goal.currentAmount / goal.target) * 100`, compared with a
  // finite bound. With a target of 0 the quotient is +Infinity (saved > 0),
  // -Infinity (saved < 0) or NaN (saved = 0), and NaN compares false.

  /** progress < bound */
  predicate ProgressBelow(g: Goal, bound: real) {
    if g.target > 0 then (g.currentAmount * 100) as real < bound * g.target as real
    else if g.target < 0 then (g.currentAmount * 100) as real > bound * g.target as real
    else g.currentAmount < 0
  }

  /** progress >= bound */
  predicate ProgressAtLeast(g: Goal, bound: real) {
    if g.target > 0 then (g.currentAmount * 100) as real >= bound * g.target as real
    else if g.target < 0 then (g.currentAmount * 100) as real <= bound * g.target as real
    else g.currentAmount > 0
  }

  /** The quotient is NaN: target and saved amount both 0. */
  predicate ProgressUndefined(g: Goal) {
    g.target == 0 && g.currentAmount == 0
  }

  /** `activeGoals` keeps the goals whose progress is below 100. */
  predicate IsActive(g: Goal) {
    ProgressBelow(g, 100.0)
  }

  /** `completedGoals` keeps the goals whose progress is at least 100. */
  predicate IsCompleted(g: Goal) {
    ProgressAtLeast(g, 100.0)
  }

  /** For a positive target, active means "saved less than the target". */
  lemma ActiveMeansShort(g: Goal)
    requires g.target > 0
    ensures IsActive(g) <==> g.currentAmount < g.target
    ensures IsCompleted(g) <==> g.currentAmount >= g.target
  {
  }

  function ActiveGoals(goals: seq<Goal>): (r: seq<Goal>)
    ensures forall i :: 0 <= i < |r| ==> IsActive(r[i])
  {
    Filter(goals, IsActive)
  }

  function CompletedGoals(goals: seq<Goal>): (r: seq<Goal>)
    ensures forall i :: 0 <= i < |r| ==> IsCompleted(r[i])
  {
    Filter(goals, IsCompleted)
  }

  /**
   * The two lists split the goal list: every goal whose progress is a number
   * appears in exactly one of them, as often as in the goal list.
   */
  lemma ActiveCompletedPartition(goals: seq<Goal>, g: Goal)
    requires !ProgressUndefined(g)
    ensures multiset(ActiveGoals(goals))[g] + multiset(CompletedGoals(goals))[g] == multiset(goals)[g]
    ensures multiset(ActiveGoals(goals))[g] == 0 || multiset(CompletedGoals(goals))[g] == 0
  {
    FilterCounts(goals, IsActive, g);
    FilterCounts(goals, IsCompleted, g);
  }

  /** As written, a goal with target 0 and nothing saved is in neither list, so no card shows it. */
  lemma UndefinedProgressHidden(goals: seq<Goal>, g: Goal)
    requires ProgressUndefined(g) && g in goals
    ensures g !in ActiveGoals(goals) && g !in CompletedGoals(goals)
  {
  }

  /** The evidently intended test for the completed list: progress not below 100, NaN included. */
  predicate IsNotActive(g: Goal) {
    !IsActive(g)
  }

  /** The evidently intended split: completed is "not active". */
  function CompletedGoalsFixed(goals: seq<Goal>): (r: seq<Goal>)
    ensures forall i :: 0 <= i < |r| ==> !IsActive(r[i])
  {
    var r := Filter(goals, IsNotActive);
    assert forall i :: 0 <= i < |r| ==> r[i] in r && IsNotActive(r[i]);
    r
  }

  /** With the corrected split every goal appears in exactly one list, whatever its target. */
  lemma ActiveCompletedFixedPartition(goals: seq<Goal>, g: Goal)
    ensures multiset(ActiveGoals(goals))[g] + multiset(CompletedGoalsFixed(goals))[g] == multiset(goals)[g]
    ensures multiset(ActiveGoals(goals))[g] == 0 || multiset(CompletedGoalsFixed(goals))[g] == 0
  {
    FilterCounts(goals, IsActive, g);
    FilterCounts(goals, IsNotActive, g);
  }

  /** The summary card: target and saved amounts summed over the active goals only. */
  function TotalTarget(goals: seq<Goal>): int {
    SumOf(ActiveGoals(goals), TargetOf)
  }

  function TotalCurrent(goals: seq<Goal>): int {
    SumOf(ActiveGoals(goals), CurrentOf)
  }

  /** With positive targets the summary never shows more saved than targeted. */
  lemma SummaryBounded(goals: seq<Goal>)
    requires forall i :: 0 <= i < |goals| ==> goals[i].target > 0
    ensures TotalCurrent(goals) <= TotalTarget(goals)
  {
    var a := ActiveGoals(goals);
    forall i | 0 <= i < |a| ensures CurrentOf(a[i]) <= TargetOf(a[i]) {
      assert a[i] in goals;
    }
    SumOfLe(a, CurrentOf, TargetOf);
  }

  /** The summary's target is the goal list's total less the targets of the goals that are not active. */
  lemma SummaryCountsActiveOnly(goals: seq<Goal>)
    ensures TotalTarget(goals) == SumOf(goals, TargetOf) - SumOf(Filter(goals, IsNotActive), TargetOf)
    ensures TotalCurrent(goals) == SumOf(goals, CurrentOf) - SumOf(Filter(goals, IsNotActive), CurrentOf)
  {
    SumOfFilterSplit(goals, IsActive, IsNotActive, TargetOf);
    SumOfFilterSplit(goals, IsActive, IsNotActive, CurrentOf);
  }

  // ---------------------------------------------------------------------
  // Automatic monthly contribution.

  /** `Math.max(1, Math.ceil((deadline - now) / (30 days)))` */
  function MonthsUntil(deadline: int, now: int): (m: int)
    ensures m >= 1
    ensures (m - 1) * MonthMs < deadline - now || m == 1
    ensures deadline - now <= m * MonthMs
  {
    var c := CeilDiv(deadline - now, MonthMs);
    if c < 1 then 1 else c
  }

  /** `Math.floor(Math.min(target / months, monthlyIncome * savingsPercentage / 100))` */
  function AutoAllocation(target: int, deadline: int, now: int): (r: int)
    ensures r <= MonthlyIncome * SavingsPercentage / 100
    ensures target >= 0 ==> 0 <= r <= target
    ensures r as real <= target as real / MonthsUntil(deadline, now) as real
    ensures target as real / MonthsUntil(deadline, now) as real < (r + 1) as real || r == MonthlyIncome * SavingsPercentage / 100
  {
    var months := MonthsUntil(deadline, now);
    var monthlySavings := (MonthlyIncome * SavingsPercentage) as real / 100.0;
    var share := target as real / months as real;
    assert target >= 0 ==> share <= target as real by {
      if target >= 0 {
        assert share * months as real == target as real;
        assert share * months as real >= share * 1.0;
      }
    }
    (if share < monthlySavings then share else monthlySavings).Floor
  }

  /** The worked example: 10 000 000 due in six months gives 1 666 666 a month. */
  lemma AutoAllocationSixMonths(now: int)
    ensures AutoAllocation(10_000_000, now + 6 * MonthMs, now) == 1_666_666
  {
    assert MonthsUntil(now + 6 * MonthMs, now) == 6;
  }

  // ---------------------------------------------------------------------
  // Reminders.

  datatype ReminderKind = Deadline | Overdue | Stagnant
  datatype Severity = High | Medium
  datatype Reminder = Reminder(kind: ReminderKind, goal: Goal, severity: Severity)

  function DaysUntilDeadline(g: Goal, now: int): int {
    CeilDiv(g.deadline - now, DayMs)
  }

  function DaysSinceCreated(g: Goal, now: int): int {
    CeilDiv(now - g.createdAt, DayMs)
  }

  function TotalDays(g: Goal): int {
    CeilDiv(g.deadline - g.createdAt, DayMs)
  }

  /** The share of the goal's time already spent, in percent; 0 when the goal has no time at all. */
  function ExpectedProgress(g: Goal, now: int): real {
    var total := TotalDays(g);
    if total > 0 then DaysSinceCreated(g, now) as real / total as real * 100.0 else 0.0
  }

  predicate IsStagnant(g: Goal, now: int) {
    ProgressBelow(g, ExpectedProgress(g, now) - 20.0) && DaysSinceCreated(g, now) >= 7
  }

  predicate HasKind(rs: seq<Reminder>, k: ReminderKind) {
    exists i :: 0 <= i < |rs| && rs[i].kind == k
  }

  /** The reminders one goal produces, in the order they are pushed: deadline, overdue, stagnant. */
  function GoalReminders(g: Goal, now: int): seq<Reminder> {
    var days := DaysUntilDeadline(g, now);
    (if 0 < days <= 30 then [Reminder(Deadline, g, if days <= 7 then High else Medium)] else [])
    + (if days < 0 then [Reminder(Overdue, g, High)] else [])
    + (if IsStagnant(g, now) then [Reminder(Stagnant, g, Medium)] else [])
  }

  /** The deadline rules: which of "deadline" and "overdue" a goal gets, with which severity; at most two reminders, all about the goal. */
  lemma DeadlineRules(g: Goal, now: int)
    ensures |GoalReminders(g, now)| <= 2
    ensures forall i :: 0 <= i < |GoalReminders(g, now)| ==> GoalReminders(g, now)[i].goal == g
    ensures HasKind(GoalReminders(g, now), Deadline) <==> 0 < DaysUntilDeadline(g, now) <= 30
    ensures forall i :: 0 <= i < |GoalReminders(g, now)| && GoalReminders(g, now)[i].kind == Deadline ==>
              (GoalReminders(g, now)[i].severity == High <==> DaysUntilDeadline(g, now) <= 7)
    ensures HasKind(GoalReminders(g, now), Overdue) <==> DaysUntilDeadline(g, now) < 0
    ensures forall i :: 0 <= i < |GoalReminders(g, now)| && GoalReminders(g, now)[i].kind == Overdue ==>
              GoalReminders(g, now)[i].severity == High
    ensures DaysUntilDeadline(g, now) == 0 ==>
              !HasKind(GoalReminders(g, now), Deadline) && !HasKind(GoalReminders(g, now), Overdue)
  {
    var rs := GoalReminders(g, now);
    var days := DaysUntilDeadline(g, now);
    assert HasKind(rs, Deadline) ==> 0 < days <= 30 by {
      if HasKind(rs, Deadline) {
        var i :| 0 <= i < |rs| && rs[i].kind == Deadline;
      }
    }
    assert HasKind(rs, Overdue) ==> days < 0 by {
      if HasKind(rs, Overdue) {
        var i :| 0 <= i < |rs| && rs[i].kind == Overdue;
      }
    }
    assert days < 0 ==> rs[0].kind == Overdue;
    assert 0 < days <= 30 ==> rs[0].kind == Deadline;
  }

  /** The stagnation rule: a "stagnant" reminder exactly when the goal lags, never in its first week, and never for a goal with no time at all. */
  lemma StagnantRule(g: Goal, now: int)
    ensures HasKind(GoalReminders(g, now), Stagnant) <==> IsStagnant(g, now)
    ensures HasKind(GoalReminders(g, now), Stagnant) ==> DaysSinceCreated(g, now) >= 7
    ensures TotalDays(g) <= 0 && g.target > 0 && g.currentAmount >= 0 ==> !HasKind(GoalReminders(g, now), Stagnant)
  {
    var rs := GoalReminders(g, now);
    assert TotalDays(g) <= 0 && g.target > 0 && g.currentAmount >= 0 ==> !IsStagnant(g, now);
    assert HasKind(rs, Stagnant) ==> IsStagnant(g, now) by {
      if HasKind(rs, Stagnant) {
        var i :| 0 <= i < |rs| && rs[i].kind == Stagnant;
      }
    }
    assert IsStagnant(g, now) ==> rs[|rs| - 1].kind == Stagnant;
  }

  /** All reminders: the goals' reminders one goal after the other. */
  function AllReminders(goals: seq<Goal>, now: int): seq<Reminder> {
    if goals == [] then []
    else AllReminders(goals[..|goals| - 1], now) + GoalReminders(goals[|goals| - 1], now)
  }

  /** Every reminder is about a goal of the list, and no goal yields more than two. */
  lemma {:induction false} AllRemindersBounded(goals: seq<Goal>, now: int)
    ensures |AllReminders(goals, now)| <= 2 * |goals|
    ensures forall i :: 0 <= i < |AllReminders(goals, now)| ==> AllReminders(goals, now)[i].goal in goals
  {
    if goals != [] {
      var init := goals[..|goals| - 1];
      AllRemindersBounded(init, now);
      var a: seq<Reminder> := AllReminders(init, now);
      var b: seq<Reminder> := GoalReminders(goals[|goals| - 1], now);
      DeadlineRules(goals[|goals| - 1], now);
      forall i | 0 <= i < |a + b| ensures (a + b)[i].goal in goals {
        if i < |a| {
          assert a[i].goal in init;
        } else {
          assert (a + b)[i] == b[i - |a|];
        }
      }
    }
  }

  /** The body of the `forEach`: push the reminders of one goal, rule by rule. */
  method PushGoalReminders(reminders: seq<Reminder>, goal: Goal, now: int) returns (pushed: seq<Reminder>)
    ensures pushed == reminders + GoalReminders(goal, now)
  {
    var daysUntilDeadline := CeilDiv(goal.deadline - now, DayMs);
    var daysSinceCreated := CeilDiv(now - goal.createdAt, DayMs);
    var totalDays := CeilDiv(goal.deadline - goal.createdAt, DayMs);
    var expectedProgress := if totalDays > 0 then daysSinceCreated as real / totalDays as real * 100.0 else 0.0;
    ghost var deadline := if 0 < daysUntilDeadline <= 30 then [Reminder(Deadline, goal, if daysUntilDeadline <= 7 then High else Medium)] else [];
    ghost var overdue := if daysUntilDeadline < 0 then [Reminder(Overdue, goal, High)] else [];
    ghost var stagnant := if IsStagnant(goal, now) then [Reminder(Stagnant, goal, Medium)] else [];
    pushed := reminders;
    if daysUntilDeadline > 0 && daysUntilDeadline <= 30 {
      pushed := pushed + [Reminder(Deadline, goal, if daysUntilDeadline <= 7 then High else Medium)];
    }
    assert pushed == reminders + deadline;
    if daysUntilDeadline < 0 {
      pushed := pushed + [Reminder(Overdue, goal, High)];
    }
    assert pushed == reminders + deadline + overdue;
    if ProgressBelow(goal, expectedProgress - 20.0) && daysSinceCreated >= 7 {
      pushed := pushed + [Reminder(Stagnant, goal, Medium)];
    }
    assert pushed == reminders + deadline + overdue + stagnant;
  }

  /** `getReminders`: one `forEach` over the goals, pushing each rule's reminder in turn. */
  method GetReminders(goals: seq<Goal>, now: int) returns (reminders: seq<Reminder>)
    ensures reminders == AllReminders(goals, now)
  {
    reminders := [];
    var i := 0;
    while i < |goals|
      invariant 0 <= i <= |goals|
      invariant reminders == AllReminders(goals[..i], now)
    {
      reminders := PushGoalReminders(reminders, goals[i], now);
      assert goals[..i + 1][..i] == goals[..i];
      i := i + 1;
    }
    assert goals[..i] == goals;
  }

  // ---------------------------------------------------------------------
  // Contributions.

  /** The goal after a contribution: saved amount raised by amount, clamped at the target. */
  function Contributed(g: Goal, amount: int): (r: Goal)
    ensures r == g.(currentAmount := r.currentAmount)
    ensures r.currentAmount <= g.target
    ensures r.currentAmount == g.currentAmount + amount || r.currentAmount == g.target
    ensures g.currentAmount <= g.target && amount >= 0 ==> g.currentAmount <= r.currentAmount
  {
    g.(currentAmount := Min(g.currentAmount + amount, g.target))
  }

  /** `prev.map(goal => goal.id === goalId ? {...goal, currentAmount: …} : goal)` */
  function Contribute(goals: seq<Goal>, goalId: int, amount: int): (r: seq<Goal>)
    ensures |r| == |goals|
    ensures forall i :: 0 <= i < |goals| && goals[i].id != goalId ==> r[i] == goals[i]
    ensures forall i :: 0 <= i < |goals| && goals[i].id == goalId ==> r[i] == Contributed(goals[i], amount)
  {
    if goals == [] then []
    else [if goals[0].id == goalId then Contributed(goals[0], amount) else goals[0]] + Contribute(goals[1..], goalId, amount)
  }

  /** A contribution moves no goal: the deadlines, and so the order, are unchanged. */
  lemma ContributeKeepsOrder(goals: seq<Goal>, goalId: int, amount: int)
    requires SortedBy(goals, DeadlineOf)
    ensures SortedBy(Contribute(goals, goalId, amount), DeadlineOf)
  {
    var r := Contribute(goals, goalId, amount);
    assert forall i :: 0 <= i < |r| ==> r[i].deadline == goals[i].deadline;
  }

  /** A run of contributions, one after the other. */
  function ContributeAll(g: Goal, amounts: seq<int>): Goal {
    if amounts == [] then g else Contributed(ContributeAll(g, amounts[..|amounts| - 1]), amounts[|amounts| - 1])
  }

  /** After positive contributions the saved amount is min(target, initial + their sum). */
  lemma {:induction false} ContributeAllClamps(g: Goal, amounts: seq<int>)
    requires amounts != []
    requires forall i :: 0 <= i < |amounts| ==> amounts[i] > 0
    ensures ContributeAll(g, amounts).currentAmount == Min(g.currentAmount + SumOf(amounts, (a: int) => a), g.target)
    ensures ContributeAll(g, amounts).target == g.target
  {
    var init := amounts[..|amounts| - 1];
    if init != [] {
      ContributeAllClamps(g, init);
    }
  }

  // ---------------------------------------------------------------------
  // The form.

  datatype GoalForm = GoalForm(
    title: string,
    target: Option<int>,
    deadline: Option<int>,
    currentAmount: Option<int>,
    autoAllocation: bool,
    monthlyContribution: Option<int>)

  /** The form as it is reset: empty fields, "0" saved, automatic allocation on. */
  const EmptyGoalForm := GoalForm("", None, None, Some(0), true, None)

  /** One `onChange` event: the field edited and its new value (None for an emptied number or date input). */
  datatype GoalField =
    | TitleField(title: string)
    | TargetField(target: Option<int>)
    | DeadlineField(deadline: Option<int>)
    | CurrentAmountField(currentAmount: Option<int>)
    | AutoAllocationField(autoAllocation: bool)

  function SetField(form: GoalForm, field: GoalField): GoalForm {
    match field
    case TitleField(t) => form.(title := t)
    case TargetField(t) => form.(target := t)
    case DeadlineField(d) => form.(deadline := d)
    case CurrentAmountField(c) => form.(currentAmount := c)
    case AutoAllocationField(a) => form.(autoAllocation := a)
  }

  /** `handleInputChange`: store the field; after an edit of target, deadline or the checkbox, recompute the monthly contribution when allocation is on and both target and deadline are filled in. */
  function Edited(form: GoalForm, field: GoalField, now: int): (r: GoalForm)
    ensures r.(monthlyContribution := form.monthlyContribution) == SetField(form, field)
    ensures r.monthlyContribution != form.monthlyContribution ==>
              !field.TitleField? && !field.CurrentAmountField? && r.autoAllocation
    ensures (field.TargetField? || field.DeadlineField? || field.AutoAllocationField?) &&
            r.autoAllocation && r.target.Some? && r.deadline.Some? ==>
              r.monthlyContribution == Some(AutoAllocation(r.target.value, r.deadline.value, now))
    ensures r.monthlyContribution.Some? && r.monthlyContribution != form.monthlyContribution ==>
              r.monthlyContribution.value <= MonthlyIncome * SavingsPercentage / 100
    ensures !((field.TargetField? || field.DeadlineField? || field.AutoAllocationField?) &&
              r.autoAllocation && r.target.Some? && r.deadline.Some?) ==>
              r.monthlyContribution == form.monthlyContribution
  {
    var f := SetField(form, field);
    if (field.TargetField? || field.DeadlineField? || field.AutoAllocationField?)
       && f.autoAllocation && f.target.Some? && f.deadline.Some?
    then f.(monthlyContribution := Some(AutoAllocation(f.target.value, f.deadline.value, now)))
    else f
  }

  /** The goal a valid submit creates. */
  function NewGoal(form: GoalForm, id: int, now: int): (g: Goal)
    requires form.target.Some? && form.deadline.Some?
    ensures g.id == id && g.createdAt == now && g.title == form.title
    ensures g.target == form.target.value && g.deadline == form.deadline.value
    ensures g.currentAmount == form.currentAmount.GetOr(0)
    ensures g.autoAllocation == form.autoAllocation
    ensures form.autoAllocation ==> g.monthlyContribution == form.monthlyContribution.GetOr(0)
    ensures !form.autoAllocation ==> g.monthlyContribution == 0
  {
    Goal(id, form.title, form.target.value, form.currentAmount.GetOr(0), form.deadline.value,
         form.autoAllocation, if form.autoAllocation then form.monthlyContribution.GetOr(0) else 0, now)
  }

  predicate FormComplete(form: GoalForm) {
    form.title != "" && form.target.Some? && form.deadline.Some?
  }

  // ---------------------------------------------------------------------
  // The screen's state.

  class GoalTracker {
    var goals: seq<Goal>
    var form: GoalForm

    /** The goal list is always sorted by deadline, ascending. */
    ghost predicate Valid()
      reads this
    {
      SortedBy(goals, DeadlineOf)
    }

    constructor ()
      ensures Valid() && goals == [] && form == EmptyGoalForm
    {
      goals := [];
      form := EmptyGoalForm;
    }

    method InputChange(field: GoalField, now: int)
      modifies this
      ensures goals == old(goals)
      ensures form == Edited(old(form), field, now)
    {
      form := Edited(form, field, now);
    }

    /** `handleSubmit`: refuse an incomplete form; otherwise add the goal in deadline order and reset the form. */
    method Submit(id: int, now: int) returns (outcome: Outcome)
      requires Valid()
      modifies this
      ensures Valid()
      ensures !FormComplete(old(form)) ==> outcome == MissingField && goals == old(goals) && form == old(form)
      ensures FormComplete(old(form)) ==>
                outcome == Done && form == EmptyGoalForm &&
                goals == InsertBy(old(goals), NewGoal(old(form), id, now), DeadlineOf)
      ensures |goals| == |old(goals)| + (if outcome == Done then 1 else 0)
    {
      if form.title == "" || form.target.None? || form.deadline.None? {
        return MissingField;
      }
      var newGoal := NewGoal(form, id, now);
      var _ := InsertBySorted(goals, newGoal, DeadlineOf);
      goals := InsertBy(goals, newGoal, DeadlineOf);
      form := EmptyGoalForm;
      outcome := Done;
    }

    /** `handleAddContribution`: refuse a missing or non-positive amount; otherwise clamp-add it to the goal with that id. */
    method AddContribution(goalId: int, amount: Option<int>) returns (outcome: Outcome)
      requires Valid()
      modifies this
      ensures Valid() && form == old(form)
      ensures (amount.None? || amount.value <= 0) ==> outcome == InvalidAmount && goals == old(goals)
      ensures amount.Some? && amount.value > 0 ==> outcome == Done && goals == Contribute(old(goals), goalId, amount.value)
    {
      if amount.None? || amount.value <= 0 {
        return InvalidAmount;
      }
      ContributeKeepsOrder(goals, goalId, amount.value);
      goals := Contribute(goals, goalId, amount.value);
      outcome := Done;
    }

    /** `handleDelete`: when confirmed, drop every goal with that id. */
    method Delete(id: int, confirmed: bool)
      requires Valid()
      modifies this
      ensures Valid() && form == old(form)
      ensures !confirmed ==> goals == old(goals)
      ensures confirmed ==> goals == Filter(old(goals), (g: Goal) => g.id != id)
    {
      if confirmed {
        FilterSorted(goals, (g: Goal) => g.id != id, DeadlineOf);
        goals := Filter(goals, (g: Goal) => g.id != id);
      }
    }
  }

  /** Deleting removes exactly the goals with that id, keeping every other goal as often as before. */
  lemma DeleteRemovesExactly(goals: seq<Goal>, id: int, g: Goal)
    ensures multiset(Filter(goals, (x: Goal) => x.id != id))[g] == if g.id == id then 0 else multiset(goals)[g]
  {
    FilterCounts(goals, (x: Goal) => x.id != id, g);
  }
}
