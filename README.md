# siakti-frontend budgeting logic, in Dafny

This project models the logic inside the screens of a React front end for
"50/30/20" personal budgeting, and proves properties of that model. The
markup is not modelled, only the computations and state updates behind it:

- **Financial goals** (`FinancialGoals`). A list of savings goals is kept
  sorted by deadline. Contributions are clamped at the goal's target, and
  delete asks for confirmation. The goals split into active and completed,
  with summary totals. Auto-allocation computes the monthly contribution.
  Reminders are deadline, overdue or stagnant, each with a severity.
- **Expense ledger** (`ExpenseTracking`). Expenses are added to a list kept
  newest date first. A filter combines category, payment method and date
  range. Totals are kept per needs/wants/savings bucket, and the trend chart
  groups expenses by label.
- **Income ledger** (`IncomeTracking`). The same add/delete pattern, plus a
  month/year/type filter. The month and year pickers list distinct values,
  sorted. The monthly chart groups incomes under a zero-padded `YYYY-MM` key.
- **Progress report** (`ProgressReport`). A weighted performance score, the
  "most bloated" category, and the per-category status, percentage and bar
  width. Also the CSV export text and the yearly total and average.
- **Small pieces**:
  - `BudgetPlanner`: the 50/30/20 split.
  - `BudgetProgressBar`: the colour fallback and the "remaining" text, which
    reads amounts back from their displayed strings.
  - `FinanceChart`: the income and expense sums.
  - `IncomeExpenseForm`: the add-transaction form.

Shared modules:

- `Common`: `Option`; `Criterion`, where the "all" sentinel is `All`; the
  outcome of a handler; sums; filters; stable insertion into a sorted list;
  rounding.
- `Text`: code-point string order, decimal printing and parsing, `split`,
  and id-ID digit grouping.
- `Dates`: calendar dates with an order-preserving ordinal.
- `Grouping`: the dictionary-then-sort step behind both charts.

Modelling conventions:

- Money is a whole number of rupiah (`int`); percentages are `real`.
  `Math.round(x)` is `Floor(x + 1/2)`.
- The clock (`now`, in milliseconds), generated ids, the `confirm` answer
  and today's date are parameters.
- Each `alert` on a rejected form becomes an `Outcome` value.
- Number and date inputs give "" or a value, so an empty input is `None`.
- Goal deadlines are millisecond timestamps, as `new Date(deadline)` gives
  them. Whole days and months use ceiling division by 86 400 000 and by
  2 592 000 000.
- Ledger dates are calendar dates. Their ordinal `year*372 + month*31 + day`
  orders them as the timestamps do.
- React state setters become classes:
  - `GoalTracker`, `ExpenseTracker` and `IncomeTracker` each hold the list
    and the form;
  - `TransactionForm` holds the three fields of the add-transaction form.
- Every `[...prev, x].sort(cmp)` acts on a list that is already sorted. JS
  sort is stable, so it is `InsertBy`: the new record goes after the
  records with an equal key. Each class keeps "sorted" as its invariant
  `Valid()`.

## Model

| member | source | states |
|---|---|---|
| FinancialGoals.GoalTracker.constructor | src/FinancialGoals.jsx:41-52 | Starts with no goals and the blank form, where saved amount is "0" and auto-allocation is on |
| FinancialGoals.GoalTracker.InputChange | src/FinancialGoals.jsx:185-209 | The goal list is untouched and the form becomes the edited form |
| FinancialGoals.Edited | src/FinancialGoals.jsx:185-209 | Only the named field changes, except the monthly contribution. That is recomputed as the auto-allocation when target, deadline or the auto flag was edited and auto is on with target and deadline set, and kept as it was in every other case. A recomputed contribution never exceeds the 2 000 000 monthly savings |
| FinancialGoals.NewGoal | src/FinancialGoals.jsx:237-248 | The new goal carries the form's title, target and deadline, the given id and creation time. A missing saved amount counts as 0. The auto-allocation flag is copied; the contribution is the form's (0 when empty) with auto-allocation on, and 0 with it off |
| FinancialGoals.GoalTracker.Submit | src/FinancialGoals.jsx:229-268 | With title, target or deadline missing: MissingField, and goals and form unchanged. Otherwise the goal is inserted in deadline order, the list grows by exactly one, the form is reset, and the list stays sorted by deadline |
| FinancialGoals.GoalTracker.AddContribution | src/FinancialGoals.jsx:270-290 | A missing (NaN) or non-positive amount gives InvalidAmount and leaves the goals unchanged. Otherwise the goals become Contribute(goals, id, amount) and stay sorted by deadline |
| FinancialGoals.Contributed | src/FinancialGoals.jsx:280-286 | Only currentAmount changes, to old + amount or the target. It never exceeds the target, and it never decreases for a positive amount when it started at or below the target |
| FinancialGoals.Contribute | src/FinancialGoals.jsx:277-289 | Same length; the goals with the id are contributed to, and every other goal is left in its place unchanged |
| FinancialGoals.ContributeKeepsOrder | src/FinancialGoals.jsx:277-289 | A contribution keeps the list sorted by deadline |
| FinancialGoals.ContributeAllClamps | src/FinancialGoals.jsx:282-285 | After any positive contributions the saved amount is min(initial + their sum, target); the target is unchanged |
| FinancialGoals.GoalTracker.Delete | src/FinancialGoals.jsx:292-296 | Declined: goals unchanged. Confirmed: exactly the goals with another id remain, in order, and the list stays sorted |
| FinancialGoals.DeleteRemovesExactly | src/FinancialGoals.jsx:294 | A goal with the id occurs 0 times after deletion; every other goal occurs as often as before |
| FinancialGoals.ActiveGoals | src/FinancialGoals.jsx:299-302 | Every kept goal has progress below 100 |
| FinancialGoals.CompletedGoals | src/FinancialGoals.jsx:303-306 | Every kept goal has progress of at least 100 |
| FinancialGoals.ActiveMeansShort | src/FinancialGoals.jsx:299-306 | For a positive target: active iff saved < target, completed iff saved >= target |
| FinancialGoals.ActiveCompletedPartition | src/FinancialGoals.jsx:299-306 | For a goal whose progress is a number, its occurrences in the goal list are split between the two lists: all of them in one and none in the other |
| FinancialGoals.UndefinedProgressHidden | src/FinancialGoals.jsx:299-306 | As written: a goal with target 0 and saved 0 is in neither list |
| FinancialGoals.CompletedGoalsFixed | src/FinancialGoals.jsx:303-306 | Corrected completed list: every goal that is not active |
| FinancialGoals.ActiveCompletedFixedPartition | src/FinancialGoals.jsx:299-306 | With the corrected completed list, every goal, including one with target 0, lands in exactly one of the two lists |
| FinancialGoals.SummaryCountsActiveOnly | src/FinancialGoals.jsx:308-312 | The summary totals are the totals over all goals minus those over the goals that are not active |
| FinancialGoals.SummaryBounded | src/FinancialGoals.jsx:308-312 | When every target is positive, the saved total never exceeds the target total |
| FinancialGoals.MonthsUntil | src/FinancialGoals.jsx:173-176 | The month count is at least 1, and it is the least number of 30-day months covering the time to the deadline |
| FinancialGoals.AutoAllocation | src/FinancialGoals.jsx:170-183 | The result is floor(min(target / months, 10 000 000 * 20 / 100)): at most 2 000 000, at most target / months with less than 1 to spare unless capped, and between 0 and target for a non-negative target |
| FinancialGoals.AutoAllocationSixMonths | src/FinancialGoals.jsx:170-183 | A 10 000 000 goal due in six 30-day months gets 1 666 666 a month |
| FinancialGoals.DeadlineRules | src/FinancialGoals.jsx:124-154 | Deadline iff 0 < days left <= 30, high iff days left <= 7. Overdue iff days left < 0, always high. Zero days left gives neither. Every reminder names its goal, and a goal never gets more than 2 reminders in all, since deadline and overdue exclude each other |
| FinancialGoals.StagnantRule | src/FinancialGoals.jsx:128-136 | Stagnant iff progress < expected - 20 and at least 7 days old. Never for a goal whose deadline is not after its creation, with a positive target and a non-negative saved amount |
| FinancialGoals.PushGoalReminders | src/FinancialGoals.jsx:123-164 | The loop body appends exactly the goal's reminders, deadline then overdue then stagnant |
| FinancialGoals.GetReminders | src/FinancialGoals.jsx:119-167 | The result is every goal's reminders, goal by goal in list order |
| FinancialGoals.AllRemindersBounded | src/FinancialGoals.jsx:119-167 | Every reminder is about a goal of the list, and there are at most 2 per goal |
| ExpenseTracking.FilteredExpenses | src/ExpenseTracking.jsx:115-135 | Every kept expense matches category, payment method and both date bounds |
| ExpenseTracking.FilteredExpensesComplete | src/ExpenseTracking.jsx:116-134 | Every matching expense is kept as often as it occurs; no other expense is kept |
| ExpenseTracking.FilteredExpensesInOrder | src/ExpenseTracking.jsx:116-134 | Filtering a concatenation is the concatenation of the filtered parts, so the order is preserved |
| ExpenseTracking.NoFiltersKeepsAll | src/ExpenseTracking.jsx:98-103 | The initial filters (all, all, no dates) return the list unchanged |
| ExpenseTracking.DateRangeIsCalendarRange | src/ExpenseTracking.jsx:123-131 | On valid dates, the date test is "not before the from date and not after the to date" in calendar order |
| ExpenseTracking.ComputeCategoryTotals | src/ExpenseTracking.jsx:138-146 | Each bucket holds the sum of the amounts of that category |
| ExpenseTracking.UnknownCategoryIgnored | src/ExpenseTracking.jsx:141 | An expense of any other category changes none of the three totals |
| ExpenseTracking.CategoryTotalsSum | src/ExpenseTracking.jsx:138-146 | When every category is known, the three totals add up to the total of the amounts, i.e. to totalExpenses |
| ExpenseTracking.TrendData | src/ExpenseTracking.jsx:166-202 | Buckets have distinct labels in ascending order and cover exactly the labels that occur. Each bucket's total is the sum for its label, and all totals add up to the filtered sum. Each bucket is captioned by its label |
| ExpenseTracking.Changed | src/ExpenseTracking.jsx:269-279 | A new category clears the sub-category; a sub-category edit sets only it; any other edit keeps both |
| ExpenseTracking.ExpenseTracker.constructor | src/ExpenseTracking.jsx:87-94 | No expenses; blank form dated today |
| ExpenseTracking.ExpenseTracker.InputChange | src/ExpenseTracking.jsx:269-279 | Expenses untouched; the form is the changed form |
| ExpenseTracking.ExpenseTracker.Submit | src/ExpenseTracking.jsx:281-321 | Category, amount, date or payment method missing: MissingField, and nothing changes. Otherwise the new expense is inserted newest first and the list keeps that order. The sub-category is "" unless chosen, and the form is reset to today |
| ExpenseTracking.SubmitPlacement | src/ExpenseTracking.jsx:305-307 | The new expense goes after every expense of the same or a later date and before every earlier one |
| ExpenseTracking.NewestFirstOrder | src/ExpenseTracking.jsx:306 | In the kept order no valid date comes before a valid date stored after it |
| ExpenseTracking.ExpenseTracker.Delete | src/ExpenseTracking.jsx:323-327 | Declined: unchanged. Confirmed: exactly the expenses with another id remain, in order |
| ExpenseTracking.DeleteRemovesExactly | src/ExpenseTracking.jsx:325 | An expense with the id occurs 0 times after deletion; every other expense occurs as often as before |
| IncomeTracking.CollectDistinct | src/IncomeTracking.jsx:62-66 | The set holds each occurring value once and nothing else |
| IncomeTracking.SortDistinct | src/IncomeTracking.jsx:67 | The sorted array is strictly ordered by the comparator and has the same elements |
| IncomeTracking.AvailableMonths | src/IncomeTracking.jsx:61-68 | Strictly ascending, exactly the months that occur, each between 1 and 12 for valid dates |
| IncomeTracking.AvailableYears | src/IncomeTracking.jsx:70-77 | Strictly descending, exactly the years that occur |
| IncomeTracking.FilteredIncomes | src/IncomeTracking.jsx:80-93 | Every kept income matches month, year and type |
| IncomeTracking.FilteredIncomesComplete | src/IncomeTracking.jsx:81-92 | Every matching income is kept as often as it occurs; no other income is kept |
| IncomeTracking.FilteredIncomesInOrder | src/IncomeTracking.jsx:81-92 | Order-preserving: the filter distributes over concatenation |
| IncomeTracking.AllCriteriaOff | src/IncomeTracking.jsx:86-89 | With all three criteria "all", every income is kept, in order |
| IncomeTracking.MonthKeyOrder | src/IncomeTracking.jsx:101-103 | For 4-digit years, the YYYY-MM keys are ordered as (year, month) is, and equal keys mean equal months |
| IncomeTracking.PaddedMonth | src/IncomeTracking.jsx:101-103 | The padded month is two digits that spell the month |
| IncomeTracking.MonthlyIncomeData | src/IncomeTracking.jsx:96-120 | One bucket per occurring month key, keys ascending. Each total is the sum of that month's filtered incomes, and the totals add up to totalIncome. Each bucket's caption is the month label of the first filtered income of that month |
| IncomeTracking.IncomeTracker.constructor | src/IncomeTracking.jsx:41-51 | No incomes; blank form dated today with no proof |
| IncomeTracking.IncomeTracker.InputChange | src/IncomeTracking.jsx:177-180 | Incomes untouched; only the named text field changes |
| IncomeTracking.IncomeTracker.FileChange | src/IncomeTracking.jsx:182-187 | A chosen file sets the proof to its name; no file leaves the form unchanged |
| IncomeTracking.IncomeTracker.Submit | src/IncomeTracking.jsx:189-222 | Source, amount or date missing: MissingField, and nothing changes. Otherwise the new income is inserted newest first, with the file name or no proof, and the form is reset |
| IncomeTracking.SubmitPlacement | src/IncomeTracking.jsx:207-209 | The new income goes after every income of the same or a later date and before every earlier one |
| IncomeTracking.IncomeTracker.Delete | src/IncomeTracking.jsx:224-228 | Declined: unchanged. Confirmed: exactly the incomes with another id remain, in order |
| IncomeTracking.DeleteRemovesExactly | src/IncomeTracking.jsx:226 | An income with the id occurs 0 times after deletion; every other income occurs as often as before |
| ProgressReport.SpendingEfficiency | src/ProgressReport.jsx:91-94 | Between 0 and 100; exactly 100 iff within budget; otherwise max(0, 100 - overage / budget * 100) |
| ProgressReport.SavingsEfficiency | src/ProgressReport.jsx:95-96 | 100 iff actual >= 0.8 * budget; otherwise actual / budget * 100, which is below 80; between 0 and 100 for a non-negative actual |
| ProgressReport.PerformanceScore | src/ProgressReport.jsx:86-100 | The weighted score never exceeds 100, and it lies in [0, 100] when actual savings are non-negative |
| ProgressReport.PerfectScore | src/ProgressReport.jsx:91-99 | Needs and wants within budget and savings at 80% or more give exactly 100 |
| ProgressReport.NeedsOverspendLowersScore | src/ProgressReport.jsx:91-99 | Overspending needs by more than 1% lowers the score below 100 |
| ProgressReport.SampleScore | src/ProgressReport.jsx:38-50 | On the report's sample month, savings efficiency is 36 and the score is 87 |
| ProgressReport.MostBloated | src/ProgressReport.jsx:127-129 | The result has the largest absolute difference, and it is the first category that has it |
| ProgressReport.SampleMostBloated | src/ProgressReport.jsx:105-130 | On the sample month the most bloated category is Tabungan, which is under budget |
| ProgressReport.StatusOf | src/ProgressReport.jsx:455-458 | Overbudget iff actual > budget; Under Budget iff actual < budget and not Tabungan; On Track otherwise |
| ProgressReport.Percentage | src/ProgressReport.jsx:456 | actual / budget * 100 for a positive budget, else 0 |
| ProgressReport.BarWidth | src/ProgressReport.jsx:511 | min(percentage, 100) |
| ProgressReport.StatusMatchesBar | src/ProgressReport.jsx:455-511 | For a positive budget: Overbudget iff percentage > 100, and the bar is short of full iff actual < budget |
| ProgressReport.CsvRowFields | src/ProgressReport.jsx:253-255 | A row splits on commas into the name, budget, actual and actual - budget, and each number parses back to its value |
| ProgressReport.CsvReportLines | src/ProgressReport.jsx:251-256 | The export splits into the header and the Kebutuhan, Keinginan and Tabungan rows, in that order, ending with a newline |
| ProgressReport.MonthlyAverage | src/ProgressReport.jsx:569 | The result is round(total / 12), i.e. total - 6 < 12 * average <= total + 6 |
| ProgressReport.SampleIncomeSummary | src/ProgressReport.jsx:71-74 | The sample year's income totals 152 000 000 with a monthly average of 12 666 667 |
| BudgetPlanner.TotalIncome | src/BudgetPlanner.jsx:9 | A missing or non-numeric income counts as 0 |
| BudgetPlanner.Allocate | src/BudgetPlanner.jsx:10-12 | The three parts add up to the income exactly; needs equal wants plus savings and wants are 1.5 times savings, which forces the 50/30/20 shares; for income >= 0: 0 <= savings <= wants <= needs <= income |
| BudgetPlanner.EmptyIncomePlansNothing | src/BudgetPlanner.jsx:9-12 | No income plans 0 for every part |
| BudgetPlanner.SampleAllocation | src/BudgetPlanner.jsx:9-12 | 12 500 000 splits into 6 250 000, 3 750 000 and 2 500 000 |
| BudgetProgressBar.PaletteFor | src/components/BudgetProgressBar.jsx:12-22 | blue, purple and green get their own palettes; every other name gets blue (names inherited by every JS object are left out, see below) |
| BudgetProgressBar.StripInt | src/components/BudgetProgressBar.jsx:28-29 | No digits gives NaN; otherwise the number the digits spell, in order |
| BudgetProgressBar.Remaining | src/components/BudgetProgressBar.jsx:24-30 | Savings cards show `used` verbatim. Others show "Rp" and the grouped difference of the two numbers, or "RpNaN" when either has no digit |
| BudgetProgressBar.StripRupiah | src/components/BudgetProgressBar.jsx:27-30 | Stripping a displayed "Rp" amount gives the amount back |
| BudgetProgressBar.RemainingOfDisplayed | src/components/BudgetProgressBar.jsx:24-30 | For displayed amounts, the remaining text is the displayed difference |
| BudgetProgressBar.SampleNeedsCard | src/Dashboard.jsx:48-55 | "Rp6.250.000" reads as 6 250 000, and the needs card shows 1 400 000 remaining |
| FinanceChart.AddTransaction | src/components/FinanceChart.jsx:8-13 | A new transaction adds its amount to the income sum iff its type is "income", to the expense sum iff it is "expense", and to neither otherwise |
| FinanceChart.SumsIgnoreOrder | src/components/FinanceChart.jsx:8-13 | Both sums are unchanged by any permutation of the transactions |
| FinanceChart.SlicesCoverAll | src/components/FinanceChart.jsx:8-13 | Income, expense and other-typed sums add up to the total |
| IncomeExpenseForm.TransactionForm.constructor | src/components/IncomeExpenseForm.jsx:4-6 | Empty description and amount; the type is "income" |
| IncomeExpenseForm.TransactionForm.SetDescription | src/components/IncomeExpenseForm.jsx:4 | Only the description changes |
| IncomeExpenseForm.TransactionForm.SetAmount | src/components/IncomeExpenseForm.jsx:5 | Only the amount changes |
| IncomeExpenseForm.TransactionForm.SetKind | src/components/IncomeExpenseForm.jsx:6 | Only the type changes |
| IncomeExpenseForm.TransactionForm.Submit | src/components/IncomeExpenseForm.jsx:8-19 | Empty description or amount: nothing emitted and nothing changes. Otherwise exactly one transaction is emitted with the description, amount, type and time; description and amount are reset and the type is kept |
| Dates.OrdinalOrder | src/ExpenseTracking.jsx:306 | On valid dates, the ordinal is ordered exactly as calendar order, and equal ordinals mean equal dates |
| Grouping.Group | src/ExpenseTracking.jsx:167-199 | The dictionary-then-sort step: keys are strictly ascending and are exactly the keys that occur. Each bucket holds its key's total, and the totals sum to the input's total. A bucket keeps the caption of the first record filed under its key |
| Common.SumOfPermutation | src/components/FinanceChart.jsx:8-13 | A sum over a list does not depend on the order of its elements |
| Common.InsertBySorted | src/FinancialGoals.jsx:250-254 | Inserting into a sorted list keeps it sorted. The new element follows every element with a key that is not greater and precedes every greater one |
| Text.ParseShow | src/ProgressReport.jsx:253-255 | Reading back a printed integer gives the integer |
| Text.GroupedValue | src/components/BudgetProgressBar.jsx:27-30 | The digits of an id-ID grouped number spell that number |
| Text.LessTransitive | src/ExpenseTracking.jsx:194-198 | The key order used to sort chart buckets is transitive |
| Text.LessTrichotomy | src/ExpenseTracking.jsx:194-198 | Two distinct keys are always ordered one way or the other, and never both ways |

## Left out

- Markup, chart.js data and options, navigation, Login and Register. They only display, navigate or log.
- Locale formatting. The id-ID digit grouping of non-negative numbers is modelled. Daily, weekly and month captions (`toLocaleDateString`) are a parameter `labelOf`, and `localeCompare` is code-point order (`Text.Less`).
- Time zones. A date string is one calendar day and its month and year are read directly; the UTC/local shift of `new Date` is not modelled.
- Floating point. `parseFloat`, `Number` and `parseInt` are inputs that are already parsed. Money is exact integers, and percentages are exact reals rather than IEEE doubles. The one IEEE case that changes a branch is modelled: the progress of a goal with target 0.
- The reminder timer and `checkReminders` (src/FinancialGoals.jsx:60-117). They only toggle a display flag.
- The goal templates (src/FinancialGoals.jsx:211-227). They only fill the form through `calculateAutoAllocation`, which is modelled.
- The filter-bar setters, show/hide flags and `trendView`. Each only stores a value.
- `availableSubCategories` (src/ExpenseTracking.jsx:109-112): a lookup of the chosen category in the fixed sub-category table, feeding only the form's drop-down.
- The File object of an income proof: only its name is kept. Blob, object URL, download and `window.print` in the report are left out; the CSV text is modelled.
- `alert` and `window.confirm`: they become an `Outcome` result and a `confirmed` argument. `Date.now()` ids and `new Date()` are parameters.
- BudgetProgressBar.PaletteFor: `colors[color] ?? colors.blue` also finds the names every JS object inherits, such as "constructor" or "toString", and yields that inherited function instead of the blue palette. The model treats them as unknown names, which get blue.
- `categoryTotals` in JavaScript also accepts keys inherited from the object prototype, such as "constructor". The model counts only needs, wants and savings.
- User-added custom sub-categories, editable allocation percentages and an 80%-threshold budget-status classifier: the code has no such features, so the model has none.
- ProgressReport.SpendingEfficiency: requires a positive budget. The source divides by the fixed sample budgets, which are positive.
- ProgressReport.SavingsEfficiency: requires a positive budget, for the same reason.
- ProgressReport.PerformanceScore: requires positive budgets, for the same reason.
- FinancialGoals.StagnantRule: "never stagnant when the deadline is not after creation" is stated only for a positive target and a non-negative saved amount. With a negative saved amount, which `parseFloat` allows, the progress is negative, so a stagnant reminder does fire.
- FinancialGoals.SummaryBounded: assumes positive targets. The source accepts any parsed number.
- Dates.ValidDate: accepts any day from 1 to 31 in every month. That is enough for the order proofs; invalid calendar days are not rejected.

## Findings

| source | as written | input that shows it | evidently intended | confidence | as-written member | corrected member |
|---|---|---|---|---|---|---|
| src/FinancialGoals.jsx:299-306 | A goal is active when `progress < 100` and completed when `progress >= 100`, with progress `(currentAmount / target) * 100` | A goal submitted with target "0" and saved amount "0": progress is 0/0 = NaN, both comparisons are false, and the goal appears in neither list, so it cannot be seen or deleted | Every goal is in exactly one of the two lists; completed = not active | not executed | FinancialGoals.UndefinedProgressHidden | FinancialGoals.ActiveCompletedFixedPartition |
