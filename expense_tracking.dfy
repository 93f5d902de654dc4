/**
 * The expense ledger: expenses kept newest date first, a conjunctive filter
 * on category, payment method and a date range, per-category totals of the
 * filtered expenses, the trend series, and the add form.
 *
 * The id and creation time of a new expense, and today's date the form is
 * reset to, are parameters; the confirmation dialog is `confirmed`.
 */
module ExpenseTracking {
  import opened Common
  import opened Dates
  import Grouping

  datatype Expense = Expense(
    id: int,
    category: string,
    subCategory: string,
    amount: int,
    paymentMethod: string,
    date: CalendarDate,
    notes: string,
    createdAt: int)

  function AmountOf(e: Expense): int {
    e.amount
  }

  function DateKey(e: Expense): int {
    NewestFirst(e.date)
  }

  // ---------------------------------------------------------------------
  // The filter.

  /** The filter bar: "all" is `All`, an empty date bound is `None`. */
  datatype ExpenseFilters = ExpenseFilters(
    category: Criterion<string>,
    paymentMethod: Criterion<string>,
    dateFrom: Option<CalendarDate>,
    dateTo: Option<CalendarDate>)

  const NoFilters := ExpenseFilters(All, All, None, None)

  /** The three conditions of the filter, all of which must hold. */
  predicate Matches(f: ExpenseFilters, e: Expense) {
    f.category.Accepts(e.category)
    && f.paymentMethod.Accepts(e.paymentMethod)
    && (f.dateFrom.Some? ==> Ordinal(e.date) >= Ordinal(f.dateFrom.value))
    && (f.dateTo.Some? ==> Ordinal(e.date) <= Ordinal(f.dateTo.value))
  }

  function FilteredExpenses(expenses: seq<Expense>, f: ExpenseFilters): (r: seq<Expense>)
    ensures forall i :: 0 <= i < |r| ==> Matches(f, r[i])
  {
    var r := Filter(expenses, (e: Expense) => Matches(f, e));
    assert forall i :: 0 <= i < |r| ==> r[i] in r;
    r
  }

  /** The filter keeps every matching expense, as often as it occurs, and drops every other one. */
  lemma FilteredExpensesComplete(expenses: seq<Expense>, f: ExpenseFilters, e: Expense)
    ensures multiset(FilteredExpenses(expenses, f))[e] == if Matches(f, e) then multiset(expenses)[e] else 0
  {
    FilterCounts(expenses, (e: Expense) => Matches(f, e), e);
  }

  /** The filter keeps the ledger's order: filtering a split ledger filters each part. */
  lemma FilteredExpensesInOrder(a: seq<Expense>, b: seq<Expense>, f: ExpenseFilters)
    ensures FilteredExpenses(a + b, f) == FilteredExpenses(a, f) + FilteredExpenses(b, f)
  {
    FilterAppend(a, b, (e: Expense) => Matches(f, e));
  }

  /** With every criterion off, the filter returns the ledger unchanged. */
  lemma NoFiltersKeepsAll(expenses: seq<Expense>)
    ensures FilteredExpenses(expenses, NoFilters) == expenses
  {
    FilterKeepsAll(expenses, (e: Expense) => Matches(NoFilters, e));
  }

  /** The date range compares calendar days: a bound of the same day is inclusive. */
  lemma DateRangeIsCalendarRange(f: ExpenseFilters, e: Expense)
    requires f.dateFrom.Some? && f.dateTo.Some?
    requires ValidDate(e.date) && ValidDate(f.dateFrom.value) && ValidDate(f.dateTo.value)
    ensures Matches(f, e) <==>
              f.category.Accepts(e.category) && f.paymentMethod.Accepts(e.paymentMethod) &&
              !Before(e.date, f.dateFrom.value) && !Before(f.dateTo.value, e.date)
  {
    OrdinalOrder(e.date, f.dateFrom.value);
    OrdinalOrder(f.dateTo.value, e.date);
  }

  /** `totalExpenses`: the amounts of the filtered expenses, added up. */
  function TotalExpenses(expenses: seq<Expense>, f: ExpenseFilters): int {
    SumOf(FilteredExpenses(expenses, f), AmountOf)
  }

  // ---------------------------------------------------------------------
  // Totals per category.

  /** The buckets of the composition chart. */
  datatype CategoryTotals = CategoryTotals(needs: int, wants: int, savings: int)

  predicate KnownCategory(c: string) {
    c == "needs" || c == "wants" || c == "savings"
  }

  /** The sum of the amounts of the expenses in category c. */
  function CategorySum(xs: seq<Expense>, c: string): int {
    if xs == [] then 0
    else CategorySum(xs[..|xs| - 1], c) + (if xs[|xs| - 1].category == c then xs[|xs| - 1].amount else 0)
  }

  /** `categoryTotals`: a `forEach` that adds each amount into the bucket named by its category, if there is one. */
  method ComputeCategoryTotals(xs: seq<Expense>) returns (totals: CategoryTotals)
    ensures totals == CategoryTotals(CategorySum(xs, "needs"), CategorySum(xs, "wants"), CategorySum(xs, "savings"))
  {
    totals := CategoryTotals(0, 0, 0);
    var i := 0;
    while i < |xs|
      invariant 0 <= i <= |xs|
      invariant totals == CategoryTotals(CategorySum(xs[..i], "needs"), CategorySum(xs[..i], "wants"), CategorySum(xs[..i], "savings"))
    {
      var expense := xs[i];
      if expense.category == "needs" {
        totals := totals.(needs := totals.needs + expense.amount);
      } else if expense.category == "wants" {
        totals := totals.(wants := totals.wants + expense.amount);
      } else if expense.category == "savings" {
        totals := totals.(savings := totals.savings + expense.amount);
      }
      assert xs[..i + 1][..i] == xs[..i];
      i := i + 1;
    }
    assert xs[..i] == xs;
  }

  /** An expense of an unknown category changes none of the three totals. */
  lemma UnknownCategoryIgnored(xs: seq<Expense>, e: Expense)
    requires !KnownCategory(e.category)
    ensures CategorySum(xs + [e], "needs") == CategorySum(xs, "needs")
    ensures CategorySum(xs + [e], "wants") == CategorySum(xs, "wants")
    ensures CategorySum(xs + [e], "savings") == CategorySum(xs, "savings")
  {
    assert (xs + [e])[..|xs|] == xs;
  }

  /** When every expense has a known category, the three totals add up to the ledger's total. */
  lemma {:induction false} CategoryTotalsSum(xs: seq<Expense>)
    requires forall i :: 0 <= i < |xs| ==> KnownCategory(xs[i].category)
    ensures CategorySum(xs, "needs") + CategorySum(xs, "wants") + CategorySum(xs, "savings") == SumOf(xs, AmountOf)
  {
    if xs != [] {
      CategoryTotalsSum(xs[..|xs| - 1]);
    }
  }

  // ---------------------------------------------------------------------
  // The trend series.

  /**
   * `trendData`: one bucket per label, in ascending label order, holding the
   * summed amounts of the filtered expenses with that label. `labelOf` gives
   * the daily or weekly label of an expense's date; the model leaves it
   * abstract, and orders labels with `Text.Less`.
   */
  method TrendData(filtered: seq<Expense>, labelOf: Expense -> string) returns (series: seq<Grouping.Row>)
    ensures Grouping.StrictlySorted(series)
    ensures Grouping.Keys(series) == Grouping.KeysOf(filtered, labelOf)
    ensures SumOf(series, Grouping.TotalOf) == SumOf(filtered, AmountOf)
    ensures forall k :: Grouping.Lookup(series, k) == Grouping.KeyTotal(filtered, labelOf, AmountOf, k)
    ensures forall k :: Grouping.CaptionOf(series, k) == Grouping.FirstCaption(filtered, labelOf, labelOf, k)
  {
    series := Grouping.Group(filtered, labelOf, labelOf, AmountOf);
  }

  // ---------------------------------------------------------------------
  // The add form.

  /** The form's fields; an empty amount or date input is `None`. */
  datatype ExpenseForm = ExpenseForm(
    category: string,
    subCategory: string,
    amount: Option<int>,
    paymentMethod: string,
    date: Option<CalendarDate>,
    notes: string)

  function EmptyExpenseForm(today: CalendarDate): ExpenseForm {
    ExpenseForm("", "", None, "", Some(today), "")
  }

  /** One `onChange` event: the field edited and its new value. */
  datatype ExpenseField =
    | CategoryField(category: string)
    | SubCategoryField(subCategory: string)
    | AmountField(amount: Option<int>)
    | PaymentMethodField(paymentMethod: string)
    | DateField(date: Option<CalendarDate>)
    | NotesField(notes: string)

  /** `handleInputChange`: store the value; a new category clears the sub-category. */
  function Changed(form: ExpenseForm, field: ExpenseField): (r: ExpenseForm)
    ensures field.CategoryField? ==> r == form.(category := field.category, subCategory := "")
    ensures field.SubCategoryField? ==> r == form.(subCategory := field.subCategory)
    ensures !field.CategoryField? && !field.SubCategoryField? ==>
              r.subCategory == form.subCategory && r.category == form.category
  {
    match field
    case CategoryField(c) => form.(category := c, subCategory := "")
    case SubCategoryField(s) => form.(subCategory := s)
    case AmountField(a) => form.(amount := a)
    case PaymentMethodField(p) => form.(paymentMethod := p)
    case DateField(d) => form.(date := d)
    case NotesField(n) => form.(notes := n)
  }

  /** The required fields: category, amount, date and payment method. */
  predicate FormComplete(form: ExpenseForm) {
    form.category != "" && form.amount.Some? && form.date.Some? && form.paymentMethod != ""
  }

  function NewExpense(form: ExpenseForm, id: int, now: int): Expense
    requires FormComplete(form)
  {
    Expense(id, form.category, form.subCategory, form.amount.value, form.paymentMethod, form.date.value, form.notes, now)
  }

  class ExpenseTracker {
    var expenses: seq<Expense>
    var form: ExpenseForm

    /** The ledger is always sorted newest date first. */
    ghost predicate Valid()
      reads this
    {
      SortedBy(expenses, DateKey)
    }

    constructor (today: CalendarDate)
      ensures Valid() && expenses == [] && form == EmptyExpenseForm(today)
    {
      expenses := [];
      form := EmptyExpenseForm(today);
    }

    method InputChange(field: ExpenseField)
      modifies this
      ensures expenses == old(expenses)
      ensures form == Changed(old(form), field)
    {
      form := Changed(form, field);
    }

    /** `handleSubmit`: refuse an incomplete form; otherwise file the expense by date and reset the form. */
    method Submit(id: int, now: int, today: CalendarDate) returns (outcome: Outcome)
      requires Valid()
      modifies this
      ensures Valid()
      ensures !FormComplete(old(form)) ==> outcome == MissingField && expenses == old(expenses) && form == old(form)
      ensures FormComplete(old(form)) ==>
                outcome == Done && form == EmptyExpenseForm(today) &&
                expenses == InsertBy(old(expenses), NewExpense(old(form), id, now), DateKey)
    {
      if form.category == "" || form.amount.None? || form.date.None? || form.paymentMethod == "" {
        return MissingField;
      }
      var newExpense := NewExpense(form, id, now);
      var _ := InsertBySorted(expenses, newExpense, DateKey);
      expenses := InsertBy(expenses, newExpense, DateKey);
      form := EmptyExpenseForm(today);
      outcome := Done;
    }

    /** `handleDelete`: when confirmed, drop the expenses with that id. */
    method Delete(id: int, confirmed: bool)
      requires Valid()
      modifies this
      ensures Valid() && form == old(form)
      ensures !confirmed ==> expenses == old(expenses)
      ensures confirmed ==> expenses == Filter(old(expenses), (e: Expense) => e.id != id)
    {
      if confirmed {
        FilterSorted(expenses, (e: Expense) => e.id != id, DateKey);
        expenses := Filter(expenses, (e: Expense) => e.id != id);
      }
    }
  }

  /** "Newest first" in terms of dates: no expense is older than one after it. */
  lemma NewestFirstOrder(s: seq<Expense>, i: int, j: int)
    requires SortedBy(s, DateKey) && 0 <= i < j < |s|
    requires ValidDate(s[i].date) && ValidDate(s[j].date)
    ensures !Before(s[i].date, s[j].date)
  {
    OrdinalOrder(s[i].date, s[j].date);
  }

  /** A submitted expense is placed after every expense of the same date and before every older one. */
  lemma SubmitPlacement(s: seq<Expense>, e: Expense) returns (k: nat)
    requires SortedBy(s, DateKey)
    ensures k <= |s| && InsertBy(s, e, DateKey) == s[..k] + [e] + s[k..]
    ensures forall i :: 0 <= i < k ==> Ordinal(s[i].date) >= Ordinal(e.date)
    ensures forall i :: k <= i < |s| ==> Ordinal(s[i].date) < Ordinal(e.date)
  {
    k := InsertBySorted(s, e, DateKey);
  }

  /** Deleting removes exactly the expenses with that id, keeping every other expense as often as before. */
  lemma DeleteRemovesExactly(expenses: seq<Expense>, id: int, e: Expense)
    ensures multiset(Filter(expenses, (x: Expense) => x.id != id))[e] == if e.id == id then 0 else multiset(expenses)[e]
  {
    FilterCounts(expenses, (x: Expense) => x.id != id, e);
  }
}
