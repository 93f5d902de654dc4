/**
 * The income ledger: incomes kept newest date first, the month and year
 * lists offered by the filter bar, a month / year / type filter where "all"
 * switches a criterion off, the monthly series keyed by `YYYY-MM`, and the
 * add form with its optional proof file.
 *
 * The month and year of an income are those of its stored calendar day (the
 * screen reads them back through `Date`, in the browser's time zone). The
 * id, creation time and today's date are parameters; the confirmation
 * dialog is `confirmed`; of a proof file only its name is kept.
 */
module IncomeTracking {
  import opened Common
  import opened Text
  import opened Dates
  import Grouping

  datatype Income = Income(
    id: int,
    source: string,
    date: CalendarDate,
    amount: int,
    notes: string,
    proof: Option<string>,
    createdAt: int)

  function AmountOf(i: Income): int {
    i.amount
  }

  /** `date.getMonth() + 1` */
  function MonthOf(i: Income): int {
    i.date.month
  }

  /** `date.getFullYear()` */
  function YearOf(i: Income): int {
    i.date.year
  }

  function DateKey(i: Income): int {
    NewestFirst(i.date)
  }

  // ---------------------------------------------------------------------
  // The month and year lists: a `Set` filled in a `forEach`, then sorted.

  /** The sort keys: `(a, b) => a - b` and `(a, b) => b - a`. */
  function Ascending(x: int): int {
    x
  }

  function Descending(x: int): int {
    -x
  }

  predicate StrictlySortedBy(s: seq<int>, key: int -> int) {
    forall a, b :: 0 <= a < b < |s| ==> key(s[a]) < key(s[b])
  }

  /** Some income of the list has this part (month or year). */
  predicate Occurs(incomes: seq<Income>, part: Income -> int, v: int) {
    exists k :: 0 <= k < |incomes| && part(incomes[k]) == v
  }

  /** `new Set()` plus `add` for each income: the distinct values of part, in first-seen order. */
  method CollectDistinct(incomes: seq<Income>, part: Income -> int) returns (seen: seq<int>)
    ensures forall a, b :: 0 <= a < b < |seen| ==> seen[a] != seen[b]
    ensures forall v :: v in seen <==> Occurs(incomes, part, v)
  {
    seen := [];
    var i := 0;
    while i < |incomes|
      invariant 0 <= i <= |incomes|
      invariant forall a, b :: 0 <= a < b < |seen| ==> seen[a] != seen[b]
      invariant forall v :: v in seen <==> Occurs(incomes[..i], part, v)
    {
      var v := part(incomes[i]);
      if v !in seen {
        seen := seen + [v];
      }
      forall w ensures w in seen <==> Occurs(incomes[..i + 1], part, w) {
        if Occurs(incomes[..i + 1], part, w) {
          var k :| 0 <= k < i + 1 && part(incomes[..i + 1][k]) == w;
          if k < i {
            assert part(incomes[..i][k]) == w;
          }
        }
        if w in seen && w != v {
          var k :| 0 <= k < i && part(incomes[..i][k]) == w;
          assert part(incomes[..i + 1][k]) == w;
        }
        if w == v {
          assert part(incomes[..i + 1][i]) == w;
        }
      }
      i := i + 1;
    }
    assert incomes[..i] == incomes;
  }

  /** Inserting a new value into a strictly sorted list keeps it strictly sorted and adds just that value. */
  lemma InsertStrict(r: seq<int>, x: int, key: int -> int)
    requires StrictlySortedBy(r, key) && x !in r
    requires forall a, b :: key(a) == key(b) ==> a == b
    ensures StrictlySortedBy(InsertBy(r, x, key), key)
    ensures forall v :: v in InsertBy(r, x, key) <==> v in r || v == x
  {
    assert SortedBy(r, key);
    var k := InsertBySorted(r, x, key);
    var t := InsertBy(r, x, key);
    forall a | 0 <= a < k ensures key(r[a]) < key(x) {
      assert r[a] != x;
    }
    InsertedAt(r, x, k, t);
    forall a, b | 0 <= a < b < |t| ensures key(t[a]) < key(t[b]) {
      if b <= k {
      } else if a <= k {
        assert key(x) < key(r[b - 1]);
      } else {
        assert key(r[a - 1]) < key(r[b - 1]);
      }
    }
  }

  /** The elements of `r[..k] + [x] + r[k..]`, position by position and as a set. */
  lemma InsertedAt(r: seq<int>, x: int, k: nat, t: seq<int>)
    requires k <= |r| && t == r[..k] + [x] + r[k..]
    ensures |t| == |r| + 1
    ensures forall j :: 0 <= j < k ==> t[j] == r[j]
    ensures t[k] == x
    ensures forall j :: k < j < |t| ==> t[j] == r[j - 1]
    ensures forall v :: v in t <==> v in r || v == x
  {
    forall v ensures v in t <==> v in r || v == x {
      if v in r {
        var j :| 0 <= j < |r| && r[j] == v;
        if j < k {
          assert t[j] == v;
        } else {
          assert t[j + 1] == v;
        }
      }
      if v in t && v != x {
        var j :| 0 <= j < |t| && t[j] == v;
        if j < k {
          assert r[j] == v;
        } else {
          assert r[j - 1] == v;
        }
      }
    }
  }

  /** `Array.from(set).sort(cmp)`: a stable sort of distinct values, here by insertion. */
  method SortDistinct(values: seq<int>, key: int -> int) returns (sorted: seq<int>)
    requires forall a, b :: 0 <= a < b < |values| ==> values[a] != values[b]
    requires forall a, b :: key(a) == key(b) ==> a == b
    ensures StrictlySortedBy(sorted, key)
    ensures forall v :: v in sorted <==> v in values
  {
    sorted := [];
    var i := 0;
    while i < |values|
      invariant 0 <= i <= |values|
      invariant StrictlySortedBy(sorted, key)
      invariant forall v :: v in sorted <==> v in values[..i]
    {
      assert values[i] !in values[..i];
      InsertStrict(sorted, values[i], key);
      assert values[..i + 1] == values[..i] + [values[i]];
      sorted := InsertBy(sorted, values[i], key);
      i := i + 1;
    }
    assert values[..i] == values;
  }

  /** `availableMonths`: the months that occur, ascending, each once. */
  method AvailableMonths(incomes: seq<Income>) returns (months: seq<int>)
    ensures forall a, b :: 0 <= a < b < |months| ==> months[a] < months[b]
    ensures forall m :: m in months <==> Occurs(incomes, MonthOf, m)
    ensures (forall k :: 0 <= k < |incomes| ==> ValidDate(incomes[k].date)) ==>
              forall a :: 0 <= a < |months| ==> 1 <= months[a] <= 12
  {
    var seen := CollectDistinct(incomes, MonthOf);
    months := SortDistinct(seen, Ascending);
    assert forall a, b :: 0 <= a < b < |months| ==> Ascending(months[a]) < Ascending(months[b]);
    if forall k :: 0 <= k < |incomes| ==> ValidDate(incomes[k].date) {
      forall a | 0 <= a < |months| ensures 1 <= months[a] <= 12 {
        assert Occurs(incomes, MonthOf, months[a]);
      }
    }
  }

  /** `availableYears`: the years that occur, descending, each once. */
  method AvailableYears(incomes: seq<Income>) returns (years: seq<int>)
    ensures forall a, b :: 0 <= a < b < |years| ==> years[a] > years[b]
    ensures forall y :: y in years <==> Occurs(incomes, YearOf, y)
  {
    var seen := CollectDistinct(incomes, YearOf);
    years := SortDistinct(seen, Descending);
    assert forall a, b :: 0 <= a < b < |years| ==> Descending(years[a]) < Descending(years[b]);
  }

  // ---------------------------------------------------------------------
  // The filter.

  /** The filter bar; it starts on the current month and year and type "all". */
  datatype IncomeFilters = IncomeFilters(month: Criterion<int>, year: Criterion<int>, incomeType: Criterion<string>)

  function InitialFilters(today: CalendarDate): IncomeFilters {
    IncomeFilters(Only(today.month), Only(today.year), All)
  }

  predicate Matches(f: IncomeFilters, i: Income) {
    f.month.Accepts(MonthOf(i)) && f.year.Accepts(YearOf(i)) && f.incomeType.Accepts(i.source)
  }

  function FilteredIncomes(incomes: seq<Income>, f: IncomeFilters): (r: seq<Income>)
    ensures forall k :: 0 <= k < |r| ==> Matches(f, r[k])
  {
    var r := Filter(incomes, (i: Income) => Matches(f, i));
    assert forall k :: 0 <= k < |r| ==> r[k] in r;
    r
  }

  /** The filter keeps every matching income, as often as it occurs, and drops every other one. */
  lemma FilteredIncomesComplete(incomes: seq<Income>, f: IncomeFilters, i: Income)
    ensures multiset(FilteredIncomes(incomes, f))[i] == if Matches(f, i) then multiset(incomes)[i] else 0
  {
    FilterCounts(incomes, (i: Income) => Matches(f, i), i);
  }

  /** The filter keeps the ledger's order. */
  lemma FilteredIncomesInOrder(a: seq<Income>, b: seq<Income>, f: IncomeFilters)
    ensures FilteredIncomes(a + b, f) == FilteredIncomes(a, f) + FilteredIncomes(b, f)
  {
    FilterAppend(a, b, (i: Income) => Matches(f, i));
  }

  /** With all three criteria on "all", nothing is filtered out. */
  lemma AllCriteriaOff(incomes: seq<Income>)
    ensures FilteredIncomes(incomes, IncomeFilters(All, All, All)) == incomes
  {
    FilterKeepsAll(incomes, (i: Income) => Matches(IncomeFilters(All, All, All), i));
  }

  /** `totalIncome`: the amounts of the filtered incomes, added up. */
  function TotalIncome(incomes: seq<Income>, f: IncomeFilters): int {
    SumOf(FilteredIncomes(incomes, f), AmountOf)
  }

  // ---------------------------------------------------------------------
  // The monthly series.

  /** `${year}-${String(month).padStart(2, "0")}` */
  function MonthKey(year: int, month: int): string {
    Show(year) + "-" + PadStart(Show(month), 2, '0')
  }

  function MonthKeyOf(i: Income): string {
    MonthKey(YearOf(i), MonthOf(i))
  }

  lemma FourDigits(y: int)
    requires 1000 <= y <= 9999
    ensures |Show(y)| == 4 && AllDigits(Show(y)) && Value(Show(y)) == y
  {
    assert |Decimal(y / 10 / 10 / 10)| == 1;
    assert |Decimal(y / 10 / 10)| == 2;
    assert |Decimal(y / 10)| == 3;
    assert |Decimal(y)| == 4;
    DecimalValue(y);
  }

  lemma {:induction false} PaddedMonth(m: int)
    requires 1 <= m <= 12
    ensures AllDigits(PadStart(Show(m), 2, '0')) && |PadStart(Show(m), 2, '0')| == 2
    ensures Value(PadStart(Show(m), 2, '0')) == m
  {
    var p := PadStart(Show(m), 2, '0');
    if m < 10 {
      var c := DigitChar(m);
      assert Show(m) == [c];
      assert p[1..] == [c] && p[0] == '0';
      assert p[..1] == ['0'];
      OneDigitValue('0');
      assert Value(p) == Value(p[..1]) * 10 + m;
    } else {
      var hi, lo := DigitChar(1), DigitChar(m - 10);
      assert Decimal(m / 10) == [hi];
      assert Show(m) == [hi, lo];
      assert p == [hi, lo];
      assert p[..1] == [hi];
      OneDigitValue(hi);
      assert Value(p) == Value(p[..1]) * 10 + (m - 10);
    }
  }

  lemma OneDigitValue(c: char)
    requires IsDigit(c)
    ensures Value([c]) == c as int - '0' as int
  {
    assert [c][..0] == [];
  }

  /**
   * For four-digit years and months 1..12, string order on the keys is
   * chronological order, and equal keys mean the same month: the buckets
   * come out in calendar order.
   */
  lemma MonthKeyOrder(y1: int, m1: int, y2: int, m2: int)
    requires 1000 <= y1 <= 9999 && 1000 <= y2 <= 9999 && 1 <= m1 <= 12 && 1 <= m2 <= 12
    ensures Less(MonthKey(y1, m1), MonthKey(y2, m2)) <==> y1 < y2 || (y1 == y2 && m1 < m2)
    ensures MonthKey(y1, m1) == MonthKey(y2, m2) <==> y1 == y2 && m1 == m2
  {
    FourDigits(y1);
    FourDigits(y2);
    PaddedMonth(m1);
    PaddedMonth(m2);
    KeyLess(Show(y1), PadStart(Show(m1), 2, '0'), Show(y2), PadStart(Show(m2), 2, '0'));
    KeyEqual(Show(y1), PadStart(Show(m1), 2, '0'), Show(y2), PadStart(Show(m2), 2, '0'));
  }

  /** Keys made of a year, a dash and a month compare as (year, month) pairs when the parts have fixed widths. */
  lemma KeyLess(d1: string, p1: string, d2: string, p2: string)
    requires AllDigits(d1) && AllDigits(d2) && |d1| == |d2|
    requires AllDigits(p1) && AllDigits(p2) && |p1| == |p2|
    ensures Less(d1 + "-" + p1, d2 + "-" + p2) <==>
              Value(d1) < Value(d2) || (Value(d1) == Value(d2) && Value(p1) < Value(p2))
  {
    assert d1 + "-" + p1 == d1 + ("-" + p1);
    assert d2 + "-" + p2 == d2 + ("-" + p2);
    LessAppend(d1, "-" + p1, d2, "-" + p2);
    DashLess(p1, p2);
    LessDigits(d1, d2);
    LessDigits(p1, p2);
    DigitsEqual(d1, d2);
  }

  /** Such keys are equal exactly when both parts are. */
  lemma KeyEqual(d1: string, p1: string, d2: string, p2: string)
    requires AllDigits(d1) && AllDigits(d2) && |d1| == |d2|
    requires AllDigits(p1) && AllDigits(p2) && |p1| == |p2|
    ensures d1 + "-" + p1 == d2 + "-" + p2 <==> Value(d1) == Value(d2) && Value(p1) == Value(p2)
  {
    var k1, k2 := d1 + "-" + p1, d2 + "-" + p2;
    if k1 == k2 {
      assert d1 == k1[..|d1|] == k2[..|d2|] == d2;
      assert p1 == k1[|d1| + 1..] == k2[|d2| + 1..] == p2;
    }
    DigitsEqual(d1, d2);
    DigitsEqual(p1, p2);
  }

  lemma DashLess(p1: string, p2: string)
    ensures Less("-" + p1, "-" + p2) <==> Less(p1, p2)
  {
    assert ("-" + p1)[1..] == p1 && ("-" + p2)[1..] == p2;
  }

  /** Digit strings of one length are equal exactly when their values are. */
  lemma DigitsEqual(a: string, b: string)
    requires AllDigits(a) && AllDigits(b) && |a| == |b|
    ensures a == b <==> Value(a) == Value(b)
  {
    LessDigits(a, b);
    LessDigits(b, a);
    LessTrichotomy(a, b);
  }

  /**
   * `monthlyIncomeData`: one bucket per `YYYY-MM` key in ascending key order,
   * each holding the summed amounts of the filtered incomes of that month;
   * the buckets hold `totalIncome` between them. The bucket's caption is the
   * month label of its first income, `labelOf`, which the model leaves
   * abstract.
   */
  method MonthlyIncomeData(incomes: seq<Income>, f: IncomeFilters, labelOf: Income -> string) returns (series: seq<Grouping.Row>)
    ensures Grouping.StrictlySorted(series)
    ensures Grouping.Keys(series) == Grouping.KeysOf(FilteredIncomes(incomes, f), MonthKeyOf)
    ensures SumOf(series, Grouping.TotalOf) == TotalIncome(incomes, f)
    ensures forall k :: Grouping.Lookup(series, k) == Grouping.KeyTotal(FilteredIncomes(incomes, f), MonthKeyOf, AmountOf, k)
    ensures forall k :: Grouping.CaptionOf(series, k) == Grouping.FirstCaption(FilteredIncomes(incomes, f), MonthKeyOf, labelOf, k)
  {
    var filteredIncomes := FilteredIncomes(incomes, f);
    series := Grouping.Group(filteredIncomes, MonthKeyOf, labelOf, AmountOf);
  }

  // ---------------------------------------------------------------------
  // The add form.

  /** The form's fields; an empty amount or date input is `None`, no chosen file is `None`. */
  datatype IncomeForm = IncomeForm(
    source: string,
    date: Option<CalendarDate>,
    amount: Option<int>,
    notes: string,
    proof: Option<string>)

  function EmptyIncomeForm(today: CalendarDate): IncomeForm {
    IncomeForm("", Some(today), None, "", None)
  }

  /** One `onChange` event of a text, number or date input. */
  datatype IncomeField =
    | SourceField(source: string)
    | DateField(date: Option<CalendarDate>)
    | AmountField(amount: Option<int>)
    | NotesField(notes: string)

  function Changed(form: IncomeForm, field: IncomeField): (r: IncomeForm)
    ensures r.proof == form.proof
  {
    match field
    case SourceField(s) => form.(source := s)
    case DateField(d) => form.(date := d)
    case AmountField(a) => form.(amount := a)
    case NotesField(n) => form.(notes := n)
  }

  /** The required fields: source, amount and date. */
  predicate FormComplete(form: IncomeForm) {
    form.source != "" && form.amount.Some? && form.date.Some?
  }

  function NewIncome(form: IncomeForm, id: int, now: int): Income
    requires FormComplete(form)
  {
    Income(id, form.source, form.date.value, form.amount.value, form.notes, form.proof, now)
  }

  class IncomeTracker {
    var incomes: seq<Income>
    var form: IncomeForm

    /** The ledger is always sorted newest date first. */
    ghost predicate Valid()
      reads this
    {
      SortedBy(incomes, DateKey)
    }

    constructor (today: CalendarDate)
      ensures Valid() && incomes == [] && form == EmptyIncomeForm(today)
    {
      incomes := [];
      form := EmptyIncomeForm(today);
    }

    method InputChange(field: IncomeField)
      modifies this
      ensures incomes == old(incomes)
      ensures form == Changed(old(form), field)
    {
      form := Changed(form, field);
    }

    /** `handleFileChange`: a chosen file replaces the proof; cancelling the dialog keeps the old one. */
    method FileChange(fileName: Option<string>)
      modifies this
      ensures incomes == old(incomes)
      ensures form == if fileName.Some? then old(form).(proof := fileName) else old(form)
    {
      if fileName.Some? {
        form := form.(proof := fileName);
      }
    }

    /** `handleSubmit`: refuse an incomplete form; otherwise file the income by date and reset the form. */
    method Submit(id: int, now: int, today: CalendarDate) returns (outcome: Outcome)
      requires Valid()
      modifies this
      ensures Valid()
      ensures !FormComplete(old(form)) ==> outcome == MissingField && incomes == old(incomes) && form == old(form)
      ensures FormComplete(old(form)) ==>
                outcome == Done && form == EmptyIncomeForm(today) &&
                incomes == InsertBy(old(incomes), NewIncome(old(form), id, now), DateKey)
    {
      if form.source == "" || form.amount.None? || form.date.None? {
        return MissingField;
      }
      var newIncome := NewIncome(form, id, now);
      var _ := InsertBySorted(incomes, newIncome, DateKey);
      incomes := InsertBy(incomes, newIncome, DateKey);
      form := EmptyIncomeForm(today);
      outcome := Done;
    }

    /** `handleDelete`: when confirmed, drop the incomes with that id. */
    method Delete(id: int, confirmed: bool)
      requires Valid()
      modifies this
      ensures Valid() && form == old(form)
      ensures !confirmed ==> incomes == old(incomes)
      ensures confirmed ==> incomes == Filter(old(incomes), (i: Income) => i.id != id)
    {
      if confirmed {
        FilterSorted(incomes, (i: Income) => i.id != id, DateKey);
        incomes := Filter(incomes, (i: Income) => i.id != id);
      }
    }
  }

  /** A submitted income is placed after every income of the same date and before every older one. */
  lemma SubmitPlacement(s: seq<Income>, i: Income) returns (k: nat)
    requires SortedBy(s, DateKey)
    ensures k <= |s| && InsertBy(s, i, DateKey) == s[..k] + [i] + s[k..]
    ensures forall j :: 0 <= j < k ==> Ordinal(s[j].date) >= Ordinal(i.date)
    ensures forall j :: k <= j < |s| ==> Ordinal(s[j].date) < Ordinal(i.date)
  {
    k := InsertBySorted(s, i, DateKey);
  }

  /** Deleting removes exactly the incomes with that id, keeping every other income as often as before. */
  lemma DeleteRemovesExactly(incomes: seq<Income>, id: int, i: Income)
    ensures multiset(Filter(incomes, (x: Income) => x.id != id))[i] == if i.id == id then 0 else multiset(incomes)[i]
  {
    FilterCounts(incomes, (x: Income) => x.id != id, i);
  }
}
