/**
 * The arithmetic of the Progress Report screen: the performance score from
 * per-bucket efficiencies, the "most bloated" category, the per-category
 * status, progress percentage and bar width, the CSV export text, and the
 * yearly totals and monthly averages.
 *
 * The screen runs on fixed sample figures (`SampleBudget`, `SampleActual`,
 * the yearly series); the model states each computation for any figures and
 * checks it on the sample ones.
 */
module ProgressReport {
  import opened Common
  import opened Text

  /** One figure per bucket of the 50/30/20 plan. */
  datatype Buckets = Buckets(needs: int, wants: int, savings: int)

  const SampleBudget := Buckets(6_250_000, 3_750_000, 2_500_000)
  const SampleActual := Buckets(5_800_000, 2_800_000, 900_000)

  // ---------------------------------------------------------------------
  // Performance score.

  /** Needs and wants: 100 within budget, otherwise 100 less the overshoot in percent of the budget, but not below 0. */
  function SpendingEfficiency(actual: int, budget: int): (r: real)
    requires budget > 0
    ensures 0.0 <= r <= 100.0
    ensures r == 100.0 <==> actual <= budget
    ensures budget < actual < 2 * budget ==> r == 100.0 - (actual - budget) as real / budget as real * 100.0
    ensures actual >= 2 * budget ==> r == 0.0
  {
    if actual <= budget then 100.0
    else
      var penalty := (actual - budget) as real / budget as real * 100.0;
      assert penalty * budget as real == (actual - budget) as real * 100.0;
      assert penalty > 0.0;
      assert penalty < 100.0 <==> actual < 2 * budget by {
        PercentOfBase(penalty, budget as real, (actual - budget) as real);
      }
      if 100.0 - penalty > 0.0 then 100.0 - penalty else 0.0
  }

  /** A percentage p of a positive base b, p * b == x * 100, is below (above) 100 exactly when x is below (above) b. */
  lemma {:induction false} PercentOfBase(p: real, b: real, x: real)
    requires b > 0.0 && p * b == x * 100.0
    ensures p < 100.0 <==> x < b
    ensures p > 100.0 <==> x > b
  {
    if p < 100.0 {
      assert p * b < 100.0 * b;
    } else if p > 100.0 {
      assert p * b > 100.0 * b;
    } else {
      assert p * b == 100.0 * b;
    }
  }

  /** Savings: 100 from 80 % of the budget on, otherwise the share of the budget saved, in percent. */
  function SavingsEfficiency(actual: int, budget: int): (r: real)
    requires budget > 0
    ensures r == 100.0 <==> actual as real >= budget as real * 0.8
    ensures r != 100.0 ==> r < 80.0 && r == actual as real / budget as real * 100.0
    ensures actual >= 0 ==> 0.0 <= r <= 100.0
  {
    if actual as real >= budget as real * 0.8 then 100.0
    else
      var share := actual as real / budget as real;
      assert share * budget as real == actual as real;
      assert share < 0.8;
      share * 100.0
  }

  /** `calculatePerformanceScore`: the efficiencies weighted 50/30/20 and rounded. */
  function PerformanceScore(budget: Buckets, actual: Buckets): (r: int)
    requires budget.needs > 0 && budget.wants > 0 && budget.savings > 0
    ensures actual.savings >= 0 ==> 0 <= r <= 100
    ensures r <= 100
  {
    var n := SpendingEfficiency(actual.needs, budget.needs);
    var w := SpendingEfficiency(actual.wants, budget.wants);
    var s := SavingsEfficiency(actual.savings, budget.savings);
    Round(n * 0.5 + w * 0.3 + s * 0.2)
  }

  /** Full marks when needs and wants stay within budget and at least 80 % of the savings budget is saved. */
  lemma PerfectScore(budget: Buckets, actual: Buckets)
    requires budget.needs > 0 && budget.wants > 0 && budget.savings > 0
    requires actual.needs <= budget.needs && actual.wants <= budget.wants
    requires actual.savings as real >= budget.savings as real * 0.8
    ensures PerformanceScore(budget, actual) == 100
  {
  }

  /** Overspending on needs costs more than on wants: with the other buckets on plan, the score falls below 100 once needs exceed budget by more than 1 %. */
  lemma NeedsOverspendLowersScore(budget: Buckets, actual: Buckets)
    requires budget.needs > 0 && budget.wants > 0 && budget.savings > 0
    requires actual.wants <= budget.wants && actual.savings as real >= budget.savings as real * 0.8
    requires (actual.needs - budget.needs) * 100 > budget.needs
    ensures PerformanceScore(budget, actual) < 100
  {
    var n := SpendingEfficiency(actual.needs, budget.needs);
    var penalty := (actual.needs - budget.needs) as real / budget.needs as real * 100.0;
    assert penalty * budget.needs as real == (actual.needs - budget.needs) as real * 100.0;
    assert (actual.needs - budget.needs) as real * 100.0 > budget.needs as real;
    RatioAboveOne(penalty, budget.needs as real, (actual.needs - budget.needs) as real * 100.0);
    assert n < 99.0;
  }

  lemma RatioAboveOne(p: real, b: real, c: real)
    requires b > 0.0 && p * b == c && c > b
    ensures p > 1.0
  {
    if p <= 1.0 {
      assert false;
    }
  }

  /** On the sample month: needs and wants within budget, 36 % of the savings budget saved, so 87. */
  lemma SampleScore()
    ensures SavingsEfficiency(SampleActual.savings, SampleBudget.savings) == 36.0
    ensures PerformanceScore(SampleBudget, SampleActual) == 87
  {
  }

  // ---------------------------------------------------------------------
  // The most bloated category.

  datatype Category = Category(name: string, budget: int, actual: int, difference: int)

  function Abs(x: int): int {
    if x < 0 then -x else x
  }

  /** The three rows the screen compares, in display order. */
  function Categories(budget: Buckets, actual: Buckets): seq<Category> {
    [ Category("Kebutuhan", budget.needs, actual.needs, actual.needs - budget.needs),
      Category("Keinginan", budget.wants, actual.wants, actual.wants - budget.wants),
      Category("Tabungan", budget.savings, actual.savings, actual.savings - budget.savings) ]
  }

  /**
   * `categories.reduce((max, cat) => |cat.difference| > |max.difference| ? cat : max)`:
   * the category furthest from its budget, in either direction; among equals
   * the first one.
   */
  function MostBloated(cats: seq<Category>): (r: Category)
    requires cats != []
    ensures forall i :: 0 <= i < |cats| ==> Abs(cats[i].difference) <= Abs(r.difference)
    ensures exists k :: 0 <= k < |cats| && cats[k] == r &&
              forall i :: 0 <= i < k ==> Abs(cats[i].difference) < Abs(r.difference)
  {
    if |cats| == 1 then
      assert cats[0] == cats[0];
      cats[0]
    else
      var init := cats[..|cats| - 1];
      var max := MostBloated(init);
      var cat := cats[|cats| - 1];
      if Abs(cat.difference) > Abs(max.difference) then
        assert forall i :: 0 <= i < |cats| - 1 ==> cats[i] == init[i];
        cat
      else
        assert forall i :: 0 <= i < |init| ==> cats[i] == init[i];
        max
  }

  /** On the sample month the most bloated category is Tabungan, which is under its budget. */
  lemma SampleMostBloated()
    ensures MostBloated(Categories(SampleBudget, SampleActual)).name == "Tabungan"
    ensures MostBloated(Categories(SampleBudget, SampleActual)).difference < 0
  {
    var cats := Categories(SampleBudget, SampleActual);
    assert cats[..2][..1] == [cats[0]];
  }

  // ---------------------------------------------------------------------
  // Spending analysis.

  datatype Status = Overbudget | UnderBudget | OnTrack

  /** `isOver ? "Overbudget" : isUnder ? "Under Budget" : "On Track"`; saving less than planned never reads as "Under Budget". */
  function StatusOf(cat: Category): (r: Status)
    ensures r == Overbudget <==> cat.actual > cat.budget
    ensures r == UnderBudget <==> cat.actual < cat.budget && cat.name != "Tabungan"
    ensures r == OnTrack <==> cat.actual == cat.budget || (cat.actual < cat.budget && cat.name == "Tabungan")
  {
    var difference := cat.actual - cat.budget;
    if difference > 0 then Overbudget
    else if difference < 0 && cat.name != "Tabungan" then UnderBudget
    else OnTrack
  }

  /** The progress figure: actual in percent of budget, 0 without a budget. */
  function Percentage(cat: Category): (r: real)
    ensures cat.budget > 0 ==> r * cat.budget as real == cat.actual as real * 100.0
    ensures cat.budget <= 0 ==> r == 0.0
  {
    if cat.budget > 0 then cat.actual as real / cat.budget as real * 100.0 else 0.0
  }

  /** The bar's width: the percentage, capped at 100. */
  function BarWidth(cat: Category): (r: real)
    ensures r <= 100.0
    ensures r == 100.0 || r == Percentage(cat)
    ensures r <= Percentage(cat)
  {
    var p := Percentage(cat);
    if p < 100.0 then p else 100.0
  }

  /** With a positive budget, the status and the bar agree: a full bar for every category over budget, a short bar for one under. */
  lemma StatusMatchesBar(cat: Category)
    requires cat.budget > 0
    ensures StatusOf(cat) == Overbudget <==> Percentage(cat) > 100.0
    ensures cat.actual < cat.budget <==> BarWidth(cat) < 100.0
  {
    var p := Percentage(cat);
    PercentOfBase(p, cat.budget as real, cat.actual as real);
    if cat.actual == cat.budget {
      FullPercentage(cat);
    }
  }

  /** Spending exactly the budget fills the bar to 100 %. */
  lemma FullPercentage(cat: Category)
    requires cat.budget > 0 && cat.actual == cat.budget
    ensures Percentage(cat) == 100.0
  {
    var b := cat.budget as real;
    assert b / b == 1.0;
  }

  // ---------------------------------------------------------------------
  // CSV export.

  const CsvHeader := "Kategori,Budget,Real,Perbedaan"

  /** One line of the export, without its line break: name, budget, actual and their difference. */
  function CsvRow(name: string, budget: int, actual: int): string {
    name + "," + Show(budget) + "," + Show(actual) + "," + Show(actual - budget)
  }

  /** `exportToCSV`'s text: the header and the three category lines, each ended by a line break. */
  function CsvReport(budget: Buckets, actual: Buckets): string {
    CsvHeader + "\n"
    + CsvRow("Kebutuhan", budget.needs, actual.needs) + "\n"
    + CsvRow("Keinginan", budget.wants, actual.wants) + "\n"
    + CsvRow("Tabungan", budget.savings, actual.savings) + "\n"
  }

  lemma ShowHasNo(n: int, c: char)
    requires c != '-' && !IsDigit(c)
    ensures c !in Show(n)
  {
  }

  /** A line splits back into its four fields, and the numbers parse back to the figures. */
  lemma CsvRowFields(name: string, budget: int, actual: int)
    requires ',' !in name
    ensures Split(CsvRow(name, budget, actual), ',') == [name, Show(budget), Show(actual), Show(actual - budget)]
    ensures ParseInteger(Show(budget)) == Some(budget)
    ensures ParseInteger(Show(actual)) == Some(actual)
    ensures ParseInteger(Show(actual - budget)) == Some(actual - budget)
  {
    var b, a, d := Show(budget), Show(actual), Show(actual - budget);
    ShowHasNo(budget, ',');
    ShowHasNo(actual, ',');
    ShowHasNo(actual - budget, ',');
    SplitNoSeparator(name, ',');
    SplitLast(name, b, ',');
    SplitLast(name + "," + b, a, ',');
    SplitLast(name + "," + b + "," + a, d, ',');
    ParseShow(budget);
    ParseShow(actual);
    ParseShow(actual - budget);
  }

  /** The export has exactly the header and three lines, in the order Kebutuhan, Keinginan, Tabungan. */
  lemma CsvReportLines(budget: Buckets, actual: Buckets)
    ensures Split(CsvReport(budget, actual), '\n') ==
              [CsvHeader,
               CsvRow("Kebutuhan", budget.needs, actual.needs),
               CsvRow("Keinginan", budget.wants, actual.wants),
               CsvRow("Tabungan", budget.savings, actual.savings),
               ""]
  {
    FixedTextHasNoBreak();
    RowHasNoBreak("Kebutuhan", budget.needs, actual.needs);
    RowHasNoBreak("Keinginan", budget.wants, actual.wants);
    RowHasNoBreak("Tabungan", budget.savings, actual.savings);
    FourLines(CsvHeader,
              CsvRow("Kebutuhan", budget.needs, actual.needs),
              CsvRow("Keinginan", budget.wants, actual.wants),
              CsvRow("Tabungan", budget.savings, actual.savings));
  }

  lemma FourLines(h: string, r1: string, r2: string, r3: string)
    requires '\n' !in h && '\n' !in r1 && '\n' !in r2 && '\n' !in r3
    ensures Split(h + "\n" + r1 + "\n" + r2 + "\n" + r3 + "\n", '\n') == [h, r1, r2, r3, ""]
  {
    var x := h + "\n" + r1 + "\n" + r2 + "\n" + r3;
    assert x + "\n" == x + "\n" + "";
    SplitNoSeparator(h, '\n');
    SplitLast(h, r1, '\n');
    SplitLast(h + "\n" + r1, r2, '\n');
    SplitLast(h + "\n" + r1 + "\n" + r2, r3, '\n');
    SplitLast(x, "", '\n');
  }

  lemma FixedTextHasNoBreak()
    ensures '\n' !in CsvHeader
    ensures '\n' !in "Kebutuhan" && '\n' !in "Keinginan" && '\n' !in "Tabungan"
  {
  }

  lemma RowHasNoBreak(name: string, budget: int, actual: int)
    requires '\n' !in name
    ensures '\n' !in CsvRow(name, budget, actual)
  {
    ShowHasNo(budget, '\n');
    ShowHasNo(actual, '\n');
    ShowHasNo(actual - budget, '\n');
  }

  // ---------------------------------------------------------------------
  // Yearly summary.

  function Id(x: int): int {
    x
  }

  /** `values.reduce((a, b) => a + b, 0)` */
  function YearlyTotal(values: seq<int>): int {
    SumOf(values, Id)
  }

  /** `Math.round(total / 12)`: the monthly average, rounded to whole rupiah. */
  function MonthlyAverage(values: seq<int>): (r: int)
    ensures YearlyTotal(values) - 6 < 12 * r <= YearlyTotal(values) + 6
  {
    Round(YearlyTotal(values) as real / 12.0)
  }

  const SampleIncome: seq<int> := [
    12_000_000, 12_500_000, 13_000_000, 12_500_000, 12_800_000, 12_500_000,
    13_000_000, 12_500_000, 13_200_000, 12_500_000, 13_000_000, 12_500_000]

  /** The sample income year: 152 000 000 in total, 12 666 667 a month after rounding. */
  lemma SampleIncomeSummary()
    ensures YearlyTotal(SampleIncome) == 152_000_000
    ensures MonthlyAverage(SampleIncome) == 12_666_667
  {
    var s := SampleIncome;
    assert s[..0] == [];
    SumOfPrefix(s, 0);
    SumOfPrefix(s, 1);
    SumOfPrefix(s, 2);
    SumOfPrefix(s, 3);
    SumOfPrefix(s, 4);
    SumOfPrefix(s, 5);
    SumOfPrefix(s, 6);
    SumOfPrefix(s, 7);
    SumOfPrefix(s, 8);
    SumOfPrefix(s, 9);
    SumOfPrefix(s, 10);
    SumOfPrefix(s, 11);
    assert s[..12] == s;
  }

  lemma SumOfPrefix(s: seq<int>, k: int)
    requires 0 <= k < |s|
    ensures SumOf(s[..k + 1], Id) == SumOf(s[..k], Id) + s[k]
  {
    assert s[..k + 1][..k] == s[..k];
  }
}
