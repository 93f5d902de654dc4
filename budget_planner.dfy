/**
 * The Budget Planner's fixed 50/30/20 split of a monthly income: half for
 * needs, 30 % for wants and 20 % for savings.
 */
module BudgetPlanner {
  import opened Common

  /**
   * `Number(income) || 0`: the income field's number, or 0 when the field is
   * empty or not a number. `None` stands for such a field.
   */
  function TotalIncome(input: Option<real>): (r: real)
    ensures input.None? ==> r == 0.0
    ensures input.Some? ==> r == input.value
  {
    input.GetOr(0.0)
  }

  datatype Allocation = Allocation(needs: real, wants: real, savings: real)

  /**
   * The three parts of an income: they add up to the income, needs match
   * wants and savings together, and wants are one and a half times savings,
   * which fixes the 50/30/20 shares. For a non-negative income the parts are
   * ordered savings, wants, needs, none above the income.
   */
  function Allocate(income: real): (a: Allocation)
    ensures a.needs + a.wants + a.savings == income
    ensures a.needs == a.wants + a.savings
    ensures 2.0 * a.wants == 3.0 * a.savings
    ensures income >= 0.0 ==> 0.0 <= a.savings <= a.wants <= a.needs <= income
  {
    Allocation(income * 0.5, income * 0.3, income * 0.2)
  }

  /** An empty or unreadable income field plans nothing. */
  lemma EmptyIncomePlansNothing()
    ensures Allocate(TotalIncome(None)) == Allocation(0.0, 0.0, 0.0)
  {
  }

  /** A monthly income of 12 500 000 splits into 6 250 000, 3 750 000 and 2 500 000. */
  lemma SampleAllocation()
    ensures Allocate(TotalIncome(Some(12_500_000.0))) == Allocation(6_250_000.0, 3_750_000.0, 2_500_000.0)
  {
  }
}
