/**
 * The income/expense pie: the amounts of the transactions of type "income"
 * and of type "expense", each added up.
 */
module FinanceChart {
  import opened Common

  /** A transaction as the add form emits it; `date` is its timestamp. */
  datatype Transaction = Transaction(description: string, amount: int, kind: string, date: int)

  function AmountOf(t: Transaction): int {
    t.amount
  }

  predicate IsIncome(t: Transaction) {
    t.kind == "income"
  }

  predicate IsExpense(t: Transaction) {
    t.kind == "expense"
  }

  predicate IsOther(t: Transaction) {
    !IsIncome(t) && !IsExpense(t)
  }

  predicate IsNotIncome(t: Transaction) {
    !IsIncome(t)
  }

  predicate IsNotExpense(t: Transaction) {
    !IsExpense(t)
  }

  /** `transactions.filter(t => t.type === "income").reduce(…)` */
  function IncomeSum(ts: seq<Transaction>): int {
    SumOf(Filter(ts, IsIncome), AmountOf)
  }

  /** `transactions.filter(t => t.type === "expense").reduce(…)` */
  function ExpenseSum(ts: seq<Transaction>): int {
    SumOf(Filter(ts, IsExpense), AmountOf)
  }

  /** A new transaction adds its amount to the slice of its own type only. */
  lemma AddTransaction(ts: seq<Transaction>, t: Transaction)
    ensures IncomeSum(ts + [t]) == IncomeSum(ts) + (if IsIncome(t) then t.amount else 0)
    ensures ExpenseSum(ts + [t]) == ExpenseSum(ts) + (if IsExpense(t) then t.amount else 0)
  {
    SumOfFilterSnoc(ts, t, IsIncome, AmountOf);
    SumOfFilterSnoc(ts, t, IsExpense, AmountOf);
  }

  /** Filtering two orderings of the same transactions keeps the same transactions. */
  lemma FilterPermutation(a: seq<Transaction>, b: seq<Transaction>, p: Transaction -> bool)
    requires multiset(a) == multiset(b)
    ensures multiset(Filter(a, p)) == multiset(Filter(b, p))
  {
    forall x ensures multiset(Filter(a, p))[x] == multiset(Filter(b, p))[x] {
      FilterCounts(a, p, x);
      FilterCounts(b, p, x);
    }
  }

  /** The order of the transactions does not matter to either slice. */
  lemma SumsIgnoreOrder(a: seq<Transaction>, b: seq<Transaction>)
    requires multiset(a) == multiset(b)
    ensures IncomeSum(a) == IncomeSum(b)
    ensures ExpenseSum(a) == ExpenseSum(b)
  {
    FilterPermutation(a, b, IsIncome);
    FilterPermutation(a, b, IsExpense);
    SumOfPermutation(Filter(a, IsIncome), Filter(b, IsIncome), AmountOf);
    SumOfPermutation(Filter(a, IsExpense), Filter(b, IsExpense), AmountOf);
  }

  /** Every transaction is counted at most once: income, expense and the rest add up to all amounts. */
  lemma SlicesCoverAll(ts: seq<Transaction>)
    ensures IncomeSum(ts) + ExpenseSum(ts) + SumOf(Filter(ts, IsOther), AmountOf) == SumOf(ts, AmountOf)
  {
    SumOfFilterSplit(ts, IsIncome, IsNotIncome, AmountOf);
    var rest := Filter(ts, IsNotIncome);
    SumOfFilterSplit(rest, IsExpense, IsNotExpense, AmountOf);
    FilterFilter(ts, IsNotIncome, IsExpense, IsExpense);
    FilterFilter(ts, IsNotIncome, IsNotExpense, IsOther);
  }
}
