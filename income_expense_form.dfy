/**
 * The quick add form: a description, an amount and a type. A submit with
 * both fields filled in hands one transaction to the caller and clears the
 * two fields; the type stays as it was.
 */
module IncomeExpenseForm {
  import opened Common
  import opened FinanceChart

  class TransactionForm {
    var description: string
    /** The amount field; `None` when it is empty. */
    var amount: Option<int>
    var kind: string

    constructor ()
      ensures description == "" && amount == None && kind == "income"
    {
      description := "";
      amount := None;
      kind := "income";
    }

    method SetDescription(value: string)
      modifies this
      ensures description == value && amount == old(amount) && kind == old(kind)
    {
      description := value;
    }

    method SetAmount(value: Option<int>)
      modifies this
      ensures amount == value && description == old(description) && kind == old(kind)
    {
      amount := value;
    }

    method SetKind(value: string)
      modifies this
      ensures kind == value && description == old(description) && amount == old(amount)
    {
      kind := value;
    }

    /**
     * `handleSubmit`: with an empty field nothing is emitted and nothing
     * changes; otherwise the transaction, stamped `now`, is emitted and the
     * two text fields are cleared.
     */
    method Submit(now: int) returns (emitted: Option<Transaction>)
      modifies this
      ensures old(description) == "" || old(amount).None? ==>
                emitted == None && description == old(description) && amount == old(amount) && kind == old(kind)
      ensures old(description) != "" && old(amount).Some? ==>
                emitted == Some(Transaction(old(description), old(amount).value, old(kind), now)) &&
                description == "" && amount == None && kind == old(kind)
    {
      if description == "" || amount.None? {
        return None;
      }
      emitted := Some(Transaction(description, amount.value, kind, now));
      description := "";
      amount := None;
    }
  }
}
