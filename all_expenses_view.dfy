/**
 * The table view of all personal expenses: an optional category filter,
 * the total of what is shown, and the count label under it.
 */
module AllExpensesView {
  import opened Common
  import opened Expenses

  /** `filteredExpenses`. */
  function FilteredExpenses(es: seq<Expense>, filter: string): seq<Expense>
  {
    CategoryFilter(es, Category, filter)
  }

  /** `totalFiltered`: the sum of the shown amounts. */
  function TotalFiltered(es: seq<Expense>, filter: string): real
  {
    SumOf(FilteredExpenses(es, filter), Amount)
  }

  /** The word after the count: `expense` plus `s` unless there is exactly one. */
  function CountLabel(n: nat): string
  {
    if n != 1 then "expenses" else "expense"
  }

  /**
   * With no filter every expense is shown; with one, exactly the expenses
   * of that category, in list order; never more than the list holds.
   */
  lemma FilteredExpensesSpec(es: seq<Expense>, filter: string, e: Expense)
    ensures filter == "" ==> FilteredExpenses(es, filter) == es
    ensures filter != "" ==> (e in FilteredExpenses(es, filter) <==> e in es && e.category == filter)
    ensures |FilteredExpenses(es, filter)| <= |es|
    ensures forall more ::
      FilteredExpenses(es + more, filter) == FilteredExpenses(es, filter) + FilteredExpenses(more, filter)
  {
    CategoryFilterSpec(es, Category, filter, e);
  }

  /**
   * The total counts each expense of the chosen category once (every
   * expense when there is no filter) and nothing else.
   */
  lemma TotalFilteredSpec(es: seq<Expense>, filter: string)
    ensures TotalFiltered(es, filter) == SumOf(es, CountedIn(Category, filter, Amount))
    ensures filter == "" ==> TotalFiltered(es, filter) == SumOf(es, Amount)
  {
    CategoryFilterSum(es, Category, filter, Amount);
  }

  /** The singular is used for exactly one expense. */
  lemma CountLabelSpec(n: nat)
    ensures CountLabel(n) == "expense" <==> n == 1
    ensures CountLabel(n) == "expense" || CountLabel(n) == "expenses"
  {
  }
}
