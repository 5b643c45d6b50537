/**
 * The personal-expense records and the calendar arithmetic the expense
 * views share. A date is what `getFullYear`, `getMonth` (0 = January) and
 * `getDate` report; turning a stored date text into one (`new Date(text)`)
 * is a function the views are given.
 */
module Expenses {
  import opened Common

  datatype Date = Date(year: int, month: int, day: int)

  /** A month index within 0..11. */
  predicate Normal(d: Date)
  {
    0 <= d.month < 12
  }

  /** Months counted from January of year 0. */
  function MonthNumber(d: Date): int
  {
    d.year * 12 + d.month
  }

  /**
   * `new Date(year, month, 1)`: a month index outside 0..11 rolls over into
   * the neighbouring years.
   */
  function MonthStart(year: int, month: int): (d: Date)
    ensures Normal(d) && d.day == 1
  {
    var t := year * 12 + month;
    Date(t / 12, t % 12, 1)
  }

  /**
   * `MonthStart` lands on the month with the same month number, and a month
   * index already within 0..11 is kept as it is.
   */
  lemma MonthStartSpec(year: int, month: int)
    ensures MonthNumber(MonthStart(year, month)) == year * 12 + month
    ensures 0 <= month < 12 ==> MonthStart(year, month) == Date(year, month, 1)
  {
  }

  /** Two normal dates with the same month number are in the same month. */
  lemma MonthNumberInjective(a: Date, b: Date)
    requires Normal(a) && Normal(b) && MonthNumber(a) == MonthNumber(b)
    ensures a.year == b.year && a.month == b.month
  {
  }

  /**
   * The position of a day on the time line, for comparing dates: later
   * days of normal dates get larger numbers.
   */
  function DayNumber(d: Date): real
  {
    ((d.year * 12 + d.month) * 31 + d.day) as real
  }

  /** Later days have larger day numbers. */
  lemma DayNumberOrder(a: Date, b: Date)
    requires Normal(a) && Normal(b) && 1 <= a.day <= 31 && 1 <= b.day <= 31
    ensures DayNumber(a) < DayNumber(b) <==>
      a.year < b.year || (a.year == b.year && (a.month < b.month || (a.month == b.month && a.day < b.day)))
  {
  }

  /** A stored expense as the expense views receive it. */
  datatype Expense = Expense(id: string, name: string, amount: real, category: string, date: string)

  /** The form of an expense: four text fields. */
  datatype Form = Form(name: string, amount: string, category: string, date: string)

  const EmptyForm := Form("", "", "", "")

  /** `name && amount && category && date`: every field is non-empty. */
  predicate Complete(f: Form)
  {
    f.name != "" && f.amount != "" && f.category != "" && f.date != ""
  }

  function Amount(e: Expense): real
  {
    e.amount
  }

  function Category(e: Expense): string
  {
    e.category
  }

  /** Whether an expense's date falls in the given month. */
  function InMonth(dateOf: string -> Date, year: int, month: int): Expense -> bool
  {
    (e: Expense) => dateOf(e.date).year == year && dateOf(e.date).month == month
  }

  /** The expenses of one month, in list order. */
  function MonthExpenses(es: seq<Expense>, dateOf: string -> Date, year: int, month: int): seq<Expense>
  {
    Filter(es, InMonth(dateOf, year, month))
  }

  /** The sum of the amounts of one month. */
  function MonthSum(es: seq<Expense>, dateOf: string -> Date, year: int, month: int): real
  {
    SumOf(MonthExpenses(es, dateOf, year, month), Amount)
  }

  /** An expense's amount if it falls in the given month, 0 otherwise. */
  function AmountIn(dateOf: string -> Date, year: int, month: int): Expense -> real
  {
    (x: Expense) => if dateOf(x.date).year == year && dateOf(x.date).month == month then x.amount else 0.0
  }

  /**
   * A month's expenses are exactly the listed ones dated in it, and their
   * sum counts every expense of the month once and no other.
   */
  lemma MonthExpensesSpec(es: seq<Expense>, dateOf: string -> Date, year: int, month: int, e: Expense)
    ensures e in MonthExpenses(es, dateOf, year, month) <==>
      e in es && dateOf(e.date).year == year && dateOf(e.date).month == month
    ensures MonthSum(es, dateOf, year, month) == SumOf(es, AmountIn(dateOf, year, month))
  {
    FilterMember(es, InMonth(dateOf, year, month), e);
    FilterSum(es, InMonth(dateOf, year, month), Amount, AmountIn(dateOf, year, month));
  }

  /** One expense more adds its amount and one to its month's sum and count, if it is dated in it. */
  lemma MonthStep(es: seq<Expense>, e: Expense, dateOf: string -> Date, year: int, month: int)
    ensures MonthSum(es + [e], dateOf, year, month) ==
      MonthSum(es, dateOf, year, month) + (if InMonth(dateOf, year, month)(e) then e.amount else 0.0)
    ensures |MonthExpenses(es + [e], dateOf, year, month)| ==
      |MonthExpenses(es, dateOf, year, month)| + (if InMonth(dateOf, year, month)(e) then 1 else 0)
  {
    var p := InMonth(dateOf, year, month);
    assert (es + [e])[..|es|] == es;
    assert Filter(es + [e], p) == Filter(es, p) + (if p(e) then [e] else []);
    if p(e) {
      SumOfAppend(Filter(es, p), [e], Amount);
      assert [e][..0] == [];
    } else {
      assert Filter(es, p) + [] == Filter(es, p);
    }
  }

  function HasCategory<T>(category: T -> string, filter: string): T -> bool
  {
    (x: T) => category(x) == filter
  }

  /** `filter ? list.filter(x => x.category === filter) : list`. */
  function CategoryFilter<T>(s: seq<T>, category: T -> string, filter: string): seq<T>
  {
    if filter == "" then s else Filter(s, HasCategory(category, filter))
  }

  /**
   * An empty filter keeps every element; otherwise exactly the elements of
   * that category are kept. Either way the result keeps the list's order
   * (it distributes over concatenation) and is never longer.
   */
  lemma CategoryFilterSpec<T>(s: seq<T>, category: T -> string, filter: string, x: T)
    ensures filter == "" ==> CategoryFilter(s, category, filter) == s
    ensures filter != "" ==> (x in CategoryFilter(s, category, filter) <==> x in s && category(x) == filter)
    ensures |CategoryFilter(s, category, filter)| <= |s|
    ensures forall t ::
      CategoryFilter(s + t, category, filter) == CategoryFilter(s, category, filter) + CategoryFilter(t, category, filter)
  {
    FilterMember(s, HasCategory(category, filter), x);
    forall t ensures CategoryFilter(s + t, category, filter) ==
      CategoryFilter(s, category, filter) + CategoryFilter(t, category, filter)
    {
      FilterAppend(s, t, HasCategory(category, filter));
    }
  }

  /** `f` for an element the filter keeps, 0 for one it drops. */
  function CountedIn<T>(category: T -> string, filter: string, f: T -> real): T -> real
  {
    (x: T) => if filter == "" || category(x) == filter then f(x) else 0.0
  }

  /**
   * The sum over the filtered list is the sum over the whole list with
   * every element of another category counted as 0.
   */
  lemma CategoryFilterSum<T>(s: seq<T>, category: T -> string, filter: string, f: T -> real)
    ensures SumOf(CategoryFilter(s, category, filter), f) == SumOf(s, CountedIn(category, filter, f))
  {
    if filter == "" {
      SumOfAgree(s, f, CountedIn(category, filter, f));
    } else {
      FilterSum(s, HasCategory(category, filter), f, CountedIn(category, filter, f));
    }
  }
}
