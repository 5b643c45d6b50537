/**
 * The monthly view: a selected month that moves back and forth, the
 * expenses of that month with their total, per-category totals and a
 * per-day breakdown with the days newest first.
 */
module MonthlyView {
  import opened Common
  import opened Sorting
  import opened Grouping
  import opened Expenses

  /** `goToPreviousMonth`: day 1 of the month before. */
  function Previous(d: Date): Date
  {
    MonthStart(d.year, d.month - 1)
  }

  /** `goToNextMonth`: day 1 of the month after. */
  function Next(d: Date): Date
  {
    MonthStart(d.year, d.month + 1)
  }

  /**
   * Moving back goes to day 1 of the month before, from January to
   * December of the year before; moving forward goes to day 1 of the month
   * after, from December to January of the next year; either move undone
   * by the other lands on day 1 of the month started from.
   */
  lemma NavigationSpec(d: Date)
    requires Normal(d)
    ensures Previous(d) == if d.month == 0 then Date(d.year - 1, 11, 1) else Date(d.year, d.month - 1, 1)
    ensures Next(d) == if d.month == 11 then Date(d.year + 1, 0, 1) else Date(d.year, d.month + 1, 1)
    ensures Next(Previous(d)) == Date(d.year, d.month, 1)
    ensures Previous(Next(d)) == Date(d.year, d.month, 1)
  {
    var p, n := Previous(d), Next(d);
    MonthStartSpec(d.year, d.month - 1);
    MonthStartSpec(d.year, d.month + 1);
    MonthStartSpec(p.year, p.month + 1);
    MonthStartSpec(n.year, n.month - 1);
    MonthStartSpec(d.year, d.month);
    MonthNumberInjective(Next(p), Date(d.year, d.month, 1));
    MonthNumberInjective(Previous(n), Date(d.year, d.month, 1));
    if d.month == 0 {
      MonthNumberInjective(p, Date(d.year - 1, 11, 1));
    } else {
      MonthNumberInjective(p, Date(d.year, d.month - 1, 1));
    }
    if d.month == 11 {
      MonthNumberInjective(n, Date(d.year + 1, 0, 1));
    } else {
      MonthNumberInjective(n, Date(d.year, d.month + 1, 1));
    }
  }

  /** `isCurrentMonth`. */
  predicate IsCurrentMonth(selected: Date, today: Date)
  {
    selected.month == today.month && selected.year == today.year
  }

  /** `monthlyExpenses`. */
  function MonthlyExpenses(es: seq<Expense>, dateOf: string -> Date, selected: Date): seq<Expense>
  {
    MonthExpenses(es, dateOf, selected.year, selected.month)
  }

  /** `monthTotal`. */
  function MonthTotal(es: seq<Expense>, dateOf: string -> Date, selected: Date): real
  {
    MonthSum(es, dateOf, selected.year, selected.month)
  }

  /** `categoryTotals` of the month, built by `Grouping.SumBy`. */
  function CategoryTotals(monthly: seq<Expense>): seq<(string, real)>
  {
    Totals(monthly, Category, Amount)
  }

  function EntryValue(entry: (string, real)): real
  {
    entry.1
  }

  /**
   * Each category of the month appears once, with the sum of its amounts
   * in the month, and the category totals add up to `monthTotal`.
   */
  lemma CategoryTotalsSpec(es: seq<Expense>, dateOf: string -> Date, selected: Date)
    ensures var c := CategoryTotals(MonthlyExpenses(es, dateOf, selected));
      && DistinctKeys(c)
      && (forall i :: 0 <= i < |c| ==>
            c[i].1 == SumOf(Filter(MonthlyExpenses(es, dateOf, selected), KeyIs(Category, c[i].0)), Amount))
      && SumOf(c, EntryValue) == MonthTotal(es, dateOf, selected)
  {
    var monthly := MonthlyExpenses(es, dateOf, selected);
    GroupKeys(monthly, Category);
    GroupContents(monthly, Category);
    TotalsSum(monthly, Category, Amount);
    SumOfAgree(CategoryTotals(monthly), (e: (string, real)) => e.1, EntryValue);
  }

  function DateText(e: Expense): string
  {
    e.date
  }

  /** `dailyExpenses`, built by `Grouping.GroupBy`. */
  function DailyExpenses(monthly: seq<Expense>): seq<(string, seq<Expense>)>
  {
    Group(monthly, DateText)
  }

  /**
   * Each date text of the month has one group, holding exactly the
   * expenses with that text in list order; every expense of the month is
   * in the group of its date, and the groups together hold as many
   * expenses as the month.
   */
  lemma DailyExpensesSpec(monthly: seq<Expense>)
    ensures DistinctKeys(DailyExpenses(monthly))
    ensures forall i :: 0 <= i < |DailyExpenses(monthly)| ==>
      DailyExpenses(monthly)[i].1 == Filter(monthly, KeyIs(DateText, DailyExpenses(monthly)[i].0))
    ensures forall e :: e in monthly ==> KeyIndex(DailyExpenses(monthly), e.date) >= 0
    ensures SumOf(DailyExpenses(monthly), (g: (string, seq<Expense>)) => |g.1| as real) == |monthly| as real
  {
    GroupKeys(monthly, DateText);
    GroupContents(monthly, DateText);
    GroupSizes(monthly, DateText);
  }

  /** `Object.keys(dailyExpenses)`. */
  function DayKeys(daily: seq<(string, seq<Expense>)>): (r: seq<string>)
    ensures |r| == |daily| && forall i :: 0 <= i < |daily| ==> r[i] == daily[i].0
  {
    seq(|daily|, i requires 0 <= i < |daily| => daily[i].0)
  }

  function DayOf(dateOf: string -> Date): string -> real
  {
    (k: string) => DayNumber(dateOf(k))
  }

  /** `sortedDates`: the day keys, latest date first. */
  function SortedDates(daily: seq<(string, seq<Expense>)>, dateOf: string -> Date): seq<string>
  {
    SortDesc(DayKeys(daily), DayOf(dateOf))
  }

  /** The sorted dates are the day keys, each once, latest date first. */
  lemma SortedDatesSpec(daily: seq<(string, seq<Expense>)>, dateOf: string -> Date)
    ensures multiset(SortedDates(daily, dateOf)) == multiset(DayKeys(daily))
    ensures forall i, j :: 0 <= i < j < |SortedDates(daily, dateOf)| ==>
      DayNumber(dateOf(SortedDates(daily, dateOf)[i])) >= DayNumber(dateOf(SortedDates(daily, dateOf)[j]))
  {
    SortDescPermutes(DayKeys(daily), DayOf(dateOf));
    SortDescSorted(DayKeys(daily), DayOf(dateOf));
    var s := SortedDates(daily, dateOf);
    forall i, j | 0 <= i < j < |s| ensures DayNumber(dateOf(s[i])) >= DayNumber(dateOf(s[j])) {
      assert DayOf(dateOf)(s[i]) >= DayOf(dateOf)(s[j]);
    }
  }

  /** The selected month of the view. */
  class MonthlyPage {
    var selected: Date

    constructor(today: Date)
      ensures selected == today && IsCurrentMonth(selected, today)
    {
      selected := today;
    }

    method GoToPreviousMonth()
      modifies this
      ensures selected == Previous(old(selected))
    {
      selected := MonthStart(selected.year, selected.month - 1);
    }

    method GoToNextMonth()
      modifies this
      ensures selected == Next(old(selected))
    {
      selected := MonthStart(selected.year, selected.month + 1);
    }

    /** `goToCurrentMonth`: back to today, which is then the current month. */
    method GoToCurrentMonth(today: Date)
      modifies this
      ensures selected == today && IsCurrentMonth(selected, today)
    {
      selected := today;
    }
  }
}
