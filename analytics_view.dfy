/**
 * The analytics view: totals and counts per category, the categories by
 * total, the last six months as buckets, and the insight figures (average
 * expense, change against last month, top category and its share).
 *
 * The current date `now` and the reading of a stored date text
 * (`dateOf`) are parameters.
 */
module AnalyticsView {
  import opened Common
  import opened Sorting
  import opened Grouping
  import opened Expenses

  /** `categoryTotals`, built by `Grouping.TallyBy`. */
  function CategoryTotals(es: seq<Expense>): seq<(string, Tally)>
  {
    Tallies(es, Category, Amount)
  }

  /** `totalAmount`. */
  function TotalAmount(es: seq<Expense>): real
  {
    SumOf(es, Amount)
  }

  function TallyTotal(entry: (string, Tally)): real
  {
    entry.1.total
  }

  function TallyCount(entry: (string, Tally)): real
  {
    entry.1.count as real
  }

  /**
   * Each category appears once, with the sum of its amounts and the number
   * of its expenses (at least one); every expense's category appears; the
   * counts add up to the number of expenses and the totals to
   * `totalAmount`.
   */
  lemma CategoryTotalsSpec(es: seq<Expense>)
    ensures DistinctKeys(CategoryTotals(es))
    ensures forall i :: 0 <= i < |CategoryTotals(es)| ==>
      var c := CategoryTotals(es)[i];
      && c.1.total == SumOf(Filter(es, KeyIs(Category, c.0)), Amount)
      && c.1.count == |Filter(es, KeyIs(Category, c.0))| > 0
    ensures forall e :: e in es ==> KeyIndex(CategoryTotals(es), e.category) >= 0
    ensures SumOf(CategoryTotals(es), TallyCount) == |es| as real
    ensures SumOf(CategoryTotals(es), TallyTotal) == TotalAmount(es)
  {
    var g, t := Group(es, Category), CategoryTotals(es);
    GroupKeys(es, Category);
    GroupContents(es, Category);
    forall e | e in es ensures KeyIndex(t, e.category) >= 0 {
      KeyIndexSameKeys(t, g, e.category);
    }
    GroupSizes(es, Category);
    SumOfMapped(g, t, (e: (string, seq<Expense>)) => |e.1| as real, TallyCount);
    GroupSum(es, Category, Amount);
    SumOfMapped(g, t, GroupTotal(Amount), TallyTotal);
  }

  /** `sortedCategories`: by total, largest first. */
  function SortedCategories(es: seq<Expense>): seq<(string, Tally)>
  {
    SortDesc(CategoryTotals(es), TallyTotal)
  }

  /** The sorted list holds the same entries, ordered by total, largest first. */
  lemma SortedCategoriesSpec(es: seq<Expense>)
    ensures multiset(SortedCategories(es)) == multiset(CategoryTotals(es))
    ensures |SortedCategories(es)| == |CategoryTotals(es)|
    ensures SortedDesc(SortedCategories(es), TallyTotal)
  {
    SortDescPermutes(CategoryTotals(es), TallyTotal);
    SortDescSorted(CategoryTotals(es), TallyTotal);
  }

  /** One entry of `last6Months`: the first day of the month, its total and count. */
  datatype Bucket = Bucket(start: Date, total: real, count: nat)

  /** The first day of the month `5 - k` months before the current one. */
  function WindowMonth(now: Date, k: int): Date
  {
    MonthStart(now.year, now.month - (5 - k))
  }

  /**
   * The window is six consecutive months, oldest first, rolling over the
   * year as needed, and ends with the current month.
   */
  lemma WindowSpec(now: Date)
    requires Normal(now)
    ensures WindowMonth(now, 5) == Date(now.year, now.month, 1)
    ensures forall k :: 0 <= k < 5 ==> MonthNumber(WindowMonth(now, k + 1)) == MonthNumber(WindowMonth(now, k)) + 1
    ensures forall j, k :: 0 <= j < k < 6 ==>
      WindowMonth(now, j).year != WindowMonth(now, k).year || WindowMonth(now, j).month != WindowMonth(now, k).month
  {
    MonthStartSpec(now.year, now.month);
    forall k | 0 <= k < 6 ensures MonthNumber(WindowMonth(now, k)) == MonthNumber(now) - 5 + k {
      MonthStartSpec(now.year, now.month - (5 - k));
    }
  }

  /** The for-loop building `last6Months`, every bucket empty. */
  method LastSixMonths(now: Date) returns (buckets: seq<Bucket>)
    ensures |buckets| == 6
    ensures forall k :: 0 <= k < 6 ==> buckets[k] == Bucket(WindowMonth(now, k), 0.0, 0)
  {
    buckets := [];
    var i := 5;
    while i >= 0
      invariant -1 <= i <= 5 && |buckets| == 5 - i
      invariant forall k :: 0 <= k < |buckets| ==> buckets[k] == Bucket(WindowMonth(now, k), 0.0, 0)
    {
      buckets := buckets + [Bucket(MonthStart(now.year, now.month - i), 0.0, 0)];
      i := i - 1;
    }
  }

  /** What the buckets hold once every expense has been added. */
  function Buckets(es: seq<Expense>, dateOf: string -> Date, now: Date): seq<Bucket>
  {
    seq(6, k requires 0 <= k < 6 =>
      var m := WindowMonth(now, k);
      Bucket(m, MonthSum(es, dateOf, m.year, m.month), |MonthExpenses(es, dateOf, m.year, m.month)|))
  }

  /** `findIndex` of the bucket with the date's month and year, or -1. */
  function FindMonth(buckets: seq<Bucket>, d: Date): (r: int)
    ensures -1 <= r < |buckets|
    ensures r >= 0 ==> buckets[r].start.month == d.month && buckets[r].start.year == d.year
    ensures r >= 0 ==> forall k :: 0 <= k < r ==>
      !(buckets[k].start.month == d.month && buckets[k].start.year == d.year)
    ensures r == -1 <==> forall k :: 0 <= k < |buckets| ==>
      !(buckets[k].start.month == d.month && buckets[k].start.year == d.year)
  {
    if buckets == [] then -1
    else if buckets[0].start.month == d.month && buckets[0].start.year == d.year then 0
    else
      var r := FindMonth(buckets[1..], d);
      if r == -1 then -1 else r + 1
  }

  /**
   * `last6Months` after the `forEach`: each bucket holds the sum and count
   * of the expenses dated in its month; an expense outside the six months
   * is in none.
   */
  method MonthlyBuckets(es: seq<Expense>, dateOf: string -> Date, now: Date) returns (buckets: seq<Bucket>)
    requires Normal(now)
    ensures buckets == Buckets(es, dateOf, now)
  {
    buckets := LastSixMonths(now);
    WindowSpec(now);
    var i := 0;
    while i < |es|
      invariant 0 <= i <= |es| && |buckets| == 6
      invariant forall k :: 0 <= k < 6 ==> buckets[k] == Buckets(es[..i], dateOf, now)[k]
    {
      var e := es[i];
      assert es[..i + 1] == es[..i] + [e];
      var m := FindMonth(buckets, dateOf(e.date));
      forall k | 0 <= k < 6
        ensures (m == k) == InMonth(dateOf, WindowMonth(now, k).year, WindowMonth(now, k).month)(e)
      {
        assert buckets[k].start == WindowMonth(now, k);
        if m >= 0 {
          assert buckets[m].start == WindowMonth(now, m);
        }
      }
      if m != -1 {
        buckets := buckets[m := Bucket(buckets[m].start, buckets[m].total + e.amount, buckets[m].count + 1)];
      }
      forall k | 0 <= k < 6 ensures buckets[k] == Buckets(es[..i + 1], dateOf, now)[k] {
        MonthStep(es[..i], e, dateOf, WindowMonth(now, k).year, WindowMonth(now, k).month);
      }
      i := i + 1;
    }
    assert es[..i] == es;
  }

  /** `maxMonthlyAmount`: `Math.max(...totals, 1)`. */
  function MaxMonthly(buckets: seq<Bucket>): (r: real)
    ensures r >= 1.0
    ensures forall k :: 0 <= k < |buckets| ==> r >= buckets[k].total
    ensures r == 1.0 || exists k :: 0 <= k < |buckets| && r == buckets[k].total
  {
    if buckets == [] then 1.0
    else
      var m := MaxMonthly(buckets[..|buckets| - 1]);
      var last := buckets[|buckets| - 1].total;
      if last > m then last else m
  }

  /** `avgExpenseAmount`. */
  function Average(es: seq<Expense>): real
  {
    if |es| > 0 then TotalAmount(es) / |es| as real else 0.0
  }

  /** The average times the count is the total; with no expenses it is 0. */
  lemma AverageSpec(es: seq<Expense>)
    ensures |es| > 0 ==> Average(es) * |es| as real == TotalAmount(es)
    ensures |es| == 0 ==> Average(es) == 0.0
  {
  }

  /** `thisMonthTotal`. */
  function ThisMonthTotal(es: seq<Expense>, dateOf: string -> Date, now: Date): real
  {
    MonthSum(es, dateOf, now.year, now.month)
  }

  /** `lastMonthTotal`: the month before, rolling back over January. */
  function LastMonthTotal(es: seq<Expense>, dateOf: string -> Date, now: Date): real
  {
    var d := MonthStart(now.year, now.month - 1);
    MonthSum(es, dateOf, d.year, d.month)
  }

  /** The two month totals of the insights are the last two buckets of the chart. */
  lemma MonthTotalsMatchBuckets(es: seq<Expense>, dateOf: string -> Date, now: Date)
    requires Normal(now)
    ensures ThisMonthTotal(es, dateOf, now) == Buckets(es, dateOf, now)[5].total
    ensures LastMonthTotal(es, dateOf, now) == Buckets(es, dateOf, now)[4].total
  {
    WindowSpec(now);
  }

  /** `monthlyChange`, in percent. */
  function MonthlyChange(thisTotal: real, lastTotal: real): real
  {
    if lastTotal > 0.0 then (thisTotal - lastTotal) / lastTotal * 100.0 else 0.0
  }

  /**
   * Without a positive total last month the change is 0; otherwise it has
   * the sign of the difference, and it is never below -100% when this
   * month's total is not negative.
   */
  lemma MonthlyChangeSpec(thisTotal: real, lastTotal: real)
    ensures lastTotal <= 0.0 ==> MonthlyChange(thisTotal, lastTotal) == 0.0
    ensures lastTotal > 0.0 ==>
      && (MonthlyChange(thisTotal, lastTotal) > 0.0 <==> thisTotal > lastTotal)
      && (MonthlyChange(thisTotal, lastTotal) == 0.0 <==> thisTotal == lastTotal)
      && (thisTotal >= 0.0 ==> MonthlyChange(thisTotal, lastTotal) >= -100.0)
  {
    if lastTotal > 0.0 {
      var q := (thisTotal - lastTotal) / lastTotal;
      assert q * lastTotal == thisTotal - lastTotal;
    }
  }

  /** `topCategoryName` and `topCategoryAmount`. */
  function TopCategory(sorted: seq<(string, Tally)>): (string, real)
  {
    if sorted == [] then ("N/A", 0.0) else (sorted[0].0, sorted[0].1.total)
  }

  /**
   * `topCategoryPercentage`: 0 whenever the total is not positive, for any
   * amounts; otherwise the top amount's share of the total, in percent.
   */
  function TopPercentage(topAmount: real, total: real): (r: real)
    ensures total <= 0.0 ==> r == 0.0
    ensures total > 0.0 ==> r * total == topAmount * 100.0
  {
    if total > 0.0 then topAmount / total * 100.0 else 0.0
  }

  /** The totals add up to `totalAmount`. */
  lemma TotalsAddUp(es: seq<Expense>)
    ensures SumOf(CategoryTotals(es), TallyTotal) == TotalAmount(es)
  {
    GroupSum(es, Category, Amount);
    SumOfMapped(Group(es, Category), CategoryTotals(es), GroupTotal(Amount), TallyTotal);
  }

  /** Every listed category is the category of some expense. */
  lemma CategoryOfSomeExpense(es: seq<Expense>, i: nat)
    requires i < |CategoryTotals(es)|
    ensures exists e :: e in es && e.category == CategoryTotals(es)[i].0
  {
    GroupContents(es, Category);
    var f := Filter(es, KeyIs(Category, CategoryTotals(es)[i].0));
    assert f == Group(es, Category)[i].1 && f != [];
    assert f[0] in es;
  }

  /** With no negative amounts no category total is negative. */
  lemma TotalsNonNegative(es: seq<Expense>)
    requires forall i :: 0 <= i < |es| ==> es[i].amount >= 0.0
    ensures forall k :: 0 <= k < |CategoryTotals(es)| ==> TallyTotal(CategoryTotals(es)[k]) >= 0.0
  {
    var g := Group(es, Category);
    GroupContents(es, Category);
    forall k | 0 <= k < |g| ensures SumOf(g[k].1, Amount) >= 0.0 {
      var f := Filter(es, KeyIs(Category, g[k].0));
      assert g[k].1 == f;
      SumOfNonNegative(f, Amount);
    }
  }

  /**
   * For some expense the first sorted entry is one of the category totals,
   * and none is larger.
   */
  lemma SortedHead(es: seq<Expense>) returns (j: nat)
    requires es != []
    ensures |SortedCategories(es)| > 0 && j < |CategoryTotals(es)|
    ensures CategoryTotals(es)[j] == SortedCategories(es)[0]
    ensures forall i :: 0 <= i < |CategoryTotals(es)| ==>
      CategoryTotals(es)[i].1.total <= SortedCategories(es)[0].1.total
  {
    var t, s := CategoryTotals(es), SortedCategories(es);
    GroupKeys(es, Category);
    KeyIndexSameKeys(t, Group(es, Category), es[0].category);
    assert |t| > 0;
    SortDescHead(t, TallyTotal);
    j :| 0 <= j < |t| && t[j] == s[0];
    forall i | 0 <= i < |t| ensures t[i].1.total <= s[0].1.total {
      assert t[i] in t;
    }
  }

  /**
   * With no expenses the top category is "N/A" with 0; otherwise it is the
   * category of some expense and no category has a larger total.
   */
  lemma TopCategorySpec(es: seq<Expense>)
    ensures es == [] ==> TopCategory(SortedCategories(es)) == ("N/A", 0.0)
    ensures es != [] ==>
      var (name, amount) := TopCategory(SortedCategories(es));
      && (exists e :: e in es && e.category == name)
      && forall i :: 0 <= i < |CategoryTotals(es)| ==> CategoryTotals(es)[i].1.total <= amount
  {
    if es != [] {
      var j := SortedHead(es);
      CategoryOfSomeExpense(es, j);
    }
  }

  /**
   * With no negative amounts and a positive total, the top category's
   * share lies between 0 and 100.
   */
  lemma TopPercentageSpec(es: seq<Expense>)
    requires forall i :: 0 <= i < |es| ==> es[i].amount >= 0.0
    ensures TotalAmount(es) > 0.0 ==>
      0.0 <= TopPercentage(TopCategory(SortedCategories(es)).1, TotalAmount(es)) <= 100.0
  {
    if TotalAmount(es) > 0.0 {
      assert es != [];
      var t := CategoryTotals(es);
      var j := SortedHead(es);
      TotalsNonNegative(es);
      TotalsAddUp(es);
      SumOfAtLeastTerm(t, TallyTotal, j);
      assert TopCategory(SortedCategories(es)).1 == TallyTotal(t[j]);
      ShareBounds(TallyTotal(t[j]), TotalAmount(es));
    }
  }

  /** A part between 0 and the whole is between 0% and 100% of it. */
  lemma ShareBounds(part: real, whole: real)
    requires 0.0 <= part <= whole && whole > 0.0
    ensures 0.0 <= TopPercentage(part, whole) <= 100.0
  {
    var q := part / whole;
    assert q * whole == part;
  }
}
