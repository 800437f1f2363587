/**
 * The aggregation and filter/sort engine (utils/expenseUtils.ts): summaries
 * over a date range, the per-category breakdown with percentage shares, the
 * filtered and sorted expense list, and the chart projection.
 */
module ExpenseUtils {
  import opened Collections
  import opened Types
  import opened Platform
  import opened Sorting
  import opened DateUtils

  // ---------------------------------------------------------------------
  // Summaries
  // ---------------------------------------------------------------------

  /** The expenses dated within `[start, end]`, in input order. */
  function InRange(expenses: seq<Expense>, start: int, end: int): seq<Expense>
  {
    Filter(expenses, InRangeOf(start, end))
  }

  function CalculateExpenseSummary(expenses: seq<Expense>, start: int, end: int): (r: ExpenseSummary)
    ensures r.count <= |expenses|
    ensures expenses == [] ==> r == ExpenseSummary(0.0, 0)
  {
    var filtered := InRange(expenses, start, end);
    ExpenseSummary(SumOf(filtered, AmountOf), |filtered|)
  }

  /** Reference definition: the amounts of in-range expenses, added from the front. */
  function RangeTotal(expenses: seq<Expense>, start: int, end: int): real
  {
    if expenses == [] then 0.0
    else
      var here := if IsDateInRange(expenses[0].date, start, end) then expenses[0].amount else 0.0;
      here + RangeTotal(expenses[1..], start, end)
  }

  /** Reference definition: the number of in-range expenses. */
  function RangeCount(expenses: seq<Expense>, start: int, end: int): nat
  {
    if expenses == [] then 0
    else (if IsDateInRange(expenses[0].date, start, end) then 1 else 0) + RangeCount(expenses[1..], start, end)
  }

  /** The summary counts exactly the expenses dated within the inclusive range, and adds up exactly their amounts. */
  lemma {:induction false} SummaryIsRangeSum(expenses: seq<Expense>, start: int, end: int)
    ensures CalculateExpenseSummary(expenses, start, end) ==
      ExpenseSummary(RangeTotal(expenses, start, end), RangeCount(expenses, start, end))
  {
    if expenses != [] {
      var x, rest := expenses[0], expenses[1..];
      var p := InRangeOf(start, end);
      assert expenses == [x] + rest;
      SummaryIsRangeSum(rest, start, end);
      FilterConcat([x], rest, p);
      assert [x][..0] == [];
      SumOfConcat(Filter([x], p), Filter(rest, p), AmountOf);
    }
  }

  /** Summaries of two lists joined are the sums of their summaries. */
  lemma SummaryOfConcat(a: seq<Expense>, b: seq<Expense>, start: int, end: int)
    ensures CalculateExpenseSummary(a + b, start, end).total ==
      CalculateExpenseSummary(a, start, end).total + CalculateExpenseSummary(b, start, end).total
    ensures CalculateExpenseSummary(a + b, start, end).count ==
      CalculateExpenseSummary(a, start, end).count + CalculateExpenseSummary(b, start, end).count
  {
    var p := InRangeOf(start, end);
    FilterConcat(a, b, p);
    SumOfConcat(Filter(a, p), Filter(b, p), AmountOf);
  }

  /** With non-negative amounts, a range inside another never counts or totals more. */
  lemma SummaryMonotone(expenses: seq<Expense>, start: int, end: int, start': int, end': int)
    requires start' <= start && end <= end'
    requires forall e :: e in expenses ==> e.amount >= 0.0
    ensures CalculateExpenseSummary(expenses, start, end).count <= CalculateExpenseSummary(expenses, start', end').count
    ensures CalculateExpenseSummary(expenses, start, end).total <= CalculateExpenseSummary(expenses, start', end').total
  {
    var p, q := InRangeOf(start, end), InRangeOf(start', end');
    assert forall e :: p(e) ==> q(e);
    FilterMonotone(expenses, p, q);
    SumOfFilterMonotone(expenses, p, q, AmountOf);
  }

  datatype Summaries = Summaries(today: ExpenseSummary, thisWeek: ExpenseSummary, thisMonth: ExpenseSummary)

  /**
   * The three dashboard summaries. Each range getter reads the clock for
   * itself, so the three readings `nowToday`, `nowWeek` and `nowMonth` are
   * separate parameters.
   */
  function GetExpenseSummaries(cal: Calendar, nowToday: int, nowWeek: int, nowMonth: int, expenses: seq<Expense>): Summaries
  {
    var today := GetTodayRange(cal, nowToday);
    var week := GetThisWeekRange(cal, nowWeek);
    var month := GetThisMonthRange(cal, nowMonth);
    Summaries(
      CalculateExpenseSummary(expenses, today.start, today.end),
      CalculateExpenseSummary(expenses, week.start, week.end),
      CalculateExpenseSummary(expenses, month.start, month.end))
  }

  /**
   * Each dashboard summary is the range summary of its own reading's range.
   * When the three readings fall on the same day and the amounts are
   * positive, today's never exceeds this week's or this month's.
   */
  lemma SummariesNest(cal: Calendar, nowToday: int, nowWeek: int, nowMonth: int, expenses: seq<Expense>)
    requires CalendarLaws(cal, nowWeek) && CalendarLaws(cal, nowMonth)
    requires cal.startOfDay(nowWeek) == cal.startOfDay(nowToday) && cal.endOfDay(nowWeek) == cal.endOfDay(nowToday)
    requires cal.startOfDay(nowMonth) == cal.startOfDay(nowToday) && cal.endOfDay(nowMonth) == cal.endOfDay(nowToday)
    requires forall e :: e in expenses ==> e.amount > 0.0
    ensures var r := GetExpenseSummaries(cal, nowToday, nowWeek, nowMonth, expenses);
      && r.today == CalculateExpenseSummary(expenses, cal.startOfDay(nowToday), cal.endOfDay(nowToday))
      && r.thisWeek == CalculateExpenseSummary(expenses, cal.startOfWeek(nowWeek, 1), cal.endOfWeek(nowWeek, 1))
      && r.thisMonth == CalculateExpenseSummary(expenses, cal.startOfMonth(nowMonth), cal.endOfMonth(nowMonth))
      && r.today.count <= r.thisWeek.count && r.today.total <= r.thisWeek.total
      && r.today.count <= r.thisMonth.count && r.today.total <= r.thisMonth.total
  {
    var t, w, m := GetTodayRange(cal, nowToday), GetThisWeekRange(cal, nowWeek), GetThisMonthRange(cal, nowMonth);
    RangesAroundNow(cal, nowWeek);
    RangesAroundNow(cal, nowMonth);
    SummaryMonotone(expenses, t.start, t.end, w.start, w.end);
    SummaryMonotone(expenses, t.start, t.end, m.start, m.end);
  }

  /**
   * Without the same-day condition the nesting can fail: on a calendar that
   * meets the laws, readings on different days put an expense in today's
   * summary and not in this week's.
   */
  lemma SummariesAcrossDays()
    ensures CalendarLaws(ToyCalendar(), 0) && CalendarLaws(ToyCalendar(), 5)
    ensures var e := Expense("1", 10.0, "Food", None, 0, 0);
      var r := GetExpenseSummaries(ToyCalendar(), 0, 5, 5, [e]);
      r.today == ExpenseSummary(10.0, 1) && r.thisWeek == ExpenseSummary(0.0, 0)
  {
    var e := Expense("1", 10.0, "Food", None, 0, 0);
    assert InRangeOf(-1, 0)(e) && !InRangeOf(4, 5)(e);
    assert [e][..0] == [];
  }

  // ---------------------------------------------------------------------
  // Category breakdown
  // ---------------------------------------------------------------------

  /** The pin glyph shown for a category with no icon. */
  const DEFAULT_ICON: string := "\U{1F4CC}"
  const DEFAULT_COLOR: string := "#FFEAA7"

  /** The `find` callback: a category with exactly this name. */
  function NameIs(name: string): Category -> bool
  {
    (c: Category) => c.name == name
  }

  /** `category?.icon || DEFAULT_ICON` */
  function IconOf(category: Option<Category>): string
  {
    if category.Some? && category.value.icon != "" then category.value.icon else DEFAULT_ICON
  }

  /** `category?.color || DEFAULT_COLOR` */
  function ColorOf(category: Option<Category>): string
  {
    if category.Some? && category.value.color != "" then category.value.color else DEFAULT_COLOR
  }

  /** `Math.round(x * 100) / 100` on exact reals: the nearest hundredth, halves rounded up. */
  function RoundTo2(x: real): (r: real)
    ensures x - 0.005 < r <= x + 0.005
    ensures x >= 0.0 ==> r >= 0.0
  {
    ((x * 100.0 + 0.5).Floor as real) / 100.0
  }

  /** The unrounded percentage of `total` in `totalSpent`, 0 when nothing was spent. */
  function Share(total: real, totalSpent: real): real
  {
    if totalSpent > 0.0 then (total / totalSpent) * 100.0 else 0.0
  }

  /** The `map` callback over `Object.entries(breakdown)`: one `[categoryName, total]` pair to its entry. */
  function ToEntry(categoryName: string, total: real, categories: seq<Category>, totalSpent: real): CategoryBreakdown
  {
    var category := Find(categories, NameIs(categoryName));
    var percentage := if totalSpent > 0.0 then (total / totalSpent) * 100.0 else 0.0;
    CategoryBreakdown(categoryName, total, RoundTo2(percentage), IconOf(category), ColorOf(category))
  }

  /** The entry of one category name: the callback applied to the total of its in-range expenses. */
  function BreakdownEntry(name: string, filtered: seq<Expense>, categories: seq<Category>, totalSpent: real): CategoryBreakdown
  {
    ToEntry(name, SumOf(WithKey(filtered, CategoryOf, name), AmountOf), categories, totalSpent)
  }

  /** The entries for `names`, in that order. */
  function Entries(names: seq<string>, filtered: seq<Expense>, categories: seq<Category>, totalSpent: real): (r: seq<CategoryBreakdown>)
    ensures |r| == |names|
  {
    seq(|names|, i requires 0 <= i < |names| => BreakdownEntry(names[i], filtered, categories, totalSpent))
  }

  function EntryCategory(b: CategoryBreakdown): string { b.category }
  function EntryTotal(b: CategoryBreakdown): real { b.total }

  /** The breakdown before sorting: one entry per in-range category, in the order first met. */
  function UnsortedBreakdown(expenses: seq<Expense>, categories: seq<Category>, start: int, end: int): seq<CategoryBreakdown>
  {
    var filtered := InRange(expenses, start, end);
    Entries(DistinctKeys(filtered, CategoryOf), filtered, categories, SumOf(filtered, AmountOf))
  }

  /** The breakdown `getCategoryBreakdown` returns: the entries stably sorted by descending total. */
  function CategoryBreakdownOf(expenses: seq<Expense>, categories: seq<Category>, start: int, end: int): seq<CategoryBreakdown>
  {
    StableSorted(UnsortedBreakdown(expenses, categories, start, end), EntryTotal, true)
  }

  /**
   * Filters to the range, totals it, accumulates a per-name total in a
   * dictionary, maps its entries and sorts them in place.
   */
  method GetCategoryBreakdown(expenses: seq<Expense>, categories: seq<Category>, start: int, end: int)
    returns (r: seq<CategoryBreakdown>)
    ensures r == CategoryBreakdownOf(expenses, categories, start, end)
  {
    var filtered := Filter(expenses, InRangeOf(start, end));
    var totalSpent := SumOf(filtered, AmountOf);
    var names, breakdown := TotalsByCategory(filtered);

    var entries := ToEntries(names, breakdown, categories, totalSpent);
    assert entries == Entries(names, filtered, categories, totalSpent);

    var a := new CategoryBreakdown[|entries|](k requires 0 <= k < |entries| => entries[k]);
    assert a[..] == entries;
    SortInPlace(a, EntryTotal, true);
    r := a[..];
  }

  /** `Object.entries(breakdown).map(...)`: the callback applied to each key and its total, in key order. */
  method ToEntries(names: seq<string>, breakdown: map<string, real>, categories: seq<Category>, totalSpent: real)
    returns (entries: seq<CategoryBreakdown>)
    requires forall k :: k in names ==> k in breakdown
    ensures |entries| == |names|
    ensures forall m :: 0 <= m < |names| ==> entries[m] == ToEntry(names[m], breakdown[names[m]], categories, totalSpent)
  {
    entries := [];
    for j := 0 to |names|
      invariant |entries| == j
      invariant forall m :: 0 <= m < j ==> entries[m] == ToEntry(names[m], breakdown[names[m]], categories, totalSpent)
    {
      var name := names[j];
      entries := entries + [ToEntry(name, breakdown[name], categories, totalSpent)];
    }
  }

  /**
   * The `forEach` that fills the dictionary `breakdown` with
   * `(breakdown[c] || 0) + amount`; `names` is its key order.
   */
  method TotalsByCategory(filtered: seq<Expense>) returns (names: seq<string>, breakdown: map<string, real>)
    ensures names == DistinctKeys(filtered, CategoryOf)
    ensures forall k :: k in breakdown <==> k in names
    ensures forall k :: k in breakdown ==> breakdown[k] == SumOf(WithKey(filtered, CategoryOf, k), AmountOf)
  {
    names := [];
    breakdown := map[];
    for i := 0 to |filtered|
      invariant names == DistinctKeys(filtered[..i], CategoryOf)
      invariant breakdown == Accumulate(filtered[..i], CategoryOf, 0.0, AddTo(AmountOf))
    {
      var expense := filtered[i];
      var c := expense.category;
      assert CategoryOf(expense) == c && AmountOf(expense) == expense.amount;
      AccumulateStep(filtered, i, CategoryOf, 0.0, AddTo(AmountOf));
      var previous := 0.0;
      if c in breakdown {
        previous := breakdown[c];
      } else {
        names := names + [c];
      }
      AddToApply(AmountOf, previous, expense);
      breakdown := breakdown[c := previous + expense.amount];
    }
    assert filtered[..|filtered|] == filtered;
    KeyedTotalsMeaning(filtered, CategoryOf, AmountOf, breakdown);
  }

  // ---------------------------------------------------------------------
  // Properties of the breakdown
  // ---------------------------------------------------------------------

  /** The entries of `names` carry those names: as many entries of a name as it occurs in `names`. */
  lemma {:induction false} EntriesNamed(names: seq<string>, filtered: seq<Expense>, categories: seq<Category>, totalSpent: real, name: string)
    ensures |WithKey(Entries(names, filtered, categories, totalSpent), EntryCategory, name)| == multiset(names)[name]
  {
    if names != [] {
      var n := |names| - 1;
      var es := Entries(names, filtered, categories, totalSpent);
      assert es == Entries(names[..n], filtered, categories, totalSpent) + [es[n]];
      assert names == names[..n] + [names[n]];
      EntriesNamed(names[..n], filtered, categories, totalSpent, name);
      WithKeySnoc(Entries(names[..n], filtered, categories, totalSpent), es[n], EntryCategory, name);
    }
  }

  /** The entry totals of `names` add up to the totals of their buckets. */
  lemma {:induction false} EntriesTotal(names: seq<string>, filtered: seq<Expense>, categories: seq<Category>, totalSpent: real)
    ensures SumOf(Entries(names, filtered, categories, totalSpent), EntryTotal) == KeyedSum(names, filtered, CategoryOf, AmountOf)
  {
    if names != [] {
      var n := |names| - 1;
      var es := Entries(names, filtered, categories, totalSpent);
      assert es[..n] == Entries(names[..n], filtered, categories, totalSpent);
      EntriesTotal(names[..n], filtered, categories, totalSpent);
    }
  }

  /**
   * Exactly one entry for each category name that some in-range expense
   * uses, and none for any other name.
   */
  lemma BreakdownOnePerCategory(expenses: seq<Expense>, categories: seq<Category>, start: int, end: int, name: string)
    ensures |WithKey(CategoryBreakdownOf(expenses, categories, start, end), EntryCategory, name)| ==
      if exists e :: e in expenses && IsDateInRange(e.date, start, end) && e.category == name then 1 else 0
  {
    var f := InRange(expenses, start, end);
    var u := UnsortedBreakdown(expenses, categories, start, end);
    StableSortedCount(u, EntryTotal, true, KeyIs(EntryCategory, name));
    EntriesNamed(DistinctKeys(f, CategoryOf), f, categories, SumOf(f, AmountOf), name);
    DistinctKeysOnce(f, CategoryOf, name);
    FilterMembers(expenses, InRangeOf(start, end));
    if exists e :: e in expenses && IsDateInRange(e.date, start, end) && e.category == name {
      var e :| e in expenses && IsDateInRange(e.date, start, end) && e.category == name;
      assert e in f;
    }
  }

  /** The entry totals add up to the in-range grand total (the summary's total). */
  lemma BreakdownTotalsSum(expenses: seq<Expense>, categories: seq<Category>, start: int, end: int)
    ensures SumOf(CategoryBreakdownOf(expenses, categories, start, end), EntryTotal) ==
      CalculateExpenseSummary(expenses, start, end).total
  {
    var f := InRange(expenses, start, end);
    var u := UnsortedBreakdown(expenses, categories, start, end);
    StableSortedSum(u, EntryTotal, true, EntryTotal);
    EntriesTotal(DistinctKeys(f, CategoryOf), f, categories, SumOf(f, AmountOf));
    PartitionSum(f, CategoryOf, AmountOf);
  }

  /** Every entry is the entry of its own category name, and that name is one of the in-range names. */
  lemma BreakdownEntries(expenses: seq<Expense>, categories: seq<Category>, start: int, end: int)
    ensures var f := InRange(expenses, start, end);
      forall b :: b in CategoryBreakdownOf(expenses, categories, start, end) ==>
        b == BreakdownEntry(b.category, f, categories, SumOf(f, AmountOf)) && b.category in DistinctKeys(f, CategoryOf)
  {
    var f := InRange(expenses, start, end);
    var u := UnsortedBreakdown(expenses, categories, start, end);
    StableSortedPermutes(u, EntryTotal, true);
    forall b | b in CategoryBreakdownOf(expenses, categories, start, end)
      ensures b == BreakdownEntry(b.category, f, categories, SumOf(f, AmountOf)) && b.category in DistinctKeys(f, CategoryOf)
    {
      assert b in multiset(u);
      var i :| 0 <= i < |u| && u[i] == b;
    }
  }

  /** The sorted breakdown has as many entries as there are in-range categories, and holds each one's entry. */
  lemma BreakdownEntryOf(expenses: seq<Expense>, categories: seq<Category>, start: int, end: int, k: nat) returns (p: nat)
    requires k < |DistinctKeys(InRange(expenses, start, end), CategoryOf)|
    ensures var r, names := CategoryBreakdownOf(expenses, categories, start, end), DistinctKeys(InRange(expenses, start, end), CategoryOf);
      |r| == |names| && p < |r| && r[p] == UnsortedBreakdown(expenses, categories, start, end)[k] && r[p].category == names[k]
  {
    var u := UnsortedBreakdown(expenses, categories, start, end);
    var r := CategoryBreakdownOf(expenses, categories, start, end);
    StableSortedPermutes(u, EntryTotal, true);
    assert |r| == |multiset(r)| == |multiset(u)| == |u|;
    assert u[k] in multiset(r);
    p :| 0 <= p < |r| && r[p] == u[k];
  }

  /**
   * An entry's total is the total of the in-range expenses of its category;
   * its percentage is that total's share of the grand total, rounded to two
   * decimals (so within 0.005 of the exact share), and 0 when the grand
   * total is not positive.
   */
  lemma BreakdownPercentages(expenses: seq<Expense>, categories: seq<Category>, start: int, end: int)
    ensures var grand := CalculateExpenseSummary(expenses, start, end).total;
      forall b :: b in CategoryBreakdownOf(expenses, categories, start, end) ==>
        && b.total == SumOf(WithKey(InRange(expenses, start, end), CategoryOf, b.category), AmountOf)
        && (grand > 0.0 ==> b.percentage == RoundTo2((b.total / grand) * 100.0))
        && (grand > 0.0 ==> (b.total / grand) * 100.0 - 0.005 < b.percentage <= (b.total / grand) * 100.0 + 0.005)
        && (grand <= 0.0 ==> b.percentage == 0.0)
  {
    BreakdownEntries(expenses, categories, start, end);
    assert RoundTo2(0.0) == 0.0 by {
      assert (0.0 * 100.0 + 0.5).Floor == 0;
    }
  }

  /** The exact, unrounded share of an entry, in percent. */
  function ExactShare(grand: real): CategoryBreakdown -> real
  {
    (b: CategoryBreakdown) => Share(b.total, grand)
  }

  function EntryPercentage(b: CategoryBreakdown): real { b.percentage }

  lemma {:induction false} SharesSum(bs: seq<CategoryBreakdown>, grand: real)
    requires grand > 0.0
    ensures SumOf(bs, ExactShare(grand)) == (SumOf(bs, EntryTotal) / grand) * 100.0
  {
    if bs != [] {
      var n := |bs| - 1;
      SharesSum(bs[..n], grand);
      var a, t := SumOf(bs[..n], EntryTotal), bs[n].total;
      assert (a + t) / grand == a / grand + t / grand;
    }
  }

  /** Rounding each share moves the sum of `bs` by at most 0.005 per entry. */
  lemma {:induction false} RoundedSharesClose(bs: seq<CategoryBreakdown>, grand: real)
    requires grand > 0.0
    requires forall b :: b in bs ==> b.percentage == RoundTo2((b.total / grand) * 100.0)
    ensures SumOf(bs, ExactShare(grand)) - 0.005 * (|bs| as real) <= SumOf(bs, EntryPercentage)
    ensures SumOf(bs, EntryPercentage) <= SumOf(bs, ExactShare(grand)) + 0.005 * (|bs| as real)
  {
    if bs != [] {
      var n := |bs| - 1;
      assert bs[n] in bs;
      RoundedSharesClose(bs[..n], grand);
    }
  }

  /** With a positive grand total the exact shares sum to 100. */
  lemma BreakdownSharesSumTo100(expenses: seq<Expense>, categories: seq<Category>, start: int, end: int)
    requires CalculateExpenseSummary(expenses, start, end).total > 0.0
    ensures var grand := CalculateExpenseSummary(expenses, start, end).total;
      SumOf(CategoryBreakdownOf(expenses, categories, start, end), ExactShare(grand)) == 100.0
  {
    var r, grand := CategoryBreakdownOf(expenses, categories, start, end), CalculateExpenseSummary(expenses, start, end).total;
    BreakdownTotalsSum(expenses, categories, start, end);
    SharesSum(r, grand);
    WholeIsHundredPercent(SumOf(r, EntryTotal), grand);
  }

  lemma WholeIsHundredPercent(total: real, grand: real)
    requires grand > 0.0 && total == grand
    ensures (total / grand) * 100.0 == 100.0
  {
  }

  /** The rounded percentages sum to within 0.005 per entry of 100. */
  lemma BreakdownRoundedSum(expenses: seq<Expense>, categories: seq<Category>, start: int, end: int)
    requires CalculateExpenseSummary(expenses, start, end).total > 0.0
    ensures var r := CategoryBreakdownOf(expenses, categories, start, end);
      100.0 - 0.005 * (|r| as real) <= SumOf(r, EntryPercentage) <= 100.0 + 0.005 * (|r| as real)
  {
    var r, grand := CategoryBreakdownOf(expenses, categories, start, end), CalculateExpenseSummary(expenses, start, end).total;
    forall b | b in r
      ensures b.percentage == RoundTo2((b.total / grand) * 100.0)
    {
      BreakdownPercentages(expenses, categories, start, end);
    }
    RoundedSharesClose(r, grand);
    BreakdownSharesSumTo100(expenses, categories, start, end);
  }

  /**
   * The breakdown is non-increasing by total; entries of equal total keep the
   * order in which their categories were first met among the in-range
   * expenses.
   */
  lemma BreakdownOrder(expenses: seq<Expense>, categories: seq<Category>, start: int, end: int)
    ensures var r := CategoryBreakdownOf(expenses, categories, start, end);
      forall i, j :: 0 <= i < j < |r| ==> r[i].total >= r[j].total
    ensures var r, u := CategoryBreakdownOf(expenses, categories, start, end), UnsortedBreakdown(expenses, categories, start, end);
      forall v :: WithKey(r, EntryTotal, v) == WithKey(u, EntryTotal, v)
    ensures var u, names := UnsortedBreakdown(expenses, categories, start, end), DistinctKeys(InRange(expenses, start, end), CategoryOf);
      forall i :: 0 <= i < |u| ==> u[i].category == names[i]
  {
    var u := UnsortedBreakdown(expenses, categories, start, end);
    StableSortedIsSorted(u, EntryTotal, true);
    forall v ensures WithKey(CategoryBreakdownOf(expenses, categories, start, end), EntryTotal, v) == WithKey(u, EntryTotal, v) {
      StableSortedKeepsTies(u, EntryTotal, true, v);
    }
  }

  /**
   * Icon and colour come from the first category with the entry's exact
   * name, an empty one falling back to the default; with no such category
   * both are the defaults.
   */
  lemma BreakdownDecoration(expenses: seq<Expense>, categories: seq<Category>, start: int, end: int)
    ensures var r := CategoryBreakdownOf(expenses, categories, start, end);
      forall b :: b in r && (forall c :: c in categories ==> c.name != b.category) ==>
        b.icon == DEFAULT_ICON && b.color == DEFAULT_COLOR
    ensures var r := CategoryBreakdownOf(expenses, categories, start, end);
      forall b, i ::
        (b in r && 0 <= i < |categories| && categories[i].name == b.category &&
         (forall j :: 0 <= j < i ==> categories[j].name != b.category)) ==>
        && b.icon == (if categories[i].icon != "" then categories[i].icon else DEFAULT_ICON)
        && b.color == (if categories[i].color != "" then categories[i].color else DEFAULT_COLOR)
  {
    BreakdownEntries(expenses, categories, start, end);
    var r := CategoryBreakdownOf(expenses, categories, start, end);
    forall b | b in r && (forall c :: c in categories ==> c.name != b.category)
      ensures b.icon == DEFAULT_ICON && b.color == DEFAULT_COLOR
    {
      var found := Find(categories, NameIs(b.category));
      if found.Some? {
        assert false;
      }
    }
    forall b, i | b in r && 0 <= i < |categories| && categories[i].name == b.category &&
        (forall j :: 0 <= j < i ==> categories[j].name != b.category)
      ensures b.icon == (if categories[i].icon != "" then categories[i].icon else DEFAULT_ICON)
      ensures b.color == (if categories[i].color != "" then categories[i].color else DEFAULT_COLOR)
    {
      var k := FindIndex(categories, NameIs(b.category));
      assert NameIs(b.category)(categories[i]);
      assert k == i;
    }
  }

  // ---------------------------------------------------------------------
  // Chart data
  // ---------------------------------------------------------------------

  datatype ChartPoint = ChartPoint(name: string, amount: real, color: string, legendFontColor: string, legendFontSize: int)

  const LEGEND_FONT_COLOR: string := "#7F7F7F"
  const LEGEND_FONT_SIZE: int := 12

  /** One chart point per breakdown entry, in the same order. */
  function GenerateChartData(expenses: seq<Expense>, categories: seq<Category>, start: int, end: int): (r: seq<ChartPoint>)
    ensures var breakdown := CategoryBreakdownOf(expenses, categories, start, end);
      && |r| == |breakdown|
      && forall i :: 0 <= i < |r| ==>
        r[i] == ChartPoint(breakdown[i].category, breakdown[i].total, breakdown[i].color, LEGEND_FONT_COLOR, LEGEND_FONT_SIZE)
  {
    var breakdown := CategoryBreakdownOf(expenses, categories, start, end);
    seq(|breakdown|, i requires 0 <= i < |breakdown| =>
      ChartPoint(breakdown[i].category, breakdown[i].total, breakdown[i].color, LEGEND_FONT_COLOR, LEGEND_FONT_SIZE))
  }

  /** Within one chart the labels are distinct, because each category has one entry. */
  lemma ChartLabelsDistinct(expenses: seq<Expense>, categories: seq<Category>, start: int, end: int)
    ensures var r := GenerateChartData(expenses, categories, start, end);
      forall i, j :: 0 <= i < j < |r| ==> r[i].name != r[j].name
  {
    var r := GenerateChartData(expenses, categories, start, end);
    var breakdown := CategoryBreakdownOf(expenses, categories, start, end);
    forall i, j | 0 <= i < j < |r| ensures r[i].name != r[j].name {
      if r[i].name == r[j].name {
        var name := breakdown[i].category;
        assert r[i].name == name && r[j].name == breakdown[j].category;
        WithKeyKeepsTwo(breakdown, EntryCategory, i, j);
        BreakdownOnePerCategory(expenses, categories, start, end, name);
        assert false;
      }
    }
  }

  // ---------------------------------------------------------------------
  // Filtering and sorting
  // ---------------------------------------------------------------------

  /** `toLowerCase` on one character (ASCII letters only). */
  function LowerChar(c: char): char
  {
    if 'A' <= c <= 'Z' then (c as int + 32) as char else c
  }

  function ToLower(s: string): (r: string)
    ensures |r| == |s|
    ensures forall i :: 0 <= i < |s| ==> r[i] == LowerChar(s[i])
  {
    seq(|s|, i requires 0 <= i < |s| => LowerChar(s[i]))
  }

  /** `s.includes(q)`: `q` occurs in `s` at some position. */
  predicate Includes(s: string, q: string)
    decreases |s|
  {
    (|q| <= |s| && s[..|q|] == q) || (s != [] && Includes(s[1..], q))
  }

  /** Reference definition of an occurrence of `q` in `s` at position `i`. */
  ghost predicate OccursAt(s: string, q: string, i: int)
  {
    0 <= i && i + |q| <= |s| && s[i..i + |q|] == q
  }

  lemma {:induction false} IncludesIffOccurs(s: string, q: string)
    ensures Includes(s, q) <==> exists i :: OccursAt(s, q, i)
    decreases |s|
  {
    if |q| <= |s| && s[..|q|] == q {
      assert OccursAt(s, q, 0);
    }
    if s != [] {
      IncludesIffOccurs(s[1..], q);
      if exists i :: OccursAt(s[1..], q, i) {
        var i :| OccursAt(s[1..], q, i);
        assert s[i + 1..i + 1 + |q|] == s[1..][i..i + |q|];
        assert OccursAt(s, q, i + 1);
      }
      if exists i :: OccursAt(s, q, i) {
        var i :| OccursAt(s, q, i);
        if i > 0 {
          assert s[1..][i - 1..i - 1 + |q|] == s[i..i + |q|];
          assert OccursAt(s[1..], q, i - 1);
        }
      }
    } else {
      if exists i :: OccursAt(s, q, i) {
        var i :| OccursAt(s, q, i);
        assert q == [];
      }
    }
  }

  /** The category filter: exactly this category name, case-sensitive. */
  function CategoryIs(category: string): Expense -> bool
  {
    (e: Expense) => e.category == category
  }

  /** The search filter for an already lower-cased query: the note or the category contains it. */
  function MatchesQuery(query: string): Expense -> bool
  {
    (e: Expense) =>
      (e.note.Some? && Includes(ToLower(e.note.value), query)) || Includes(ToLower(e.category), query)
  }

  /** The list after both optional filters, in input order. */
  function Filtered(expenses: seq<Expense>, options: FilterOptions): seq<Expense>
  {
    var byCategory := if Truthy(options.category) then Filter(expenses, CategoryIs(options.category.value)) else expenses;
    if Truthy(options.searchQuery) then Filter(byCategory, MatchesQuery(ToLower(options.searchQuery.value)))
    else byCategory
  }

  /** The sort key: the date's time value or the amount. */
  function SortKey(sortBy: SortBy): Expense -> real
  {
    if sortBy == ByDate then DateOf else AmountOf
  }

  /** What `filterAndSortExpenses` returns: the filtered list, stably sorted by key in the chosen order. */
  function FilteredAndSorted(expenses: seq<Expense>, options: FilterOptions): seq<Expense>
  {
    StableSorted(Filtered(expenses, options), SortKey(options.sortBy), options.sortOrder == Desc)
  }

  /**
   * Copies the list, narrows it by each truthy option and sorts the copy
   * in place with the subtraction comparator. The caller's list is a value
   * and cannot change.
   */
  method FilterAndSortExpenses(expenses: seq<Expense>, options: FilterOptions) returns (r: seq<Expense>)
    ensures r == FilteredAndSorted(expenses, options)
  {
    var filtered := expenses;
    if Truthy(options.category) {
      filtered := Filter(filtered, CategoryIs(options.category.value));
    }
    if Truthy(options.searchQuery) {
      var query := ToLower(options.searchQuery.value);
      filtered := Filter(filtered, MatchesQuery(query));
    }
    assert filtered == Filtered(expenses, options);
    var a := new Expense[|filtered|](i requires 0 <= i < |filtered| => filtered[i]);
    assert a[..] == filtered;
    SortInPlace(a, SortKey(options.sortBy), options.sortOrder == Desc);
    r := a[..];
  }

  /** The search test in the source's terms: lower-cased note or category includes the lower-cased query. */
  ghost predicate PassesSearch(e: Expense, searchQuery: string)
  {
    var query := ToLower(searchQuery);
    (e.note.Some? && exists i :: OccursAt(ToLower(e.note.value), query, i))
      || exists i :: OccursAt(ToLower(e.category), query, i)
  }

  /** The search callback is the search test. */
  lemma MatchesQueryIff(e: Expense, searchQuery: string)
    ensures MatchesQuery(ToLower(searchQuery))(e) <==> PassesSearch(e, searchQuery)
  {
    var query := ToLower(searchQuery);
    if e.note.Some? {
      IncludesIffOccurs(ToLower(e.note.value), query);
    }
    IncludesIffOccurs(ToLower(e.category), query);
  }

  lemma FilteredMembers(expenses: seq<Expense>, options: FilterOptions, e: Expense)
    ensures e in Filtered(expenses, options) <==>
      && e in expenses
      && (Truthy(options.category) ==> CategoryIs(options.category.value)(e))
      && (Truthy(options.searchQuery) ==> MatchesQuery(ToLower(options.searchQuery.value))(e))
  {
    var byCategory := if Truthy(options.category) then Filter(expenses, CategoryIs(options.category.value)) else expenses;
    if Truthy(options.category) {
      FilterMembers(expenses, CategoryIs(options.category.value));
    }
    if Truthy(options.searchQuery) {
      FilterMembers(byCategory, MatchesQuery(ToLower(options.searchQuery.value)));
    }
  }

  /**
   * An expense is in the result exactly when it is in the input, has the
   * chosen category if one is given, and passes the search if a query is
   * given; an absent or empty option filters nothing.
   */
  lemma FilterAndSortMembers(expenses: seq<Expense>, options: FilterOptions, e: Expense)
    ensures e in FilteredAndSorted(expenses, options) <==>
      && e in expenses
      && (Truthy(options.category) ==> e.category == options.category.value)
      && (Truthy(options.searchQuery) ==> PassesSearch(e, options.searchQuery.value))
  {
    var f := Filtered(expenses, options);
    StableSortedPermutes(f, SortKey(options.sortBy), options.sortOrder == Desc);
    assert e in FilteredAndSorted(expenses, options) <==> e in multiset(f);
    FilteredMembers(expenses, options, e);
    if Truthy(options.searchQuery) {
      MatchesQueryIff(e, options.searchQuery.value);
    }
  }

  /** The result is a rearrangement of the filtered list: same elements, same multiplicities. */
  lemma FilterAndSortPermutes(expenses: seq<Expense>, options: FilterOptions)
    ensures multiset(FilteredAndSorted(expenses, options)) == multiset(Filtered(expenses, options))
    ensures !Truthy(options.category) && !Truthy(options.searchQuery) ==>
      multiset(FilteredAndSorted(expenses, options)) == multiset(expenses)
  {
    StableSortedPermutes(Filtered(expenses, options), SortKey(options.sortBy), options.sortOrder == Desc);
  }

  /**
   * The result is ordered by the chosen key, ascending or descending, and
   * expenses with equal keys keep their relative input order.
   */
  lemma FilterAndSortOrder(expenses: seq<Expense>, options: FilterOptions)
    ensures var r, key := FilteredAndSorted(expenses, options), SortKey(options.sortBy);
      forall i, j :: 0 <= i < j < |r| ==>
        if options.sortOrder == Asc then key(r[i]) <= key(r[j]) else key(r[i]) >= key(r[j])
    ensures var r, key := FilteredAndSorted(expenses, options), SortKey(options.sortBy);
      forall v :: WithKey(r, key, v) == WithKey(Filtered(expenses, options), key, v)
  {
    var key, desc := SortKey(options.sortBy), options.sortOrder == Desc;
    StableSortedIsSorted(Filtered(expenses, options), key, desc);
    forall v ensures WithKey(FilteredAndSorted(expenses, options), key, v) == WithKey(Filtered(expenses, options), key, v) {
      StableSortedKeepsTies(Filtered(expenses, options), key, desc, v);
    }
  }

  /**
   * Toggling the sort order from ascending to descending reverses the list,
   * provided no two kept expenses share a sort key.
   */
  lemma FilterAndSortReverse(expenses: seq<Expense>, category: Option<string>, searchQuery: Option<string>, sortBy: SortBy)
    requires var f, key := Filtered(expenses, FilterOptions(category, searchQuery, sortBy, Asc)), SortKey(sortBy);
      forall i, j :: 0 <= i < j < |f| ==> key(f[i]) != key(f[j])
    ensures FilteredAndSorted(expenses, FilterOptions(category, searchQuery, sortBy, Desc))
         == Reverse(FilteredAndSorted(expenses, FilterOptions(category, searchQuery, sortBy, Asc)))
  {
    var f := Filtered(expenses, FilterOptions(category, searchQuery, sortBy, Asc));
    assert Filtered(expenses, FilterOptions(category, searchQuery, sortBy, Desc)) == f;
    StableSortedReverse(f, SortKey(sortBy));
  }

  /** Applying the same options to an already filtered and sorted list changes nothing. */
  lemma FilterAndSortIdempotent(expenses: seq<Expense>, options: FilterOptions)
    ensures FilteredAndSorted(FilteredAndSorted(expenses, options), options) == FilteredAndSorted(expenses, options)
  {
    var r := FilteredAndSorted(expenses, options);
    var key, desc := SortKey(options.sortBy), options.sortOrder == Desc;
    var byCategory := if Truthy(options.category) then Filter(r, CategoryIs(options.category.value)) else r;
    forall e | e in r
      ensures (Truthy(options.category) ==> CategoryIs(options.category.value)(e))
      ensures (Truthy(options.searchQuery) ==> MatchesQuery(ToLower(options.searchQuery.value))(e))
    {
      StableSortedPermutes(Filtered(expenses, options), key, desc);
      assert e in multiset(Filtered(expenses, options));
      FilteredMembers(expenses, options, e);
    }
    if Truthy(options.category) {
      FilterAllPass(r, CategoryIs(options.category.value));
    }
    if Truthy(options.searchQuery) {
      FilterAllPass(byCategory, MatchesQuery(ToLower(options.searchQuery.value)));
    }
    assert Filtered(r, options) == r;
    StableSortedIsSorted(Filtered(expenses, options), key, desc);
    StableSortedOfSorted(r, key, desc);
  }

  /** A search for "lunch" finds an expense noted "Lunch at Subway" whatever its category. */
  lemma SearchIsCaseInsensitive(e: Expense, sortBy: SortBy, sortOrder: SortOrder)
    requires e.note == Some("Lunch at Subway")
    ensures FilteredAndSorted([e], FilterOptions(None, Some("lunch"), sortBy, sortOrder)) == [e]
    ensures FilteredAndSorted([e], FilterOptions(None, Some("LUNCH"), sortBy, sortOrder)) == [e]
  {
    LunchNoteMatches(e);
    assert ToLower("lunch") == "lunch";
    assert ToLower("LUNCH") == "lunch";
    OnlyMatchKept(e, FilterOptions(None, Some("lunch"), sortBy, sortOrder));
    OnlyMatchKept(e, FilterOptions(None, Some("LUNCH"), sortBy, sortOrder));
  }

  lemma LunchNoteMatches(e: Expense)
    requires e.note == Some("Lunch at Subway")
    ensures MatchesQuery("lunch")(e)
  {
    var note := ToLower("Lunch at Subway");
    assert note[..5] == "lunch";
    assert Includes(note, "lunch");
  }

  /** A single expense that matches a search, with no category filter, is the whole result. */
  lemma OnlyMatchKept(e: Expense, options: FilterOptions)
    requires options.category == None && Truthy(options.searchQuery)
    requires MatchesQuery(ToLower(options.searchQuery.value))(e)
    ensures FilteredAndSorted([e], options) == [e]
  {
    assert [e][..0] == [];
    assert StableSorted([e], SortKey(options.sortBy), options.sortOrder == Desc) == [e];
  }


  function ScenarioExpenses(d: int): seq<Expense>
  {
    [Expense("1", 10.0, "Food", None, d, d), Expense("2", 20.0, "Food", None, d, d),
     Expense("3", 70.0, "Transport", None, d, d)]
  }

  lemma ScenarioTotals(d: int)
    ensures var expenses := ScenarioExpenses(d);
      && InRange(expenses, d, d) == expenses
      && DistinctKeys(expenses, CategoryOf) == ["Food", "Transport"]
      && SumOf(expenses, AmountOf) == 100.0
  {
    var expenses := ScenarioExpenses(d);
    var e1, e2, e3 := expenses[0], expenses[1], expenses[2];
    FilterAllPass(expenses, InRangeOf(d, d));
    assert expenses[..2] == [e1, e2] && [e1, e2][..1] == [e1] && [e1][..0] == [];
    assert DistinctKeys([e1], CategoryOf) == ["Food"];
    assert DistinctKeys([e1, e2], CategoryOf) == ["Food"];
    assert SumOf([e1], AmountOf) == 10.0;
    assert SumOf([e1, e2], AmountOf) == 30.0;
  }

  lemma ScenarioFood(d: int)
    ensures SumOf(WithKey(ScenarioExpenses(d), CategoryOf, "Food"), AmountOf) == 30.0
  {
    var expenses := ScenarioExpenses(d);
    var e1, e2, e3 := expenses[0], expenses[1], expenses[2];
    WithKeySnoc([], e1, CategoryOf, "Food");
    assert WithKey([e1], CategoryOf, "Food") == [e1] by { assert [] + [e1] == [e1]; }
    WithKeySnoc([e1], e2, CategoryOf, "Food");
    assert WithKey([e1, e2], CategoryOf, "Food") == [e1, e2] by { assert [e1] + [e2] == [e1, e2]; }
    WithKeySnoc([e1, e2], e3, CategoryOf, "Food");
    assert "Food" != "Transport";
    assert WithKey(expenses, CategoryOf, "Food") == [e1, e2] by { assert [e1, e2] + [e3] == expenses; }
    assert [e1, e2][..1] == [e1] && [e1][..0] == [];
    assert SumOf([e1], AmountOf) == 10.0;
    assert SumOf([e1, e2], AmountOf) == 30.0;
  }

  lemma ScenarioTransport(d: int)
    ensures SumOf(WithKey(ScenarioExpenses(d), CategoryOf, "Transport"), AmountOf) == 70.0
  {
    var expenses := ScenarioExpenses(d);
    var e1, e2, e3 := expenses[0], expenses[1], expenses[2];
    assert "Food" != "Transport";
    WithKeySnoc([], e1, CategoryOf, "Transport");
    assert WithKey([e1], CategoryOf, "Transport") == [] by { assert [] + [e1] == [e1]; }
    WithKeySnoc([e1], e2, CategoryOf, "Transport");
    assert WithKey([e1, e2], CategoryOf, "Transport") == [] by { assert [e1] + [e2] == [e1, e2]; }
    WithKeySnoc([e1, e2], e3, CategoryOf, "Transport");
    assert WithKey(expenses, CategoryOf, "Transport") == [e3] by { assert [e1, e2] + [e3] == expenses; }
    assert [e3][..0] == [];
  }

  /**
   * Food 10, Food 20 and Transport 70 on one day, with no categories: the
   * breakdown is Transport (70, 70%) then Food (30, 30%), both with the
   * fallback icon and colour.
   */
  lemma BreakdownScenario(d: int)
    ensures CategoryBreakdownOf(ScenarioExpenses(d), [], d, d) ==
      [CategoryBreakdown("Transport", 70.0, 70.0, DEFAULT_ICON, DEFAULT_COLOR),
       CategoryBreakdown("Food", 30.0, 30.0, DEFAULT_ICON, DEFAULT_COLOR)]
  {
    var food := CategoryBreakdown("Food", 30.0, 30.0, DEFAULT_ICON, DEFAULT_COLOR);
    var transport := CategoryBreakdown("Transport", 70.0, 70.0, DEFAULT_ICON, DEFAULT_COLOR);
    ScenarioUnsorted(d);
    assert [food, transport][..1] == [food] && [food][..0] == [];
    assert StableSorted([food], EntryTotal, true) == [food];
    assert Insert([food], transport, EntryTotal, true) == [transport, food];
  }

  /** Before sorting, the scenario's entries come in first-use order: Food, then Transport. */
  lemma ScenarioUnsorted(d: int)
    ensures UnsortedBreakdown(ScenarioExpenses(d), [], d, d) ==
      [CategoryBreakdown("Food", 30.0, 30.0, DEFAULT_ICON, DEFAULT_COLOR),
       CategoryBreakdown("Transport", 70.0, 70.0, DEFAULT_ICON, DEFAULT_COLOR)]
  {
    ScenarioTotals(d);
    ScenarioFood(d);
    ScenarioTransport(d);
    assert RoundTo2(30.0) == 30.0 by { assert (30.0 * 100.0 + 0.5).Floor == 3000; }
    assert RoundTo2(70.0) == 70.0 by { assert (70.0 * 100.0 + 0.5).Floor == 7000; }
  }
}
