/**
 * Date helpers (utils/dateUtils.ts): the inclusive range test, the
 * today / this-week / this-month ranges around an injected `now`, and the
 * bucketing of expenses by calendar day.
 */
module DateUtils {
  import opened Collections
  import opened Types
  import opened Platform

  /** Weeks start on Monday. */
  const WEEK_STARTS_ON: int := 1

  /** The pattern of a day key, e.g. "2024-01-15". */
  const DAY_KEY_FORMAT: string := "yyyy-MM-dd"

  /** The ranges read only the injected `now`; the week starts on Monday. */
  function GetTodayRange(cal: Calendar, now: int): DateRange
  {
    DateRange(cal.startOfDay(now), cal.endOfDay(now))
  }

  function GetThisWeekRange(cal: Calendar, now: int): DateRange
  {
    DateRange(cal.startOfWeek(now, WEEK_STARTS_ON), cal.endOfWeek(now, WEEK_STARTS_ON))
  }

  function GetThisMonthRange(cal: Calendar, now: int): DateRange
  {
    DateRange(cal.startOfMonth(now), cal.endOfMonth(now))
  }

  /** Both bounds are inclusive. */
  predicate IsDateInRange(date: int, start: int, end: int)
  {
    date >= start && date <= end
  }

  /** The filter callback shared by every range-restricted computation. */
  function InRangeOf(start: int, end: int): Expense -> bool
  {
    (e: Expense) => IsDateInRange(e.date, start, end)
  }

  /**
   * Two adjacent inclusive ranges `[a, b]` and `[b + 1, c]` split `[a, c]`:
   * no date lies in both, and the expenses of `[a, c]` are those of the
   * first part and those of the second, in count and in amount.
   */
  lemma {:induction false} AdjacentRangesAdd(expenses: seq<Expense>, a: int, b: int, c: int)
    requires a <= b + 1 && b <= c
    ensures forall e :: !(InRangeOf(a, b)(e) && InRangeOf(b + 1, c)(e))
    ensures |Filter(expenses, InRangeOf(a, c))| ==
      |Filter(expenses, InRangeOf(a, b))| + |Filter(expenses, InRangeOf(b + 1, c))|
    ensures SumOf(Filter(expenses, InRangeOf(a, c)), AmountOf) ==
      SumOf(Filter(expenses, InRangeOf(a, b)), AmountOf) + SumOf(Filter(expenses, InRangeOf(b + 1, c)), AmountOf)
  {
    if expenses != [] {
      var rest, x := expenses[..|expenses| - 1], expenses[|expenses| - 1];
      var p, q, r := InRangeOf(a, c), InRangeOf(a, b), InRangeOf(b + 1, c);
      AdjacentRangesAdd(rest, a, b, c);
      SumOfConcat(Filter(rest, p), if p(x) then [x] else [], AmountOf);
      SumOfConcat(Filter(rest, q), if q(x) then [x] else [], AmountOf);
      SumOfConcat(Filter(rest, r), if r(x) then [x] else [], AmountOf);
    }
  }

  /**
   * On expenses listed in date order the split keeps order as well: the
   * filter of `[a, c]` is the filter of `[a, b]` followed by that of
   * `[b + 1, c]`.
   */
  lemma {:induction false} AdjacentRangesSplit(expenses: seq<Expense>, a: int, b: int, c: int)
    requires a <= b + 1 && b <= c
    requires forall i, j :: 0 <= i < j < |expenses| ==> expenses[i].date <= expenses[j].date
    ensures Filter(expenses, InRangeOf(a, c)) ==
      Filter(expenses, InRangeOf(a, b)) + Filter(expenses, InRangeOf(b + 1, c))
  {
    if expenses != [] {
      var rest, x := expenses[..|expenses| - 1], expenses[|expenses| - 1];
      AdjacentRangesSplit(rest, a, b, c);
      if InRangeOf(a, b)(x) {
        forall e | e in rest ensures !InRangeOf(b + 1, c)(e) {
          var i :| 0 <= i < |rest| && rest[i] == e;
          assert expenses[i] == e;
        }
        FilterNonePass(rest, InRangeOf(b + 1, c));
      }
    }
  }

  /**
   * Each getter's range contains the instant it read, and at one instant
   * today's range lies inside this week's (Monday start) and this month's.
   */
  lemma RangesAroundNow(cal: Calendar, now: int)
    requires CalendarLaws(cal, now)
    ensures var t, w, m := GetTodayRange(cal, now), GetThisWeekRange(cal, now), GetThisMonthRange(cal, now);
      && IsDateInRange(now, t.start, t.end)
      && IsDateInRange(now, w.start, w.end)
      && IsDateInRange(now, m.start, m.end)
      && w.start <= t.start && t.end <= w.end
      && m.start <= t.start && t.end <= m.end
  {
  }

  // ---------------------------------------------------------------------
  // Grouping by day
  // ---------------------------------------------------------------------

  /** The day key of an expense: its date formatted as `yyyy-MM-dd`. */
  function DayKey(cal: Calendar): Expense -> string
  {
    (e: Expense) => cal.format(e.date, DAY_KEY_FORMAT)
  }

  /**
   * The object `groupExpensesByDate` returns: its keys in creation order and
   * the bucket stored under each.
   */
  datatype Grouping = Grouping(keys: seq<string>, buckets: map<string, seq<Expense>>)

  /**
   * Creates a bucket the first time a day key is met and appends every
   * expense to its day's bucket.
   */
  method GroupExpensesByDate(cal: Calendar, expenses: seq<Expense>) returns (g: Grouping)
    ensures g.keys == DistinctKeys(expenses, DayKey(cal))
    ensures forall k :: k in g.buckets <==> k in g.keys
    ensures forall k :: k in g.buckets ==> g.buckets[k] == WithKey(expenses, DayKey(cal), k)
  {
    var keys: seq<string> := [];
    var grouped: map<string, seq<Expense>> := map[];
    for i := 0 to |expenses|
      invariant keys == DistinctKeys(expenses[..i], DayKey(cal))
      invariant grouped == Accumulate(expenses[..i], DayKey(cal), [], Append())
    {
      var expense := expenses[i];
      var date := cal.format(expense.date, DAY_KEY_FORMAT);
      assert DayKey(cal)(expense) == date;
      AccumulateStep(expenses, i, DayKey(cal), [], Append());
      var bucket: seq<Expense> := [];
      if date in grouped {
        bucket := grouped[date];
      } else {
        keys := keys + [date];
      }
      AppendApply(bucket, expense);
      grouped := grouped[date := bucket + [expense]];
    }
    assert expenses[..|expenses|] == expenses;
    GroupMeaning(expenses, DayKey(cal), grouped);
    g := Grouping(keys, grouped);
  }

  /**
   * Every expense lies in the bucket of its own day key and in no other:
   * the buckets partition the input.
   */
  lemma GroupingPartitions(cal: Calendar, expenses: seq<Expense>, e: Expense, k: string)
    requires e in expenses
    ensures DayKey(cal)(e) in DistinctKeys(expenses, DayKey(cal))
    ensures e in WithKey(expenses, DayKey(cal), k) <==> k == DayKey(cal)(e)
  {
    WithKeyMembers(expenses, DayKey(cal), k);
  }

  /** The bucket sizes add up to the number of expenses. */
  lemma GroupingSizesSum(cal: Calendar, expenses: seq<Expense>)
    ensures KeyedCount(DistinctKeys(expenses, DayKey(cal)), expenses, DayKey(cal)) == |expenses|
  {
    PartitionCount(expenses, DayKey(cal));
  }

  /** Two expenses on the same calendar day (at any times) share a bucket. */
  lemma SameDaySameBucket(cal: Calendar, expenses: seq<Expense>, a: Expense, b: Expense)
    requires a in expenses && b in expenses
    requires cal.format(a.date, DAY_KEY_FORMAT) == cal.format(b.date, DAY_KEY_FORMAT)
    ensures a in WithKey(expenses, DayKey(cal), DayKey(cal)(b))
    ensures b in WithKey(expenses, DayKey(cal), DayKey(cal)(a))
  {
    WithKeyMembers(expenses, DayKey(cal), DayKey(cal)(a));
  }

  /**
   * A bucket lists its expenses in input order: it reads them off at strictly
   * increasing input positions, and takes every position of its day.
   */
  lemma GroupingKeepsOrder(cal: Calendar, expenses: seq<Expense>, k: string) returns (idx: seq<nat>)
    ensures |idx| == |WithKey(expenses, DayKey(cal), k)|
    ensures forall j :: 0 <= j < |idx| ==> idx[j] < |expenses| && WithKey(expenses, DayKey(cal), k)[j] == expenses[idx[j]]
    ensures forall j, j' :: 0 <= j < j' < |idx| ==> idx[j] < idx[j']
    ensures forall i :: 0 <= i < |expenses| && DayKey(cal)(expenses[i]) == k ==> i in idx
  {
    idx := FilterIndices(expenses, KeyIs(DayKey(cal), k));
  }

  /**
   * No expenses give no keys; otherwise there is one key per distinct day key,
   * each listed once.
   */
  lemma GroupingKeyCount(cal: Calendar, expenses: seq<Expense>)
    ensures expenses == [] ==> DistinctKeys(expenses, DayKey(cal)) == []
    ensures |DistinctKeys(expenses, DayKey(cal))| == |KeySet(expenses, DayKey(cal))|
    ensures NoDuplicates(DistinctKeys(expenses, DayKey(cal)))
  {
    DistinctKeysCardinality(expenses, DayKey(cal));
    DistinctKeysNoDuplicates(expenses, DayKey(cal));
  }

  /** Two expenses of the same day at different times form a single bucket holding both, in input order. */
  lemma OneDayOneBucket(cal: Calendar, a: Expense, b: Expense)
    requires cal.format(a.date, DAY_KEY_FORMAT) == cal.format(b.date, DAY_KEY_FORMAT)
    ensures DistinctKeys([a, b], DayKey(cal)) == [DayKey(cal)(a)]
    ensures WithKey([a, b], DayKey(cal), DayKey(cal)(a)) == [a, b]
  {
    var g := DayKey(cal);
    assert g(b) == g(a);
    assert [a, b][..1] == [a];
    assert [a][..0] == [];
    assert DistinctKeys([a], g) == [g(a)];
    assert WithKey([a], g, g(a)) == [a];
  }
}
