/**
 * The ledger aggregation engine of app.py: the per-category spending rollup
 * (get_spending_by_category), the daily-spending and category-frequency
 * rollups of the analytics page, and the budget-vs-actual comparison for one
 * month (get_budget_vs_actual).
 */
module Aggregation {
  import opened Ledger
  import opened Assoc

  /** Which rollup a dictionary-building loop computes: what it keys by and what it adds. */
  datatype Tally = CategorySpend | DailySpend | CategoryCount

  function KeyOf(t: Tally, it: Item): string
  {
    match t
    case CategorySpend => it.category
    case DailySpend => it.dateAdded
    case CategoryCount => it.category
  }

  function AmountOf(t: Tally, it: Item): int
  {
    match t
    case CategorySpend => LineTotal(it)
    case DailySpend => LineTotal(it)
    case CategoryCount => 1
  }

  /** The dictionary a rollup loop has built after visiting `items` in order. */
  function Accumulate(items: seq<Item>, t: Tally): (d: Dict)
    ensures |d| <= |items|
  {
    if items == [] then []
    else
      var last := items[|items| - 1];
      Bump(Accumulate(items[..|items| - 1], t), KeyOf(t, last), AmountOf(t, last))
  }

  /** Reference definition: the amount a rollup should hold under key `k`. */
  function SumWhere(items: seq<Item>, t: Tally, k: string): int
  {
    if items == [] then 0
    else
      var last := items[|items| - 1];
      SumWhere(items[..|items| - 1], t, k) + (if KeyOf(t, last) == k then AmountOf(t, last) else 0)
  }

  /** Reference definition: the sum of every amount the rollup adds. */
  function SumAll(items: seq<Item>, t: Tally): int
  {
    if items == [] then 0
    else SumAll(items[..|items| - 1], t) + AmountOf(t, items[|items| - 1])
  }

  /** The value under each key is the sum of the amounts of the items with that key (0 when absent). */
  lemma {:induction false} AccumulateGet(items: seq<Item>, t: Tally, k: string)
    ensures Get(Accumulate(items, t), k, 0) == SumWhere(items, t, k)
  {
    if items != [] {
      var prefix, last := items[..|items| - 1], items[|items| - 1];
      AccumulateGet(prefix, t, k);
      GetBump(Accumulate(prefix, t), KeyOf(t, last), AmountOf(t, last), k, 0);
    }
  }

  /** No key appears twice in a rollup. */
  lemma {:induction false} AccumulateDistinct(items: seq<Item>, t: Tally)
    ensures DistinctKeys(Accumulate(items, t))
  {
    if items != [] {
      AccumulateDistinct(items[..|items| - 1], t);
    }
  }

  /** Some item of `items` has key `k` under the tally `t`, decided item by item from the end. */
  predicate HasKey(items: seq<Item>, t: Tally, k: string)
  {
    items != [] && (HasKey(items[..|items| - 1], t, k) || KeyOf(t, items[|items| - 1]) == k)
  }

  lemma {:induction false} HasKeyExists(items: seq<Item>, t: Tally, k: string)
    ensures HasKey(items, t, k) <==> exists i :: 0 <= i < |items| && KeyOf(t, items[i]) == k
  {
    if items != [] {
      var prefix, last := items[..|items| - 1], items[|items| - 1];
      HasKeyExists(prefix, t, k);
      if HasKey(prefix, t, k) {
        var i :| 0 <= i < |prefix| && KeyOf(t, prefix[i]) == k;
        assert items[i] == prefix[i];
      } else if KeyOf(t, last) != k {
        forall i | 0 <= i < |items|
          ensures KeyOf(t, items[i]) != k
        {
          if i < |prefix| {
            assert items[i] == prefix[i];
          }
        }
      }
    }
  }

  lemma {:induction false} AccumulateHasKey(items: seq<Item>, t: Tally, k: string)
    ensures k in Keys(Accumulate(items, t)) <==> HasKey(items, t, k)
  {
    if items != [] {
      var prefix, last := items[..|items| - 1], items[|items| - 1];
      AccumulateHasKey(prefix, t, k);
      KeysOfBump(Accumulate(prefix, t), KeyOf(t, last), AmountOf(t, last), k);
    }
  }

  /** A key appears in a rollup iff some item has it. */
  lemma AccumulateKeys(items: seq<Item>, t: Tally, k: string)
    ensures k in Keys(Accumulate(items, t)) <==> exists i :: 0 <= i < |items| && KeyOf(t, items[i]) == k
  {
    AccumulateHasKey(items, t, k);
    HasKeyExists(items, t, k);
  }

  /** Some item has key `a`, and no item up to and including it has key `b`. */
  predicate FirstBefore(items: seq<Item>, t: Tally, a: string, b: string)
  {
    exists i :: 0 <= i < |items| && KeyOf(t, items[i]) == a && forall j :: 0 <= j <= i ==> KeyOf(t, items[j]) != b
  }

  /**
   * A rollup lists its keys in the order of their first appearance among the
   * items: the key of an earlier slot shows up before the key of any later one.
   */
  lemma {:induction false} AccumulateOrder(items: seq<Item>, t: Tally, p: nat, q: nat)
    requires p < q < |Accumulate(items, t)|
    ensures FirstBefore(items, t, Accumulate(items, t)[p].key, Accumulate(items, t)[q].key)
  {
    var prefix, last := items[..|items| - 1], items[|items| - 1];
    var key := KeyOf(t, last);
    var d := Accumulate(prefix, t);
    assert Accumulate(items, t) == Bump(d, key, AmountOf(t, last));
    BumpKeyAt(d, key, AmountOf(t, last), p);
    BumpKeyAt(d, key, AmountOf(t, last), q);
    if q < |d| {
      AccumulateOrder(prefix, t, p, q);
      FirstBeforeGrows(items, t, d[p].key, d[q].key);
    } else {
      assert d[p].key in Keys(d) by {
        assert Keys(d)[p] == d[p].key;
      }
      AccumulateKeys(prefix, t, d[p].key);
      AccumulateKeys(prefix, t, key);
      var i :| 0 <= i < |prefix| && KeyOf(t, prefix[i]) == d[p].key;
      assert items[i] == prefix[i];
      forall j | 0 <= j <= i
        ensures KeyOf(t, items[j]) != key
      {
        assert items[j] == prefix[j];
      }
    }
  }

  /** What holds of the items before the last one holds of them all. */
  lemma FirstBeforeGrows(items: seq<Item>, t: Tally, a: string, b: string)
    requires items != [] && FirstBefore(items[..|items| - 1], t, a, b)
    ensures FirstBefore(items, t, a, b)
  {
    var prefix := items[..|items| - 1];
    var i :| 0 <= i < |prefix| && KeyOf(t, prefix[i]) == a
      && forall j :: 0 <= j <= i ==> KeyOf(t, prefix[j]) != b;
    assert forall j :: 0 <= j <= i ==> items[j] == prefix[j];
  }

  /** The values of a rollup add up to the sum of all the amounts it was given. */
  lemma {:induction false} AccumulateSum(items: seq<Item>, t: Tally)
    ensures Sum(Accumulate(items, t)) == SumAll(items, t)
  {
    if items != [] {
      var prefix, last := items[..|items| - 1], items[|items| - 1];
      AccumulateSum(prefix, t);
      BumpSum(Accumulate(prefix, t), KeyOf(t, last), AmountOf(t, last));
    }
  }

  /** Spending amounts summed over everything are the total spent; counts summed are the number of items. */
  lemma {:induction false} SumAllIs(items: seq<Item>)
    ensures SumAll(items, CategorySpend) == TotalSpent(items)
    ensures SumAll(items, DailySpend) == TotalSpent(items)
    ensures SumAll(items, CategoryCount) == |items|
  {
    if items != [] {
      SumAllIs(items[..|items| - 1]);
    }
  }

  /** A category no item has gets 0 from the rollup. */
  lemma {:induction false} SumWhereAbsent(items: seq<Item>, t: Tally, k: string)
    requires forall i :: 0 <= i < |items| ==> KeyOf(t, items[i]) != k
    ensures SumWhere(items, t, k) == 0
  {
    if items != [] {
      SumWhereAbsent(items[..|items| - 1], t, k);
    }
  }

  /** total spent equals the sum of the per-category totals. */
  lemma CategoryTotalsAddUp(items: seq<Item>)
    ensures Sum(Accumulate(items, CategorySpend)) == TotalSpent(items)
  {
    AccumulateSum(items, CategorySpend);
    SumAllIs(items);
  }

  /** The loop shared by the three rollups: one dictionary update per item, in list order. */
  method Tabulate(items: seq<Item>, t: Tally) returns (d: Dict)
    ensures d == Accumulate(items, t)
  {
    d := [];
    var i := 0;
    while i < |items|
      invariant 0 <= i <= |items|
      invariant d == Accumulate(items[..i], t)
    {
      assert items[..i + 1][..i] == items[..i];
      d := Bump(d, KeyOf(t, items[i]), AmountOf(t, items[i]));
      i := i + 1;
    }
    assert items[..i] == items;
  }

  /** get_spending_by_category. */
  method SpendingByCategory(items: seq<Item>) returns (d: Dict)
    ensures d == Accumulate(items, CategorySpend)
    ensures DistinctKeys(d)
    ensures forall c :: Get(d, c, 0) == SumWhere(items, CategorySpend, c)
    ensures forall c :: c in Keys(d) <==> exists i :: 0 <= i < |items| && items[i].category == c
    ensures Sum(d) == TotalSpent(items)
  {
    d := Tabulate(items, CategorySpend);
    forall c ensures Get(d, c, 0) == SumWhere(items, CategorySpend, c)
      && (c in Keys(d) <==> exists i :: 0 <= i < |items| && items[i].category == c) {
      AccumulateGet(items, CategorySpend, c);
      AccumulateKeys(items, CategorySpend, c);
    }
    AccumulateDistinct(items, CategorySpend);
    CategoryTotalsAddUp(items);
  }

  /** The daily-spending dictionary of the analytics page, keyed by date added. */
  method DailySpending(items: seq<Item>) returns (d: Dict)
    ensures d == Accumulate(items, DailySpend)
    ensures DistinctKeys(d)
    ensures forall day :: Get(d, day, 0) == SumWhere(items, DailySpend, day)
    ensures forall day :: day in Keys(d) <==> exists i :: 0 <= i < |items| && items[i].dateAdded == day
    ensures Sum(d) == TotalSpent(items)
  {
    d := Tabulate(items, DailySpend);
    forall day ensures Get(d, day, 0) == SumWhere(items, DailySpend, day)
      && (day in Keys(d) <==> exists i :: 0 <= i < |items| && items[i].dateAdded == day) {
      AccumulateGet(items, DailySpend, day);
      AccumulateKeys(items, DailySpend, day);
    }
    AccumulateDistinct(items, DailySpend);
    AccumulateSum(items, DailySpend);
    SumAllIs(items);
  }

  /** The category-frequency dictionary of the analytics page: items per category. */
  method CategoryFrequency(items: seq<Item>) returns (d: Dict)
    ensures d == Accumulate(items, CategoryCount)
    ensures DistinctKeys(d)
    ensures forall c :: Get(d, c, 0) == SumWhere(items, CategoryCount, c)
    ensures forall c :: c in Keys(d) <==> exists i :: 0 <= i < |items| && items[i].category == c
    ensures Sum(d) == |items|
  {
    d := Tabulate(items, CategoryCount);
    forall c ensures Get(d, c, 0) == SumWhere(items, CategoryCount, c)
      && (c in Keys(d) <==> exists i :: 0 <= i < |items| && items[i].category == c) {
      AccumulateGet(items, CategoryCount, c);
      AccumulateKeys(items, CategoryCount, c);
    }
    AccumulateDistinct(items, CategoryCount);
    AccumulateSum(items, CategoryCount);
    SumAllIs(items);
  }

  /** One row of the budget-vs-actual table. */
  datatype Comparison = Comparison(category: string, budgeted: int, actual: int, remaining: int)

  /** The budget entries of one month, in entry order. */
  function FilterMonth(budgets: seq<BudgetEntry>, month: string): seq<BudgetEntry>
  {
    if budgets == [] then []
    else
      var last := budgets[|budgets| - 1];
      FilterMonth(budgets[..|budgets| - 1], month) + (if last.month == month then [last] else [])
  }

  /** The row get_budget_vs_actual builds for one entry, given the category rollup. */
  function CompareEntry(e: BudgetEntry, spending: Dict): (row: Comparison)
    ensures row.category == e.category && row.budgeted == e.allocatedAmount
    ensures row.remaining == row.budgeted - row.actual
    ensures e.category !in Keys(spending) ==> row.actual == 0
  {
    var actual := Get(spending, e.category, 0);
    Comparison(e.category, e.allocatedAmount, actual, e.allocatedAmount - actual)
  }

  /** The rows get_budget_vs_actual has built after visiting `budgets` in order. */
  function Reconcile(budgets: seq<BudgetEntry>, spending: Dict, month: string): (rows: seq<Comparison>)
    ensures |rows| <= |budgets|
  {
    if budgets == [] then []
    else
      var last := budgets[|budgets| - 1];
      Reconcile(budgets[..|budgets| - 1], spending, month)
        + (if last.month == month then [CompareEntry(last, spending)] else [])
  }

  /** Exactly the entries of the given month are kept, and only they. */
  lemma {:induction false} FilterMonthMembers(budgets: seq<BudgetEntry>, month: string)
    ensures forall e :: e in FilterMonth(budgets, month) <==> e in budgets && e.month == month
    ensures |FilterMonth(budgets, month)| <= |budgets|
  {
    if budgets != [] {
      var prefix := budgets[..|budgets| - 1];
      FilterMonthMembers(prefix, month);
      assert budgets == prefix + [budgets[|budgets| - 1]];
    }
  }

  /** One row per entry of the month, in entry order, built from that entry. */
  lemma {:induction false} ReconcileRows(budgets: seq<BudgetEntry>, spending: Dict, month: string)
    ensures |Reconcile(budgets, spending, month)| == |FilterMonth(budgets, month)|
    ensures forall k :: 0 <= k < |FilterMonth(budgets, month)| ==>
      Reconcile(budgets, spending, month)[k] == CompareEntry(FilterMonth(budgets, month)[k], spending)
  {
    if budgets != [] {
      ReconcileRows(budgets[..|budgets| - 1], spending, month);
    }
  }

  /** What each row of the month's comparison says about the ledger. */
  lemma ReconcileMeaning(items: seq<Item>, budgets: seq<BudgetEntry>, month: string)
    ensures |Reconcile(budgets, Accumulate(items, CategorySpend), month)| == |FilterMonth(budgets, month)|
    ensures forall k :: 0 <= k < |FilterMonth(budgets, month)| ==>
      var e, row := FilterMonth(budgets, month)[k], Reconcile(budgets, Accumulate(items, CategorySpend), month)[k];
      && e in budgets && e.month == month
      && row.category == e.category
      && row.budgeted == e.allocatedAmount
      && row.actual == SumWhere(items, CategorySpend, e.category)
      && row.remaining == row.budgeted - row.actual
  {
    var spending := Accumulate(items, CategorySpend);
    var f := FilterMonth(budgets, month);
    ReconcileRows(budgets, spending, month);
    FilterMonthMembers(budgets, month);
    forall k | 0 <= k < |f|
      ensures f[k] in budgets && f[k].month == month
      ensures Get(spending, f[k].category, 0) == SumWhere(items, CategorySpend, f[k].category)
    {
      assert f[k] in f;
      AccumulateGet(items, CategorySpend, f[k].category);
    }
  }

  /** Visiting one more entry appends its row when it belongs to the month. */
  lemma ReconcileStep(budgets: seq<BudgetEntry>, spending: Dict, month: string, i: nat)
    requires i < |budgets|
    ensures Reconcile(budgets[..i + 1], spending, month)
      == Reconcile(budgets[..i], spending, month) + (if budgets[i].month == month then [CompareEntry(budgets[i], spending)] else [])
  {
    assert budgets[..i + 1][..i] == budgets[..i];
  }

  /** The loop of get_budget_vs_actual over the budget entries, given the category rollup. */
  method CompareMonth(budgets: seq<BudgetEntry>, spending: Dict, currentMonth: string)
    returns (rows: seq<Comparison>)
    ensures rows == Reconcile(budgets, spending, currentMonth)
  {
    rows := [];
    var i := 0;
    while i < |budgets|
      invariant 0 <= i <= |budgets|
      invariant rows == Reconcile(budgets[..i], spending, currentMonth)
    {
      ReconcileStep(budgets, spending, currentMonth, i);
      var entry := budgets[i];
      if entry.month == currentMonth {
        var actualSpent := Get(spending, entry.category, 0);
        rows := rows + [Comparison(entry.category, entry.allocatedAmount, actualSpent, entry.allocatedAmount - actualSpent)];
      }
      i := i + 1;
    }
    assert budgets[..i] == budgets;
  }

  /** get_budget_vs_actual for the month `currentMonth`. */
  method BudgetVsActual(items: seq<Item>, budgets: seq<BudgetEntry>, currentMonth: string)
    returns (rows: seq<Comparison>)
    ensures rows == Reconcile(budgets, Accumulate(items, CategorySpend), currentMonth)
    ensures |rows| == |FilterMonth(budgets, currentMonth)|
    ensures forall k :: 0 <= k < |rows| ==>
      var e := FilterMonth(budgets, currentMonth)[k];
      && e in budgets && e.month == currentMonth
      && rows[k].category == e.category
      && rows[k].budgeted == e.allocatedAmount
      && rows[k].actual == SumWhere(items, CategorySpend, e.category)
      && rows[k].remaining == rows[k].budgeted - rows[k].actual
  {
    var spending := Tabulate(items, CategorySpend);
    rows := CompareMonth(budgets, spending, currentMonth);
    ReconcileMeaning(items, budgets, currentMonth);
  }
}
