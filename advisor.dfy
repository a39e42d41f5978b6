/**
 * The rule set of show_recommendations in app.py: budget warnings for the
 * current month's comparison rows, the largest-category insight with its
 * diversification advice above 40%, expiry alerts within seven days, and the
 * seasonal tip for the current calendar month.
 */
module Advisor {
  import opened Wrappers
  import opened Ledger
  import opened Assoc
  import opened Aggregation

  // ---- budget warnings ---------------------------------------------------

  datatype BudgetAdvice =
    | OverBudget(category: string, overage: int)      // `remaining < 0`
    | NearLimit(category: string, remaining: int)     // `remaining < budgeted * 0.1`

  /** The if/elif applied to each comparison row; amounts in cents, so `r < b * 0.1` is `10 * r < b`. */
  function RowAdvice(row: Comparison): (a: Option<BudgetAdvice>)
    ensures a.Some? ==> a.value.category == row.category
    ensures (a.Some? && a.value.OverBudget?) <==> row.remaining < 0
    ensures a.Some? && a.value.OverBudget? ==> a.value.overage == -row.remaining
    ensures (a.Some? && a.value.NearLimit?) <==> 0 <= row.remaining && 10 * row.remaining < row.budgeted
    ensures a.Some? && a.value.NearLimit? ==> a.value.remaining == row.remaining
  {
    if row.remaining < 0 then Some(OverBudget(row.category, -row.remaining))
    else if 10 * row.remaining < row.budgeted then Some(NearLimit(row.category, row.remaining))
    else None
  }

  /** The warnings shown for the rows, in row order. */
  function BudgetAdvisories(rows: seq<Comparison>): (r: seq<BudgetAdvice>)
    ensures |r| <= |rows|
  {
    if rows == [] then []
    else
      var last := rows[|rows| - 1];
      BudgetAdvisories(rows[..|rows| - 1]) + (if RowAdvice(last).Some? then [RowAdvice(last).value] else [])
  }

  /** A warning is shown exactly for the rows whose advice fires, and at most one per row. */
  lemma {:induction false} BudgetAdvisoriesMembers(rows: seq<Comparison>)
    ensures |BudgetAdvisories(rows)| <= |rows|
    ensures forall a :: a in BudgetAdvisories(rows) <==> exists k :: 0 <= k < |rows| && RowAdvice(rows[k]) == Some(a)
  {
    if rows != [] {
      var prefix := rows[..|rows| - 1];
      var last := rows[|rows| - 1];
      var tail := if RowAdvice(last).Some? then [RowAdvice(last).value] else [];
      assert BudgetAdvisories(rows) == BudgetAdvisories(prefix) + tail;
      BudgetAdvisoriesMembers(prefix);
      forall a ensures a in BudgetAdvisories(rows) <==> exists k :: 0 <= k < |rows| && RowAdvice(rows[k]) == Some(a) {
        if exists k :: 0 <= k < |rows| && RowAdvice(rows[k]) == Some(a) {
          var k :| 0 <= k < |rows| && RowAdvice(rows[k]) == Some(a);
          if k < |prefix| {
            assert RowAdvice(prefix[k]) == Some(a);
          } else {
            assert a in tail;
          }
        }
        if a in BudgetAdvisories(prefix) {
          var k :| 0 <= k < |prefix| && RowAdvice(prefix[k]) == Some(a);
          assert rows[k] == prefix[k];
        }
      }
    }
  }

  // ---- largest category --------------------------------------------------

  /** `max(d, key=d.get)`: the slot of the first largest value, as Python's max keeps the first. */
  function LargestSlot(d: Dict): (i: nat)
    requires d != []
    ensures i < |d|
    ensures forall j :: 0 <= j < |d| ==> d[j].val <= d[i].val
    ensures forall j :: 0 <= j < i ==> d[j].val < d[i].val
  {
    if |d| == 1 then 0
    else
      var m := LargestSlot(d[..|d| - 1]);
      if d[|d| - 1].val > d[m].val then |d| - 1 else m
  }

  /** The largest-category insight and whether its share exceeds 40% of the total. */
  datatype Insight = Insight(category: string, amount: int, diversify: bool)

  lemma {:induction false} SumOfEmpty(d: Dict)
    requires Sum(d) != 0
    ensures d != []
  {
  }

  /** Shown only when `sum(d.values()) > 0`; `share > 40` is compared exactly as `100 * amount > 40 * total`. */
  function SpendingInsight(spending: Dict): (r: Option<Insight>)
    ensures r.Some? <==> Sum(spending) > 0
    ensures r.Some? ==> (r.value.diversify <==> 100 * r.value.amount > 40 * Sum(spending))
    ensures r.Some? ==>
      exists i :: (0 <= i < |spending|
        && spending[i].key == r.value.category && spending[i].val == r.value.amount
        && (forall j :: 0 <= j < |spending| ==> spending[j].val <= spending[i].val)
        && (forall j :: 0 <= j < i ==> spending[j].val < spending[i].val))
  {
    var total := Sum(spending);
    if total > 0 then
      SumOfEmpty(spending);
      var i := LargestSlot(spending);
      Some(Insight(spending[i].key, spending[i].val, 100 * spending[i].val > 40 * total))
    else None
  }

  /** In a dictionary with distinct keys, looking a slot's key up gives that slot's value. */
  lemma GetSlot(d: Dict, i: nat)
    requires DistinctKeys(d) && i < |d|
    ensures Get(d, d[i].key, 0) == d[i].val
  {
    assert Find(d, d[i].key) == i;
  }

  /**
   * On the category rollup of a ledger: the insight appears iff something was
   * spent, and the diversification advice fires iff the named category's
   * total exceeds 40% of the total spent.
   */
  lemma DominantCategoryShown(items: seq<Item>)
    ensures SpendingInsight(Accumulate(items, CategorySpend)).Some? <==> TotalSpent(items) > 0
    ensures var r := SpendingInsight(Accumulate(items, CategorySpend));
      r.Some? ==>
        && r.value.amount == SumWhere(items, CategorySpend, r.value.category)
        && (r.value.diversify <==> 100 * r.value.amount > 40 * TotalSpent(items))
  {
    var d := Accumulate(items, CategorySpend);
    CategoryTotalsAddUp(items);
    var r := SpendingInsight(d);
    if r.Some? {
      var i :| 0 <= i < |d| && d[i].key == r.value.category && d[i].val == r.value.amount;
      AccumulateDistinct(items, CategorySpend);
      GetSlot(d, i);
      AccumulateGet(items, CategorySpend, r.value.category);
    }
  }

  /** The insight names a key of the dictionary, and no value exceeds its amount. */
  lemma InsightIsMaximal(d: Dict)
    requires SpendingInsight(d).Some?
    ensures SpendingInsight(d).value.category in Keys(d)
    ensures forall j :: 0 <= j < |d| ==> d[j].val <= SpendingInsight(d).value.amount
  {
    var r := SpendingInsight(d);
    var i :| 0 <= i < |d| && d[i].key == r.value.category && d[i].val == r.value.amount
      && (forall j :: 0 <= j < |d| ==> d[j].val <= d[i].val);
    assert Keys(d)[i] == d[i].key;
  }

  /** A bought category's total is bounded by any bound on the rollup's values. */
  lemma CategoryTotalBounded(items: seq<Item>, x: nat, bound: int)
    requires x < |items|
    requires forall j :: 0 <= j < |Accumulate(items, CategorySpend)| ==> Accumulate(items, CategorySpend)[j].val <= bound
    ensures SumWhere(items, CategorySpend, items[x].category) <= bound
  {
    var d := Accumulate(items, CategorySpend);
    var c := items[x].category;
    AccumulateKeys(items, CategorySpend, c);
    AccumulateGet(items, CategorySpend, c);
    AccumulateDistinct(items, CategorySpend);
    GetSlot(d, Find(d, c));
  }

  /**
   * The category the insight names was bought, and its total is at least the
   * total of every category bought.
   */
  lemma DominantCategoryIsLargest(items: seq<Item>)
    ensures var r := SpendingInsight(Accumulate(items, CategorySpend));
      r.Some? ==>
        && (exists i :: 0 <= i < |items| && items[i].category == r.value.category)
        && (forall i :: 0 <= i < |items| ==> SumWhere(items, CategorySpend, items[i].category) <= r.value.amount)
  {
    var d := Accumulate(items, CategorySpend);
    var r := SpendingInsight(d);
    if r.Some? {
      InsightIsMaximal(d);
      AccumulateKeys(items, CategorySpend, r.value.category);
      forall x | 0 <= x < |items|
        ensures SumWhere(items, CategorySpend, items[x].category) <= r.value.amount
      {
        CategoryTotalBounded(items, x, r.value.amount);
      }
    }
  }

  // ---- expiry alerts -----------------------------------------------------

  datatype ExpiryClass = Expired | ExpiresToday | ExpiringSoon

  /** How an alert is worded from `days = (expiry - today).days`. */
  function Classify(days: int): (c: ExpiryClass)
    ensures c == Expired <==> days < 0
    ensures c == ExpiresToday <==> days == 0
    ensures c == ExpiringSoon <==> days > 0
  {
    if days < 0 then Expired else if days == 0 then ExpiresToday else ExpiringSoon
  }

  datatype Alert = Alert(item: Item, days: int)

  /** The `expiring_soon` list after visiting `items` in order. */
  function ExpiryAlerts(items: seq<Item>, today: Day): (r: seq<Alert>)
    ensures |r| <= |items|
  {
    if items == [] then []
    else
      var last := items[|items| - 1];
      ExpiryAlerts(items[..|items| - 1], today)
        + (if last.expiryDate.Some? && last.expiryDate.value - today <= 7
           then [Alert(last, last.expiryDate.value - today)] else [])
  }

  /** An alert is listed exactly for each item with an expiry date at most seven days ahead. */
  lemma {:induction false} ExpiryAlertsMembers(items: seq<Item>, today: Day)
    ensures |ExpiryAlerts(items, today)| <= |items|
    ensures forall a :: a in ExpiryAlerts(items, today) <==>
      a.item in items && a.item.expiryDate.Some? && a.days == a.item.expiryDate.value - today && a.days <= 7
  {
    if items != [] {
      var prefix := items[..|items| - 1];
      ExpiryAlertsMembers(prefix, today);
      assert items == prefix + [items[|items| - 1]];
    }
  }

  /** The loop of show_recommendations that collects the items expiring within a week. */
  method CollectExpiring(items: seq<Item>, today: Day) returns (alerts: seq<Alert>)
    ensures alerts == ExpiryAlerts(items, today)
    ensures forall a :: a in alerts <==>
      a.item in items && a.item.expiryDate.Some? && a.days == a.item.expiryDate.value - today && a.days <= 7
  {
    alerts := [];
    var i := 0;
    while i < |items|
      invariant 0 <= i <= |items|
      invariant alerts == ExpiryAlerts(items[..i], today)
    {
      assert items[..i + 1][..i] == items[..i];
      var item := items[i];
      if item.expiryDate.Some? {
        var daysUntilExpiry := item.expiryDate.value - today;
        if daysUntilExpiry <= 7 {
          alerts := alerts + [Alert(item, daysUntilExpiry)];
        }
      }
      i := i + 1;
    }
    assert items[..i] == items;
    ExpiryAlertsMembers(items, today);
  }

  // ---- seasonal tip ------------------------------------------------------

  const WinterRootsTip := "Winter produce: Root vegetables, citrus fruits, and hearty greens are in season and typically cheaper."
  const DefaultSeasonalTip := "Check what's in season for better prices!"

  const SeasonalTips: map<int, string> := map[
    1 := WinterRootsTip,
    2 := WinterRootsTip,
    3 := "Spring produce: Asparagus, artichokes, and spring onions are coming into season.",
    4 := "Spring produce: Fresh herbs, lettuce, and early berries are at their best.",
    5 := "Spring to summer: Strawberries, rhubarb, and spring vegetables are in peak season.",
    6 := "Summer produce: Berries, stone fruits, and summer squash are in season and affordable.",
    7 := "Peak summer: Tomatoes, corn, and summer fruits are at their best and cheapest.",
    8 := "Late summer: Peaches, plums, and summer vegetables are still in season.",
    9 := "Fall harvest: Apples, pears, and root vegetables are coming into season.",
    10 := "Fall produce: Pumpkins, squash, and late-season fruits are at their peak.",
    11 := "Late fall: Cranberries, sweet potatoes, and winter squash are in season.",
    12 := "Winter produce: Citrus fruits and hearty vegetables are in peak season."
  ]

  /** `seasonal_tips.get(current_month, default)`. */
  function SeasonalTip(month: int): (tip: string)
    ensures (1 <= month <= 12) <==> tip != DefaultSeasonalTip
    ensures month == 1 || month == 2 ==> tip == WinterRootsTip
    ensures 3 <= month <= 12 ==> tip != WinterRootsTip
  {
    if month in SeasonalTips then SeasonalTips[month] else DefaultSeasonalTip
  }

  /** Every month has its own tip, except that January and February share one. */
  lemma SeasonalTipsDistinct(a: int, b: int)
    requires 1 <= a <= 12 && 1 <= b <= 12 && a != b
    requires !(a <= 2 && b <= 2)
    ensures SeasonalTip(a) != SeasonalTip(b)
  {
  }
}
