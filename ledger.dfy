/**
 * The records of one user's ledger: grocery purchases and monthly budget
 * entries (app.py, add_grocery_item and budget_manager). Money is held in
 * integer cents; calendar days used for expiry arithmetic are day numbers.
 */
module Ledger {
  import opened Wrappers

  /** A calendar day as a day number, so that `expiry - today` is the `.days` of a date difference. */
  type Day = int

  /** One grocery purchase, as appended by add_grocery_item. */
  datatype Item = Item(
    name: string,
    category: string,
    price: int,              // unit price in cents
    quantity: int,
    unit: string,
    dateAdded: string,       // "YYYY-MM-DD", the key of the daily-spending rollup
    expiryDate: Option<Day>,
    brand: Option<string>)

  /** One monthly allocation; `spentAmount` is written as 0 and never read. */
  datatype BudgetEntry = BudgetEntry(category: string, allocatedAmount: int, spentAmount: int, month: string)

  /** The pair of lists held in the session and persisted per user. */
  datatype Ledger = Ledger(items: seq<Item>, budgets: seq<BudgetEntry>)

  const EmptyLedger := Ledger([], [])

  /** `item['price'] * item['quantity']`. */
  function LineTotal(it: Item): int
  {
    it.price * it.quantity
  }

  /** calculate_total_spent: the sum of the line totals, accumulated left to right. */
  function TotalSpent(items: seq<Item>): (total: int)
    ensures (forall i :: 0 <= i < |items| ==> LineTotal(items[i]) >= 0) ==> total >= 0
    ensures items == [] ==> total == 0
  {
    if items == [] then 0
    else TotalSpent(items[..|items| - 1]) + LineTotal(items[|items| - 1])
  }

  /** Adding a purchase adds its line total to the total spent. */
  lemma {:induction false} TotalSpentAppend(items: seq<Item>, x: Item)
    ensures TotalSpent(items + [x]) == TotalSpent(items) + LineTotal(x)
  {
    assert (items + [x])[..|items|] == items;
  }
}
