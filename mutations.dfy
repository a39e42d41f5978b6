/**
 * The three ledger mutations of app.py on the session's lists: adding an item
 * (add_grocery_item), removing an item with `list.remove` (show_grocery_list)
 * and the set-budget upsert keyed by (category, month) (budget_manager).
 * The session class applies them; this module holds their definitions.
 */
module Mutations {
  import opened Wrappers
  import opened Ledger
  import opened Feedback

  /** The add-item guard: `name and category and price and quantity`. */
  function AddItemStatus(name: string, category: string, price: int, quantity: int): (st: Status)
    ensures st == Ok || st == MissingFields
    ensures st == Ok <==> name != [] && category != [] && price != 0 && quantity != 0
  {
    if name != [] && category != [] && price != 0 && quantity != 0 then Ok else MissingFields
  }

  /** The record add_grocery_item appends; an empty brand is stored as None. */
  function NewItem(name: string, category: string, price: int, quantity: int, unit: string,
                   brand: string, expiryDate: Option<Day>, today: string): (it: Item)
    ensures it.name == name && it.category == category && it.unit == unit
    ensures it.price == price && it.quantity == quantity && LineTotal(it) == price * quantity
    ensures it.dateAdded == today && it.expiryDate == expiryDate
    ensures it.brand == None <==> brand == []
    ensures brand != [] ==> it.brand == Some(brand)
  {
    Item(name, category, price, quantity, unit, today, expiryDate, if brand != [] then Some(brand) else None)
  }

  // ---- remove item -------------------------------------------------------

  /** Reference definition of `list.remove(x)`: drop the first element equal to `x`. */
  function RemoveFirst(s: seq<Item>, x: Item): (r: seq<Item>)
    ensures |r| == if x in s then |s| - 1 else |s|
    ensures x !in s ==> r == s
  {
    if s == [] then []
    else if s[0] == x then s[1..]
    else [s[0]] + RemoveFirst(s[1..], x)
  }

  /** The search `list.remove` makes: the first position holding a record equal to `x`, or -1. */
  method IndexOf(s: seq<Item>, x: Item) returns (i: int)
    ensures -1 <= i < |s|
    ensures i >= 0 ==> s[i] == x && forall j :: 0 <= j < i ==> s[j] != x
    ensures i < 0 <==> x !in s
  {
    i := 0;
    while i < |s|
      invariant 0 <= i <= |s|
      invariant forall j :: 0 <= j < i ==> s[j] != x
    {
      if s[i] == x {
        return;
      }
      i := i + 1;
    }
    i := -1;
  }

  /** Removing the first occurrence is cutting it out at its position. */
  lemma {:induction false} RemoveFirstAt(s: seq<Item>, x: Item, i: nat)
    requires i < |s| && s[i] == x && forall j :: 0 <= j < i ==> s[j] != x
    ensures RemoveFirst(s, x) == s[..i] + s[i + 1..]
  {
    if i > 0 {
      RemoveFirstAt(s[1..], x, i - 1);
      assert s[1..][..i - 1] == s[1..i];
      assert s[1..][i..] == s[i + 1..];
    }
  }

  /** Exactly one occurrence of `x` goes, when there is one; nothing else changes. */
  lemma {:induction false} RemoveFirstCount(s: seq<Item>, x: Item)
    ensures multiset(RemoveFirst(s, x)) == multiset(s) - multiset{x}
    ensures x in s ==> |RemoveFirst(s, x)| == |s| - 1
    ensures x !in s ==> RemoveFirst(s, x) == s
  {
    if s != [] {
      assert s == [s[0]] + s[1..];
      if s[0] != x {
        RemoveFirstCount(s[1..], x);
      }
    }
  }

  // ---- set budget --------------------------------------------------------

  predicate SameKey(a: BudgetEntry, b: BudgetEntry)
  {
    a.category == b.category && a.month == b.month
  }

  /** The budget record the set-budget form builds; `spent_amount` is always 0. */
  function NewBudget(category: string, allocatedAmount: int, month: string): (e: BudgetEntry)
    ensures e.category == category && e.month == month && e.allocatedAmount == allocatedAmount
  {
    BudgetEntry(category, allocatedAmount, 0, month)
  }

  /** No two entries share a (category, month) key. */
  predicate UniqueKeys(b: seq<BudgetEntry>)
  {
    forall i, j :: 0 <= i < j < |b| ==> !SameKey(b[i], b[j])
  }

  /** Reference definition of the upsert: replace the first entry with `e`'s key, or append `e`. */
  function Upsert(b: seq<BudgetEntry>, e: BudgetEntry): (r: seq<BudgetEntry>)
    ensures e in r
    ensures |r| == |b| || |r| == |b| + 1
    ensures |r| == |b| <==> exists i :: 0 <= i < |b| && SameKey(b[i], e)
  {
    if b == [] then [e]
    else if SameKey(b[0], e) then [e] + b[1..]
    else [b[0]] + Upsert(b[1..], e)
  }

  /** The loop of budget_manager: the first entry with the given category and month, or -1. */
  method FindBudget(b: seq<BudgetEntry>, category: string, month: string) returns (i: int)
    ensures -1 <= i < |b|
    ensures i >= 0 ==> b[i].category == category && b[i].month == month
    ensures i >= 0 ==> forall j :: 0 <= j < i ==> !(b[j].category == category && b[j].month == month)
    ensures i < 0 ==> forall j :: 0 <= j < |b| ==> !(b[j].category == category && b[j].month == month)
  {
    i := 0;
    while i < |b|
      invariant 0 <= i <= |b|
      invariant forall j :: 0 <= j < i ==> !(b[j].category == category && b[j].month == month)
    {
      if b[i].category == category && b[i].month == month {
        return;
      }
      i := i + 1;
    }
    i := -1;
  }

  /** With a matching entry, the first one is replaced in place and the length is unchanged. */
  lemma {:induction false} UpsertReplaces(b: seq<BudgetEntry>, e: BudgetEntry, i: nat)
    requires i < |b| && SameKey(b[i], e) && forall j :: 0 <= j < i ==> !SameKey(b[j], e)
    ensures Upsert(b, e) == b[i := e]
  {
    if i > 0 {
      UpsertReplaces(b[1..], e, i - 1);
      assert b[i := e] == [b[0]] + b[1..][i - 1 := e];
    }
  }

  /** Without a matching entry, exactly one entry is appended. */
  lemma {:induction false} UpsertAppends(b: seq<BudgetEntry>, e: BudgetEntry)
    requires forall j :: 0 <= j < |b| ==> !SameKey(b[j], e)
    ensures Upsert(b, e) == b + [e]
  {
    if b != [] {
      UpsertAppends(b[1..], e);
      assert b == [b[0]] + b[1..];
    }
  }

  /** Keys that were unique stay unique, and afterwards the key has exactly the new entry. */
  lemma {:induction false} UpsertKeepsKeysUnique(b: seq<BudgetEntry>, e: BudgetEntry)
    requires UniqueKeys(b)
    ensures UniqueKeys(Upsert(b, e))
    ensures e in Upsert(b, e)
    ensures forall j :: 0 <= j < |Upsert(b, e)| && SameKey(Upsert(b, e)[j], e) ==> Upsert(b, e)[j] == e
  {
    if exists i :: 0 <= i < |b| && SameKey(b[i], e) {
      var i :| 0 <= i < |b| && SameKey(b[i], e);
      assert forall j :: 0 <= j < i ==> !SameKey(b[j], e) by {
        forall j | 0 <= j < i ensures !SameKey(b[j], e) {
          assert !SameKey(b[j], b[i]);
        }
      }
      UpsertReplaces(b, e, i);
      var r := b[i := e];
      assert r[i] == e;
      forall p, q | 0 <= p < q < |r| ensures !SameKey(r[p], r[q]) {
        if p != i && q != i {
          assert !SameKey(b[p], b[q]);
        } else if p == i {
          assert !SameKey(b[i], b[q]);
        } else {
          assert !SameKey(b[p], b[i]);
        }
      }
    } else {
      UpsertAppends(b, e);
      assert (b + [e])[|b|] == e;
    }
  }
}
