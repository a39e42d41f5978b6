# Smart Grocery & Budget Assistant — a verified model of its core

The application (`app.py`, a Streamlit app) lets a user keep a ledger of
grocery purchases and monthly per-category budgets, and shows spending
rollups, a budget-vs-actual table and rule-based recommendations. Beneath its
pages sit three pieces of logic, which this Dafny project models and proves
properties of:

1. **Ledger aggregation and recommendation rules** — total spent, the
   per-category, per-day and per-category-count rollups, the budget-vs-actual
   rows of one month, the top-10 / top-5 "most expensive" lists (a stable
   descending sort), the over-budget and near-limit warnings, the
   largest-category insight with its 40% diversification advice, expiry
   alerts, and the seasonal tip (modules `Ledger`, `Assoc`, `Aggregation`,
   `Ranking`, `Advisor`).
2. **Ledger mutations** on the session's lists — add item, remove item
   (`list.remove`: the first equal record), and the set-budget upsert keyed by
   (category, month) — each followed by saving the whole ledger under the
   current user (module `Mutations`, applied by `App.Session`).
3. **The authentication/session state machine** — signup, login, the
   two-step password recovery, cancel/back buttons and logout, over the
   `users` map and the per-user ledger store (modules `Auth`, `App`).
   `Scenarios` drives a fresh session through whole command sequences
   (`ResetThenLogin`, `DuplicateSignup`, `LedgerRoundTrip`) and evaluates
   the ledger rules on small concrete inputs (`MilkBudget` on a one-record
   ledger, `DiversifyThreshold` on hand-written category totals,
   `ExpiryBoundaries` on items around the 7-day window).

Modelling choices:

- Money is in integer cents; a line total is `price * quantity`. Percentages
  are compared exactly: "share > 40%" is `100 * amount > 40 * total`, and
  "remaining < 10% of budgeted" is `10 * remaining < budgeted`.
- Python dictionaries keep insertion order, and `max(d, key=d.get)` returns
  the first largest key in that order, so a dictionary is a list of
  `(key, value)` slots (`Assoc.Dict`) with `get` and item assignment
  written out.
- The durable stores (`users.json` and the per-user grocery/budget files)
  are maps held by the session object: `users: map<string, Account>` and
  `store: map<string, Ledger>`. A user with no stored ledger loads as empty lists.
- The SHA-256 digest is the session's constant `hash: string -> string`, left
  uninterpreted; a proof that needs two passwords to hash differently assumes
  it of those two passwords.
- "Now" is passed in: `today` as a day number for expiry arithmetic, the
  date-added string, the current `YYYY-MM` month, the month number for the
  seasonal tip, and timestamp strings for account creation and reset.
- Each handler of the session runs only on the screen `main()` dispatches to
  (`CurrentScreen`), which is its precondition; `show_reset_form` is only
  ever cleared by the live code, so the session invariant says it is false.
- The model follows the code: `actual` in the budget-vs-actual rows is the
  category's total over all purchases (app.py:866,872; purchases are not
  filtered by month, only budget entries are); the add-item guard is the
  truthiness test of app.py:1154 (`name`, `category` non-empty, price and
  quantity non-zero); `spent_amount` is written as 0 into every budget entry
  (app.py:1273).
- The second definitions of `forgot_password_page` and
  `verify_and_reset_password` (app.py:485 and app.py:551) are the live ones;
  the earlier ones are overridden and not modelled.
- Removing "the clicked item" with `list.remove` (app.py:1233) deletes the
  first record equal to it, which need not be the clicked one: for `[x, y, x]`
  with the last `x` clicked, the result is `[y, x]`, not `[x, y]`. The
  multiset of records is the same either way, but the order of the remaining
  records can differ, and that order is observable (the insertion order of the
  category and daily rollups, the tie-break of `max`, the ties of the stable
  top-n lists; `Aggregation.AccumulateOrder` states the rollup order).
  `Mutations.RemoveFirstAt` and `Mutations.RemoveFirstCount`
  state exactly what the removal does.

## Model

| member | source | states |
|---|---|---|
| `Ledger.TotalSpent` | app.py:850-853 | the total of the line totals; 0 for no items; non-negative when every line is |
| `Ledger.TotalSpentAppend` | app.py:850-853 | adding one purchase adds exactly its line total to the total spent |
| `Assoc.Get` | app.py:861 | `d.get(k, default)`: the default when `k` is absent, otherwise the value of a slot holding `k` |
| `Assoc.Put` | app.py:861 | `d[k] = v`: an existing key keeps its position and a new one goes last, distinct keys stay distinct |
| `Assoc.GetPut` | app.py:861 | after `d[k] = v`, `k` maps to `v` and every other key keeps its value |
| `Assoc.Bump` | app.py:861 | `d[k] = d.get(k, 0) + a`: the keys are the old ones plus `k` (last if new), distinct keys stay distinct |
| `Assoc.GetBump` | app.py:861 | after `d[k] = d.get(k, 0) + a`, `k` holds `a` more than before (counting an absent key as 0) and every other key is unchanged |
| `Assoc.BumpKeyAt` | app.py:861 | after `d[k] = d.get(k, 0) + a` every old slot keeps its key, and a slot past them exists only for a new `k`, which it holds |
| `Assoc.BumpSum` | app.py:861 | `d[k] = d.get(k, 0) + a` grows the sum of the values by exactly `a` |
| `Aggregation.Accumulate` | app.py:857-861 | the dictionary a rollup loop builds (category spend at 857-861, daily spend at 1362-1366, category counts at 1406-1409) has at most one slot per item |
| `Aggregation.AccumulateGet` | app.py:858-861 | every rollup holds under each key the sum of the amounts of the items with that key (0 when none) |
| `Aggregation.AccumulateKeys` | app.py:858-861 | a key appears in a rollup iff some item has it |
| `Aggregation.AccumulateDistinct` | app.py:858-861 | no key appears twice in a rollup |
| `Aggregation.AccumulateOrder` | app.py:857-861 | a rollup lists its keys in order of first appearance: the key of an earlier slot is carried by some item before any item carries the key of a later slot (the order `max` at app.py:1445 breaks ties by) |
| `Aggregation.AccumulateSum` | app.py:858-861 | the values of a rollup add up to the sum of all the amounts it was fed |
| `Aggregation.SumAllIs` | app.py:850-853 | summed over all items, spending amounts give the total spent and counts give the number of items |
| `Aggregation.SumWhereAbsent` | app.py:872 | a category no item has totals 0, the `get(..., 0)` default of the comparison |
| `Aggregation.CategoryTotalsAddUp` | app.py:850-862 | the total spent equals the sum of the per-category totals |
| `Aggregation.Tabulate` | app.py:857-862 | the dictionary-building loop computes the rollup of the whole item list |
| `Aggregation.SpendingByCategory` | app.py:855-862 | per-category totals: keys are exactly the categories bought, each value that category's total, values summing to the total spent |
| `Aggregation.DailySpending` | app.py:1362-1366 | per-date totals: keys are exactly the dates items were added, each value that date's total, values summing to the total spent |
| `Aggregation.CategoryFrequency` | app.py:1406-1409 | per-category counts: keys are exactly the categories bought, each value the number of such items, values summing to the number of items |
| `Aggregation.CompareEntry` | app.py:872-878 | a row's `remaining` is `budgeted − actual`, with `actual` 0 for a category nothing was spent on |
| `Aggregation.Reconcile` | app.py:869-878 | the rows of the comparison: never more rows than budget entries |
| `Aggregation.FilterMonthMembers` | app.py:870-871 | the month's entries are exactly the budget entries whose month is the given one; entries of other months never appear |
| `Aggregation.ReconcileRows` | app.py:868-878 | one row per entry of the month, in entry order, each built from its own entry |
| `Aggregation.ReconcileMeaning` | app.py:864-880 | each row carries its entry's category and allocation, `actual` = that category's total spent, `remaining` = budgeted − actual |
| `Aggregation.CompareMonth` | app.py:868-878 | the loop over the budget entries builds the month's reconciliation against the given rollup |
| `Aggregation.BudgetVsActual` | app.py:864-880 | the loop's rows are the reconciliation of the month: one per entry of that month in entry order, actual = category total, remaining = budgeted − actual |
| `Ranking.SortOrder` | app.py:1383-1387 | the sort lists as many positions as there are items, each a valid position |
| `Ranking.TopN` | app.py:1456-1460 | the top-n list has min(n, len) items, each one taken from the list |
| `Ranking.SortOrderSpec` | app.py:1383-1387 | the sort lists each position once, larger keys first and equal keys in list order (stable with `reverse=True`) |
| `Ranking.SortedPermutes` | app.py:1383-1387 | the sorted list is a permutation of the items: the same multiset |
| `Ranking.TopNSpec` | app.py:1456-1460 | the top-n list has min(n, len) items taken from the list, no item more often than it occurs there, by non-increasing key, and every item left out has a key no larger than any kept |
| `Mutations.AddItemStatus` | app.py:1154 | the item is accepted iff name and category are non-empty and price and quantity are non-zero |
| `Mutations.NewItem` | app.py:1155-1164 | the appended record has the form's name, category, price, quantity, unit and expiry date, today's date, and the brand when one is entered (none exactly when the field is empty) |
| `Mutations.IndexOf` | app.py:1233 | the search of `list.remove`: the first position holding an equal record, or -1 iff there is none |
| `Mutations.RemoveFirst` | app.py:1233 | `list.remove`: one record shorter when the record is present, the list unchanged when it is absent (which record goes: `RemoveFirstAt`) |
| `Mutations.RemoveFirstAt` | app.py:1233 | removing the first occurrence cuts the list at that position |
| `Mutations.RemoveFirstCount` | app.py:1233 | exactly one occurrence of the record goes (length − 1), nothing else changes |
| `Mutations.NewBudget` | app.py:1270-1275 | the new entry has the chosen category, month and amount |
| `Mutations.FindBudget` | app.py:1264-1268 | the first entry with the same category and month, or -1 iff there is none |
| `Mutations.Upsert` | app.py:1264-1281 | the set-budget upsert: the new entry is in the result, which keeps the old length exactly when some entry has the same (category, month) and otherwise has one more |
| `Mutations.UpsertReplaces` | app.py:1277-1278 | with a matching entry, the first one is replaced in place and the length is unchanged |
| `Mutations.UpsertAppends` | app.py:1279-1281 | with no matching entry, exactly one entry is appended at the end |
| `Mutations.UpsertKeepsKeysUnique` | app.py:1262-1285 | if (category, month) keys were unique before, they are after, and the key's only entry is the new one |
| `Advisor.RowAdvice` | app.py:1432-1436 | a row warns over budget iff remaining < 0 (by −remaining), and near the limit iff 0 ≤ remaining < 10% of budgeted |
| `Advisor.BudgetAdvisories` | app.py:1430-1436 | the warnings of the budget rows: at most one per row |
| `Advisor.BudgetAdvisoriesMembers` | app.py:1430-1436 | a warning is shown exactly for rows whose rule fires, at most one per row |
| `Advisor.LargestSlot` | app.py:1445 | `max(d, key=d.get)`: a largest value, and the first one in insertion order |
| `Advisor.SpendingInsight` | app.py:1441-1451 | the insight is shown iff total spending > 0; it names the first largest category, and the advice fires iff its share exceeds 40% |
| `Advisor.DominantCategoryShown` | app.py:1441-1451 | on a ledger: shown iff the total spent is positive; advice iff the named category's total exceeds 40% of the total spent |
| `Advisor.DominantCategoryIsLargest` | app.py:1445 | on a ledger: the named category was bought and no bought category has a larger total |
| `Advisor.Classify` | app.py:1487-1492 | expired iff days < 0, today iff days = 0, soon iff days > 0 |
| `Advisor.ExpiryAlerts` | app.py:1472-1481 | the expiry alerts: at most one per item |
| `Advisor.ExpiryAlertsMembers` | app.py:1475-1481 | an alert is listed exactly for each item with an expiry date at most 7 days ahead, with that day count |
| `Advisor.CollectExpiring` | app.py:1472-1481 | the collecting loop lists exactly the items with an expiry date at most 7 days ahead |
| `Advisor.SeasonalTip` | app.py:1501-1516 | months 1–12 get a non-default tip, January and February the winter one and no other month that one; any other month the default |
| `Advisor.SeasonalTipsDistinct` | app.py:1501-1516 | two different months of 1–12 get different tips, except January and February, which share one |
| `Auth.PasswordCheck` | app.py:230-237 | a password verifies against its own stored hash, and a password with a different digest does not |
| `Auth.LoginStatus` | app.py:456-475 | missing fields first; login succeeds iff the user exists and the password's hash is the stored one |
| `Auth.SignupStatus` | app.py:663-689 | missing fields, then mismatched passwords, then a taken username; success iff none applies |
| `Auth.IdentityStatus` | app.py:532-545 | recovery proceeds iff both fields are given and the user exists with exactly that email |
| `Auth.ResetStatus` | app.py:585-597 | reset proceeds iff the answer is non-empty and the passwords match with at least 6 characters |
| `App.LoadUserData` | app.py:382-398 | a user's stored ledger, or empty lists when there is none |
| `App.SaveIsolated` | app.py:400-409 | saving one user's ledger leaves every other user's ledger as it was |
| `App.Session.CurrentScreen` | app.py:883-895 | the main screen iff logged in; signup iff its flag is set; the reset form iff the forgot flag is set and the verify step reached (or the reset flag set); the forgot form iff the forgot flag is set without them; login iff no flag is set |
| `App.Session.constructor` | app.py:696-707 | a new session starts logged out on the login screen with all flags cleared |
| `App.Session.Login` | app.py:456-475 | on success the session is logged in as that user and holds the user's stored ledger; otherwise nothing changes |
| `App.Session.ChooseSignup` | app.py:477-479 | the signup screen opens, nothing else changes |
| `App.Session.ChooseForgotPassword` | app.py:481-483 | the forgot-password form opens, nothing else changes |
| `App.Session.Signup` | app.py:663-689 | on success `users` gains exactly the new key with the password's hash and the email, the user's stored ledger is empty, other accounts are unchanged; otherwise nothing changes |
| `App.Session.LeaveSignup` | app.py:691-693 | only `show_signup` clears, and the login screen follows |
| `App.Session.RequestReset` | app.py:532-545 | the verify step is reached, remembering the user, iff the identity check passes; otherwise nothing changes |
| `App.Session.LeaveForgotPassword` | app.py:547-549 | back to login, nothing else changes |
| `App.Session.ResetPassword` | app.py:585-611 | on success only that user's hash and reset date change and the recovery flags clear; otherwise nothing changes |
| `App.Session.CancelReset` | app.py:613-617 | the recovery flags clear and the accounts are untouched |
| `App.Session.Logout` | app.py:949-959 | the session's ledger is saved under its user, then the session is logged out with empty lists |
| `App.Session.AddItem` | app.py:1153-1171 | on a complete form exactly one record is appended and the ledger is saved under the user; otherwise nothing changes |
| `App.Session.RemoveItem` | app.py:1232-1235 | the first equal record is removed and the ledger saved; a record not in the list changes nothing |
| `App.Session.SetBudget` | app.py:1262-1285 | the budget list becomes the (category, month) upsert and the ledger is saved under the user |
| `Scenarios.ResetThenLogin` | app.py:585-611 | after a completed reset, logging in with the old password fails and with the new one succeeds |
| `Scenarios.DuplicateSignup` | app.py:672-674 | a second signup under a taken name is refused and the first account is unchanged |
| `Scenarios.LedgerRoundTrip` | app.py:949-959 | logging out and back in gives back the ledger as left; setting one budget twice leaves one entry with the second amount |
| `Scenarios.MilkBudget` | app.py:864-880 | one record of 2 × 2.50 totals 5.00; the month's row reads budgeted 25.00, actual 5.00, remaining 20.00 |
| `Scenarios.DiversifyThreshold` | app.py:1444-1451 | 45% in one category triggers the advice; an even five-way split (20% each) does not |
| `Scenarios.ExpiryBoundaries` | app.py:1475-1492 | expiring yesterday, today and in 7 days give alerts (expired, today, soon); in 8 days gives none |

## Left out

- Rendering: Streamlit pages, HTML/CSS headers, forms, columns, expanders, `st.rerun`, Plotly charts, pandas DataFrames and the `color_remaining` styling are presentation.
- The dashboard page and the grocery-list page's search box, category filter and sort menu only display data; they are not modelled.
- The page-level early exits on an empty ledger (the recommendations page returns before any rule at app.py:1423-1425, the analytics page at app.py:1342-1344) are not modelled: the rule functions are stated for every ledger, including the empty one, where the pages show nothing at all (not even the seasonal tip).
- `get_item_emoji`, `get_category_emoji` and `get_category_suggestions` are cosmetic lookups; categories and units are free strings.
- App.SaveIsolated: the store is keyed by the username string, whereas the source keys it by the file names `f'{username}_grocery_data.json'` and `..._budget_data.json` (app.py:384-385, 402-403). Two different usernames can name the same files (for example "bob" and "./bob"), and signup checks only `new_username in users` (app.py:670) before `save_user_data(new_username, [], [])` (app.py:682), so in the program a new user can overwrite or later read another user's ledger. The isolation proved holds for the username-keyed map, not for the file system; path resolution is not modelled.
- JSON file I/O (`load_data`, `save_data`, `load_users`, `save_users`, `load_user_data`, `save_user_data`) is replaced by the in-memory maps; I/O failures are not modelled.
- The two ledger files of a user are written separately in the source; the model saves a user's ledger as one value, so a crash between the two writes is not represented.
- The module-level load of the global `grocery_data.json` (app.py:223-227) is overwritten at login; a new session starts with empty lists.
- The handlers reload `users.json` on every click; the model keeps one `users` map, so another session writing the files concurrently (last writer wins) is not represented.
- `hashlib.sha256` is an uninterpreted function; its collision resistance is only assumed where a proof names two passwords.
- `datetime.now()` and `strptime`: dates and "now" are parameters; expiry dates are day numbers rather than parsed `YYYY-MM-DD` strings.
- Floating-point amounts and the `:.2f` / `:.1f` formatting: amounts are exact integer cents, and the insight reports the amount and the decision instead of a rounded percentage.
- The input widgets' own limits (price ≥ 0.01, quantity ≥ 1, the category and unit menus) are not modelled; only the handlers' guards are.
- The earlier definitions of `forgot_password_page` and `verify_and_reset_password` (app.py:251-380) are overridden and dead.
