/**
 * Command sequences on a fresh session, each proved from the handlers'
 * contracts alone: what a user sees after a password reset, after a second
 * signup under a taken name, and across a logout and a new login.
 */
module Scenarios {
  import opened Wrappers
  import opened Ledger
  import opened Feedback
  import opened Auth
  import opened Mutations
  import opened Aggregation
  import opened App
  import opened Assoc
  import opened Advisor

  /**
   * Sign up, recover the password through both recovery steps, then log in:
   * the old password is refused and the new one accepted.
   */
  method ResetThenLogin(hash: string -> string, name: string, email: string, oldPassword: string,
                        securityAnswer: string, newPassword: string, created: string, resetAt: string)
    returns (withOld: Status, withNew: Status)
    requires name != [] && email != [] && oldPassword != [] && securityAnswer != []
    requires |newPassword| >= MinPasswordLength
    requires hash(oldPassword) != hash(newPassword)
    ensures withOld == InvalidCredentials
    ensures withNew == Ok
  {
    var s := new Session(hash, map[], map[]);
    s.ChooseSignup();
    var st := s.Signup(name, email, oldPassword, oldPassword, created);
    s.ChooseForgotPassword();
    st := s.RequestReset(name, email);
    st := s.ResetPassword(securityAnswer, newPassword, newPassword, resetAt);
    withOld := s.Login(name, oldPassword);
    withNew := s.Login(name, newPassword);
  }

  /** A second signup under a taken username is refused and leaves the first account as it was. */
  method DuplicateSignup(hash: string -> string, name: string, email: string, password: string,
                         otherEmail: string, otherPassword: string, created: string, later: string)
    returns (first: Status, second: Status, before: Account, after: Account)
    requires name != [] && email != [] && password != [] && otherEmail != [] && otherPassword != []
    ensures first == Ok && second == UsernameTaken
    ensures before == after
    ensures after == Account(hash(password), email, created, None)
  {
    var s := new Session(hash, map[], map[]);
    s.ChooseSignup();
    first := s.Signup(name, email, password, password, created);
    before := s.users[name];
    s.ChooseSignup();
    second := s.Signup(name, otherEmail, otherPassword, otherPassword, later);
    after := s.users[name];
  }

  /**
   * Log in, add an item, set the same budget twice, log out and log in
   * again: the ledger comes back as it was left, with one budget entry
   * holding the second amount.
   */
  method LedgerRoundTrip(hash: string -> string, name: string, email: string, password: string, month: string)
    returns (items: seq<Item>, budgets: seq<BudgetEntry>)
    requires name != [] && email != [] && password != []
    ensures items == [Milk()]
    ensures budgets == [BudgetEntry("Dairy & Eggs", 2500, 0, month)]
  {
    var s := new Session(hash, map[], map[]);
    s.ChooseSignup();
    var st := s.Signup(name, email, password, password, "");
    st := s.Login(name, password);
    assert s.groceryItems == [] && s.budgetEntries == [];
    st := s.AddItem("Milk", "Dairy & Eggs", 250, 2, "liters", "", None, "2024-05-10");
    assert s.groceryItems == [Milk()];
    s.SetBudget("Dairy & Eggs", 2000, month);
    assert s.budgetEntries == [BudgetEntry("Dairy & Eggs", 2000, 0, month)];
    s.SetBudget("Dairy & Eggs", 2500, month);
    assert s.budgetEntries == [BudgetEntry("Dairy & Eggs", 2500, 0, month)];
    s.Logout();
    assert s.store[name] == Ledger([Milk()], [BudgetEntry("Dairy & Eggs", 2500, 0, month)]);
    st := s.Login(name, password);
    items, budgets := s.groceryItems, s.budgetEntries;
  }

  /** Two litres of milk at 2.50 each. */
  function Milk(): Item
  {
    Item("Milk", "Dairy & Eggs", 250, 2, "liters", "2024-05-10", None, None)
  }

  /** The ledger above totals 5.00, and its month's row reads budgeted 25.00, actual 5.00, remaining 20.00. */
  method MilkBudget(month: string) returns (total: int, rows: seq<Comparison>)
    ensures total == 500
    ensures rows == [Comparison("Dairy & Eggs", 2500, 500, 2000)]
  {
    var items, budgets := [Milk()], [BudgetEntry("Dairy & Eggs", 2500, 0, month)];
    total := TotalSpent(items);
    assert SumWhere(items, CategorySpend, "Dairy & Eggs") == 500;
    assert FilterMonth(budgets, month) == budgets;
    rows := BudgetVsActual(items, budgets, month);
  }

  /** 45.00 of 100.00 in Snacks triggers the diversification advice; an even five-way split does not. */
  lemma DiversifyThreshold()
    ensures var r := SpendingInsight([Slot("Snacks", 4500), Slot("Bakery", 1500), Slot("Beverages", 1500),
                                      Slot("Frozen Foods", 1500), Slot("Pantry Staples", 1000)]);
      r == Some(Insight("Snacks", 4500, true))
    ensures var r := SpendingInsight([Slot("Snacks", 2000), Slot("Bakery", 2000), Slot("Beverages", 2000),
                                      Slot("Frozen Foods", 2000), Slot("Pantry Staples", 2000)]);
      r == Some(Insight("Snacks", 2000, false))
  {
  }

  /** Expiring yesterday, today, in seven days and in eight days: three alerts, worded by day count. */
  lemma ExpiryBoundaries(today: Day, it: Item)
    ensures var items := [it.(expiryDate := Some(today - 1)), it.(expiryDate := Some(today)),
                          it.(expiryDate := Some(today + 7)), it.(expiryDate := Some(today + 8))];
      ExpiryAlerts(items, today) == [Alert(items[0], -1), Alert(items[1], 0), Alert(items[2], 7)]
    ensures Classify(-1) == Expired && Classify(0) == ExpiresToday && Classify(7) == ExpiringSoon
  {
    var items := [it.(expiryDate := Some(today - 1)), it.(expiryDate := Some(today)),
                  it.(expiryDate := Some(today + 7)), it.(expiryDate := Some(today + 8))];
    assert items[..3] == items[..4][..3];
    assert items[..2] == items[..3][..2];
    assert items[..1] == items[..2][..1];
    assert items[..1][..0] == [];
    assert ExpiryAlerts(items[..1], today) == [Alert(items[0], -1)];
    assert ExpiryAlerts(items[..2], today) == [Alert(items[0], -1), Alert(items[1], 0)];
    assert ExpiryAlerts(items[..3], today) == [Alert(items[0], -1), Alert(items[1], 0), Alert(items[2], 7)];
    assert items[..4] == items;
  }
}
