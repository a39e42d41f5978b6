/**
 * The Streamlit session of app.py as one object: the authentication flags
 * and the in-memory ledger lists of `st.session_state`, together with the
 * durable stores they are loaded from and saved to (`users.json` and the
 * per-user `<username>_grocery_data.json` / `<username>_budget_data.json`
 * files, modelled as maps). Each method is one button handler; it runs only
 * on the screen that main() dispatches to, which its precondition states.
 */
module App {
  import opened Wrappers
  import opened Ledger
  import opened Feedback
  import opened Auth
  import opened Mutations

  /** The screen main() renders. */
  datatype Screen = LoginScreen | SignupScreen | ForgotPasswordScreen | ResetPasswordScreen | MainScreen

  /** `forgot_password_step`: unset, or 'verify' once the identity check passed. */
  datatype RecoveryStep = NoStep | Verify

  /** load_user_data: a user without stored data gets an empty ledger. */
  function LoadUserData(store: map<string, Ledger>, username: string): (l: Ledger)
    ensures username in store ==> l == store[username]
    ensures username !in store ==> l.items == [] && l.budgets == []
  {
    if username in store then store[username] else EmptyLedger
  }

  /** save_user_data overwrites one user's ledger and no other. */
  lemma SaveIsolated(store: map<string, Ledger>, username: string, l: Ledger, other: string)
    ensures LoadUserData(store[username := l], username) == l
    ensures other != username ==> LoadUserData(store[username := l], other) == LoadUserData(store, other)
  {
  }

  /** Everything a Session holds, as one value. */
  datatype State = State(
    users: map<string, Account>,
    store: map<string, Ledger>,
    loggedIn: bool,
    username: Option<string>,
    userEmail: Option<string>,
    showSignup: bool,
    showForgotPassword: bool,
    showResetForm: bool,
    forgotPasswordStep: RecoveryStep,
    resetUsername: Option<string>,
    items: seq<Item>,
    budgets: seq<BudgetEntry>)

  class Session {
    /** The password digest (SHA-256 in the source). */
    const hash: string -> string

    // durable stores
    var users: map<string, Account>
    var store: map<string, Ledger>

    // st.session_state
    var loggedIn: bool
    var username: Option<string>
    var userEmail: Option<string>
    var showSignup: bool
    var showForgotPassword: bool
    var showResetForm: bool
    var forgotPasswordStep: RecoveryStep
    var resetUsername: Option<string>
    var groceryItems: seq<Item>
    var budgetEntries: seq<BudgetEntry>

    /**
     * A logged-in session knows its user; the verify step knows an existing
     * account to reset and is only reached from the forgot-password form;
     * `show_reset_form` is only ever cleared.
     */
    ghost predicate Valid()
      reads this
    {
      && (loggedIn ==> username.Some?)
      && (forgotPasswordStep == Verify ==> resetUsername.Some? && resetUsername.value in users)
      && (forgotPasswordStep == Verify ==> showForgotPassword)
      && !(showSignup && showForgotPassword)
      && !showResetForm
    }

    function Snapshot(): State
      reads this
    {
      State(users, store, loggedIn, username, userEmail, showSignup, showForgotPassword, showResetForm,
            forgotPasswordStep, resetUsername, groceryItems, budgetEntries)
    }

    /** The dispatch at the top of main(): the main screen exactly when logged in. */
    function CurrentScreen(): (screen: Screen)
      reads this
      ensures screen == MainScreen <==> loggedIn
      ensures screen == SignupScreen <==> !loggedIn && showSignup
      ensures screen == LoginScreen <==> !loggedIn && !showSignup && !showForgotPassword
      ensures screen == ResetPasswordScreen <==>
        !loggedIn && !showSignup && showForgotPassword && (showResetForm || forgotPasswordStep == Verify)
      ensures screen == ForgotPasswordScreen <==>
        !loggedIn && !showSignup && showForgotPassword && !showResetForm && forgotPasswordStep != Verify
    {
      if loggedIn then MainScreen
      else if showSignup then SignupScreen
      else if showForgotPassword then
        (if showResetForm || forgotPasswordStep == Verify then ResetPasswordScreen else ForgotPasswordScreen)
      else LoginScreen
    }

    /** A fresh session over the stored accounts and ledgers, with the initial flags. */
    constructor (hash: string -> string, users: map<string, Account>, store: map<string, Ledger>)
      ensures Valid() && this.hash == hash
      ensures Snapshot() == State(users, store, false, None, None, false, false, false, NoStep, None, [], [])
      ensures CurrentScreen() == LoginScreen
    {
      this.hash := hash;
      this.users := users;
      this.store := store;
      loggedIn := false;
      username := None;
      userEmail := None;
      showSignup := false;
      showForgotPassword := false;
      showResetForm := false;
      forgotPasswordStep := NoStep;
      resetUsername := None;
      groceryItems := [];
      budgetEntries := [];
    }

    // ---- login page ------------------------------------------------------

    /** The Login button: on success the user's stored ledger becomes the session's. */
    method Login(name: string, password: string) returns (status: Status)
      requires Valid() && CurrentScreen() == LoginScreen
      modifies this
      ensures Valid()
      ensures status == LoginStatus(hash, old(users), name, password)
      ensures status == Ok ==> Snapshot() == old(Snapshot()).(
        loggedIn := true, username := Some(name), userEmail := Some(old(users)[name].email),
        items := LoadUserData(old(store), name).items, budgets := LoadUserData(old(store), name).budgets)
      ensures status == Ok ==> CurrentScreen() == MainScreen
      ensures status != Ok ==> Snapshot() == old(Snapshot())
    {
      status := LoginStatus(hash, users, name, password);
      if status == Ok {
        loggedIn := true;
        username := Some(name);
        userEmail := Some(users[name].email);
        var data := LoadUserData(store, name);
        groceryItems := data.items;
        budgetEntries := data.budgets;
      }
    }

    /** The Sign Up button of the login form. */
    method ChooseSignup()
      requires Valid() && CurrentScreen() == LoginScreen
      modifies this
      ensures Valid() && CurrentScreen() == SignupScreen
      ensures Snapshot() == old(Snapshot()).(showSignup := true)
    {
      showSignup := true;
    }

    /** The Forgot Password button of the login form. */
    method ChooseForgotPassword()
      requires Valid() && CurrentScreen() == LoginScreen
      modifies this
      ensures Valid()
      ensures Snapshot() == old(Snapshot()).(showForgotPassword := true)
      ensures CurrentScreen() == ForgotPasswordScreen
    {
      showForgotPassword := true;
    }

    // ---- signup page -----------------------------------------------------

    /**
     * Create Account: on success the users map gains exactly the new account,
     * whose stored ledger is written empty, and the login screen returns.
     */
    method Signup(name: string, email: string, password: string, confirm: string, now: string) returns (status: Status)
      requires Valid() && CurrentScreen() == SignupScreen
      modifies this
      ensures Valid()
      ensures status == SignupStatus(old(users), name, email, password, confirm)
      ensures status == Ok ==> CurrentScreen() == LoginScreen
      ensures status == Ok ==> Snapshot() == old(Snapshot()).(
        users := old(users)[name := Account(HashPassword(hash, password), email, now, None)],
        store := old(store)[name := EmptyLedger],
        showSignup := false)
      ensures status != Ok ==> Snapshot() == old(Snapshot())
    {
      status := SignupStatus(users, name, email, password, confirm);
      if status == Ok {
        users := users[name := Account(HashPassword(hash, password), email, now, None)];
        store := store[name := EmptyLedger];
        showSignup := false;
      }
    }

    /** Back to Login from the signup form. */
    method LeaveSignup()
      requires Valid() && CurrentScreen() == SignupScreen
      modifies this
      ensures Valid()
      ensures Snapshot() == old(Snapshot()).(showSignup := false)
      ensures CurrentScreen() == LoginScreen
    {
      showSignup := false;
    }

    // ---- password recovery -----------------------------------------------

    /** Request Reset: the verify step is reached iff the username exists with exactly that email. */
    method RequestReset(name: string, email: string) returns (status: Status)
      requires Valid() && CurrentScreen() == ForgotPasswordScreen
      modifies this
      ensures Valid()
      ensures status == IdentityStatus(old(users), name, email)
      ensures status == Ok ==> Snapshot() == old(Snapshot()).(resetUsername := Some(name), forgotPasswordStep := Verify)
      ensures status == Ok ==> CurrentScreen() == ResetPasswordScreen
      ensures status != Ok ==> Snapshot() == old(Snapshot())
    {
      status := IdentityStatus(users, name, email);
      if status == Ok {
        resetUsername := Some(name);
        forgotPasswordStep := Verify;
      }
    }

    /** Back to Login from the reset-request form. */
    method LeaveForgotPassword()
      requires Valid() && CurrentScreen() == ForgotPasswordScreen
      modifies this
      ensures Valid()
      ensures Snapshot() == old(Snapshot()).(showForgotPassword := false)
    {
      showForgotPassword := false;
    }

    /**
     * Reset Password: on success only the chosen user's hash and reset date
     * change, and the recovery flags are cleared.
     */
    method ResetPassword(securityAnswer: string, newPassword: string, confirm: string, now: string) returns (status: Status)
      requires Valid() && CurrentScreen() == ResetPasswordScreen
      modifies this
      ensures Valid()
      ensures status == ResetStatus(securityAnswer, newPassword, confirm)
      ensures status == Ok ==>
        var u := old(resetUsername).value;
        Snapshot() == old(Snapshot()).(
          users := old(users)[u := old(users)[u].(password := HashPassword(hash, newPassword), passwordResetDate := Some(now))],
          forgotPasswordStep := NoStep, resetUsername := None, showForgotPassword := false)
      ensures status == Ok ==> CurrentScreen() == LoginScreen
      ensures status != Ok ==> Snapshot() == old(Snapshot())
    {
      status := ResetStatus(securityAnswer, newPassword, confirm);
      if status == Ok {
        var u := resetUsername.value;
        users := users[u := users[u].(password := HashPassword(hash, newPassword), passwordResetDate := Some(now))];
        forgotPasswordStep := NoStep;
        resetUsername := None;
        showForgotPassword := false;
      }
    }

    /** Cancel on the reset form: the recovery flags are cleared, the accounts untouched. */
    method CancelReset()
      requires Valid() && CurrentScreen() == ResetPasswordScreen
      modifies this
      ensures Valid() && CurrentScreen() == LoginScreen
      ensures Snapshot() == old(Snapshot()).(forgotPasswordStep := NoStep, resetUsername := None, showForgotPassword := false)
    {
      forgotPasswordStep := NoStep;
      resetUsername := None;
      showForgotPassword := false;
    }

    // ---- main screen -----------------------------------------------------

    /** Logout: the session's ledger is saved under its user first, then the session is cleared. */
    method Logout()
      requires Valid() && CurrentScreen() == MainScreen
      modifies this
      ensures Valid()
      ensures Snapshot() == old(Snapshot()).(
        store := old(store)[old(username).value := Ledger(old(groceryItems), old(budgetEntries))],
        loggedIn := false, username := None, userEmail := None, items := [], budgets := [])
    {
      store := store[username.value := Ledger(groceryItems, budgetEntries)];
      loggedIn := false;
      username := None;
      userEmail := None;
      groceryItems := [];
      budgetEntries := [];
    }

    /** Add Item: on a complete form one record is appended and the ledger saved. */
    method AddItem(name: string, category: string, price: int, quantity: int, unit: string,
                   brand: string, expiryDate: Option<Day>, today: string) returns (status: Status)
      requires Valid() && CurrentScreen() == MainScreen
      modifies this
      ensures Valid()
      ensures status == AddItemStatus(name, category, price, quantity)
      ensures status == Ok ==>
        var items := old(groceryItems) + [NewItem(name, category, price, quantity, unit, brand, expiryDate, today)];
        Snapshot() == old(Snapshot()).(
          items := items,
          store := old(store)[old(username).value := Ledger(items, old(budgetEntries))])
      ensures status != Ok ==> Snapshot() == old(Snapshot())
    {
      status := AddItemStatus(name, category, price, quantity);
      if status == Ok {
        var newItem := NewItem(name, category, price, quantity, unit, brand, expiryDate, today);
        groceryItems := groceryItems + [newItem];
        store := store[username.value := Ledger(groceryItems, budgetEntries)];
      }
    }

    /**
     * Remove: `list.remove(item)` deletes the first record equal to `item`,
     * which need not be the one displayed; the ledger is then saved. A record
     * not in the list raises before anything changes.
     */
    method RemoveItem(item: Item) returns (status: Status)
      requires Valid() && CurrentScreen() == MainScreen
      modifies this
      ensures Valid()
      ensures status == Ok || status == NotInList
      ensures status == Ok <==> item in old(groceryItems)
      ensures status == Ok ==>
        var items := RemoveFirst(old(groceryItems), item);
        Snapshot() == old(Snapshot()).(
          items := items,
          store := old(store)[old(username).value := Ledger(items, old(budgetEntries))])
      ensures status != Ok ==> Snapshot() == old(Snapshot())
    {
      var i := IndexOf(groceryItems, item);
      if i < 0 {
        status := NotInList;
      } else {
        RemoveFirstAt(groceryItems, item, i);
        groceryItems := groceryItems[..i] + groceryItems[i + 1..];
        store := store[username.value := Ledger(groceryItems, budgetEntries)];
        status := Ok;
      }
    }

    /** Set Budget: the (category, month) upsert, then the ledger is saved. */
    method SetBudget(category: string, allocatedAmount: int, month: string)
      requires Valid() && CurrentScreen() == MainScreen
      modifies this
      ensures Valid()
      ensures
        var budgets := Upsert(old(budgetEntries), NewBudget(category, allocatedAmount, month));
        Snapshot() == old(Snapshot()).(
          budgets := budgets,
          store := old(store)[old(username).value := Ledger(old(groceryItems), budgets)])
    {
      var existing := FindBudget(budgetEntries, category, month);
      var newBudget := NewBudget(category, allocatedAmount, month);
      if existing >= 0 {
        UpsertReplaces(budgetEntries, newBudget, existing);
        budgetEntries := budgetEntries[existing := newBudget];
      } else {
        UpsertAppends(budgetEntries, newBudget);
        budgetEntries := budgetEntries + [newBudget];
      }
      store := store[username.value := Ledger(groceryItems, budgetEntries)];
    }
  }
}
