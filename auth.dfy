/**
 * Credentials of app.py: the account records of `users.json`, password
 * hashing, and the validation each authentication form applies before it
 * touches any state (login_page, signup_page, and the second definitions of
 * forgot_password_page and verify_and_reset_password).
 */
module Auth {
  import opened Wrappers
  import opened Feedback

  /** One entry of the `users` dictionary, keyed by username. */
  datatype Account = Account(password: string, email: string, createdDate: string, passwordResetDate: Option<string>)

  /** Shortest password the reset form accepts. */
  const MinPasswordLength := 6

  /** hash_password: SHA-256 of the password, hex-encoded; `hash` stands for that digest. */
  function HashPassword(hash: string -> string, password: string): string
  {
    hash(password)
  }

  /** verify_password: a password matches a stored hash iff hashing it gives that hash. */
  function VerifyPassword(hash: string -> string, password: string, hashedPassword: string): (ok: bool)
  {
    HashPassword(hash, password) == hashedPassword
  }

  /**
   * What hash_password and verify_password are for: a password verifies
   * against the hash stored for it, and one with a different digest does not.
   */
  lemma PasswordCheck(hash: string -> string, password: string, other: string)
    ensures VerifyPassword(hash, password, HashPassword(hash, password))
    ensures hash(other) != hash(password) ==> !VerifyPassword(hash, other, HashPassword(hash, password))
  {
  }

  /** The login handler's checks, in order. */
  function LoginStatus(hash: string -> string, users: map<string, Account>, username: string, password: string): (st: Status)
    ensures st == Ok || st == MissingFields || st == InvalidCredentials
    ensures st == MissingFields <==> username == [] || password == []
    ensures st == Ok <==> username != [] && password != [] && username in users && hash(password) == users[username].password
  {
    if username == [] || password == [] then MissingFields
    else if username in users && VerifyPassword(hash, password, users[username].password) then Ok
    else InvalidCredentials
  }

  /** The create-account handler's checks, in order: all fields, matching passwords, unused username. */
  function SignupStatus(users: map<string, Account>, username: string, email: string, password: string, confirm: string): (st: Status)
    ensures st == Ok || st == MissingFields || st == PasswordMismatch || st == UsernameTaken
    ensures st == MissingFields <==> username == [] || email == [] || password == [] || confirm == []
    ensures st == PasswordMismatch <==> username != [] && email != [] && password != [] && confirm != [] && password != confirm
    ensures st == Ok <==> username != [] && email != [] && password != [] && password == confirm && username !in users
  {
    if username == [] || email == [] || password == [] || confirm == [] then MissingFields
    else if password != confirm then PasswordMismatch
    else if username in users then UsernameTaken
    else Ok
  }

  /** The reset-request handler's checks: both fields, and a stored account with exactly that email. */
  function IdentityStatus(users: map<string, Account>, username: string, email: string): (st: Status)
    ensures st == Ok || st == MissingFields || st == IdentityNotFound
    ensures st == MissingFields <==> username == [] || email == []
    ensures st == Ok <==> username != [] && email != [] && username in users && users[username].email == email
  {
    if username == [] || email == [] then MissingFields
    else if username in users && users[username].email == email then Ok
    else IdentityNotFound
  }

  /**
   * The reset handler's checks: any non-empty security answer is accepted;
   * then matching passwords of at least six characters.
   */
  function ResetStatus(securityAnswer: string, newPassword: string, confirm: string): (st: Status)
    ensures st == Ok || st == MissingFields || st == PasswordMismatch || st == PasswordTooShort
    ensures st == MissingFields <==> securityAnswer == [] || newPassword == [] || confirm == []
    ensures st == PasswordTooShort <==>
      securityAnswer != [] && newPassword != [] && newPassword == confirm && |newPassword| < MinPasswordLength
    ensures st == Ok <==> securityAnswer != [] && newPassword == confirm && |newPassword| >= MinPasswordLength
  {
    if securityAnswer == [] || newPassword == [] || confirm == [] then MissingFields
    else if newPassword != confirm then PasswordMismatch
    else if |newPassword| < MinPasswordLength then PasswordTooShort
    else Ok
  }
}
