/** The outcome each command reports to the page, one per message app.py shows. */
module Feedback {
  datatype Status =
    | Ok
    | MissingFields        // "Please fill in all fields!" / "... required fields marked with *"
    | PasswordMismatch     // "Passwords don't match!"
    | PasswordTooShort     // "Password must be at least 6 characters long!"
    | UsernameTaken        // "Username already exists!"
    | InvalidCredentials   // "Invalid username or password!"
    | IdentityNotFound     // "Username and email combination not found!"
    | NotInList            // ValueError raised by list.remove
}
