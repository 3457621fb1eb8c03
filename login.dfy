/**
 * The login form (src/pages/Login.jsx): the typed credentials are checked
 * against the one stored user record, and a match sets the `loggedIn` flag.
 */
module Login {
  import opened Wrappers
  import opened JsText
  import opened LocalStorage
  import Signup

  const BothRequired := "Please enter both username and password"
  const InvalidCredentials := "Invalid username or password"
  const NoUser := "No registered user found. Please sign up first."
  const GenericError := "An error occurred. Please try again."

  datatype LoginOutcome = LoggedIn | Rejected(message: string)

  /**
   * The outcome of `handleLogin` for the typed credentials and the stored
   * `user` value. Blank fields are refused first; a missing (or empty)
   * value means nobody signed up; a stored record must match both fields
   * exactly, untrimmed; a stored array parses but has no such fields, so it
   * never matches; anything else throws in `JSON.parse`.
   */
  function CheckLogin(username: string, password: string, saved: Option<Stored>): (r: LoginOutcome)
    ensures r == LoggedIn <==>
              !IsBlank(username) && !IsBlank(password) && saved == Some(UserRecord(username, password))
    ensures IsBlank(username) || IsBlank(password) ==> r == Rejected(BothRequired)
    ensures !IsBlank(username) && !IsBlank(password) && (saved.None? || saved == Some(Text(""))) ==>
              r == Rejected(NoUser)
    ensures (!IsBlank(username) && !IsBlank(password) && saved.Some? && saved.value.UserRecord?
             && saved.value != UserRecord(username, password)) ==> r == Rejected(InvalidCredentials)
    ensures (!IsBlank(username) && !IsBlank(password) && saved.Some? && saved.value == Malformed)
              ==> r == Rejected(GenericError)
    ensures (!IsBlank(username) && !IsBlank(password) && saved.Some?
             && (saved.value.MovieList? || saved.value.TextList?)) ==> r == Rejected(InvalidCredentials)
    ensures (!IsBlank(username) && !IsBlank(password) && saved.Some? && saved.value.Text?
             && saved.value.text != "") ==> r == Rejected(GenericError)
  {
    if IsBlank(username) || IsBlank(password) then Rejected(BothRequired)
    else if saved.None? || saved == Some(Text("")) then Rejected(NoUser)
    else match saved.value
      case UserRecord(u, p) =>
        if u == username && p == password then LoggedIn else Rejected(InvalidCredentials)
      case MovieList(_) => Rejected(InvalidCredentials)
      case TextList(_) => Rejected(InvalidCredentials)
      case _ => Rejected(GenericError)
  }

  /** What a successful sign-up stores lets the same credentials log in. */
  lemma SignupThenLogin(username: string, password: string, confirm: string)
    requires Signup.SignupError(username, password, confirm) == None
    ensures CheckLogin(username, password, Some(UserRecord(username, password))) == LoggedIn
  {
  }

  /** Login compares untrimmed: a trailing space in the password is a mismatch. */
  lemma LoginDoesNotTrim(username: string, password: string)
    requires !IsBlank(username) && !IsBlank(password)
    ensures CheckLogin(username, password + " ", Some(UserRecord(username, password)))
              == Rejected(InvalidCredentials)
  {
    assert !IsBlank(password + " ") by {
      var i :| 0 <= i < |password| && !IsJsWhiteSpace(password[i]);
      assert (password + " ")[i] == password[i];
    }
    assert password + " " != password by {
      assert |password + " "| != |password|;
    }
  }

  class LoginForm {
    const storage: Store
    var username: string
    var password: string
    var error: string

    constructor (storage: Store)
      ensures this.storage == storage && username == "" && password == "" && error == ""
    {
      this.storage := storage;
      username, password, error := "", "", "";
    }

    /**
     * `handleLogin`: on a match the flag is written and the error cleared;
     * otherwise the message is shown and storage is untouched.
     */
    method HandleLogin() returns (outcome: LoginOutcome)
      modifies this, storage
      ensures outcome == CheckLogin(username, password, old(storage.Get(UserKey)))
      ensures username == old(username) && password == old(password)
      ensures outcome == LoggedIn ==>
                error == "" && storage.items == old(storage.items)[LoggedInKey := Text("true")]
      ensures outcome.Rejected? ==> error == outcome.message && storage.items == old(storage.items)
    {
      outcome := CheckLogin(username, password, storage.Get(UserKey));
      if outcome == LoggedIn {
        storage.Set(LoggedInKey, Text("true"));
        error := "";
      } else {
        error := outcome.message;
      }
    }
  }
}
