/**
 * The sign-up form (src/pages/Signup.jsx): four checks in a fixed order,
 * the first failing one reported; when all pass, the credentials are
 * stored exactly as typed and the form is cleared.
 */
module Signup {
  import opened Wrappers
  import opened JsText
  import opened LocalStorage

  const UsernameRequired := "Username is required"
  const PasswordRequired := "Password is required"
  const PasswordTooShort := "Password must be at least 6 characters long"
  const PasswordsDiffer := "Passwords do not match"

  /** The shortest accepted password, in UTF-16 code units and counted before any trimming. */
  const MinPasswordLength := 6

  /** The message of the first check that fails, or `None` when every check passes. */
  function SignupError(username: string, password: string, confirm: string): (r: Option<string>)
    ensures r == None <==>
              !IsBlank(username) && !IsBlank(password) && Utf16Length(password) >= MinPasswordLength && password == confirm
    ensures IsBlank(username) ==> r == Some(UsernameRequired)
    ensures !IsBlank(username) && IsBlank(password) ==> r == Some(PasswordRequired)
    ensures !IsBlank(username) && !IsBlank(password) && Utf16Length(password) < MinPasswordLength ==>
              r == Some(PasswordTooShort)
    ensures !IsBlank(username) && !IsBlank(password) && Utf16Length(password) >= MinPasswordLength && password != confirm ==>
              r == Some(PasswordsDiffer)
  {
    if IsBlank(username) then Some(UsernameRequired)
    else if IsBlank(password) then Some(PasswordRequired)
    else if Utf16Length(password) < MinPasswordLength then Some(PasswordTooShort)
    else if password != confirm then Some(PasswordsDiffer)
    else None
  }

  /**
   * The blank check trims, the length check does not: six spaces are
   * "required", while two spaces and four letters pass the length check.
   */
  lemma TrimOnlyInBlankCheck()
    ensures SignupError("ana", "      ", "      ") == Some(PasswordRequired)
    ensures SignupError("ana", "  abcd", "  abcd") == None
  {
    assert !IsJsWhiteSpace('a') && "ana"[0] == 'a';
    assert "  abcd"[2] == 'a';
  }

  /**
   * The length check counts UTF-16 code units: four letters and one emoji
   * make six, so the password is long enough.
   */
  lemma LengthCountsCodeUnits()
    ensures SignupError("ana", "abcd\U{1F600}", "abcd\U{1F600}") == None
    ensures SignupError("ana", "abcd\U{E9}", "abcd\U{E9}") == Some(PasswordTooShort)
  {
    assert !IsJsWhiteSpace('a') && "ana"[0] == 'a';
    assert "abcd\U{1F600}"[0] == 'a' && "abcd\U{E9}"[0] == 'a';
    assert "abcd\U{1F600}"[..4] == "abcd" && "abcd"[..3] == "abc" && "abc"[..2] == "ab" && "ab"[..1] == "a";
    assert "abcd\U{E9}"[..4] == "abcd" && "a"[..0] == "";
  }

  class SignupForm {
    const storage: Store
    var username: string
    var password: string
    var confirmPassword: string
    var error: string
    var snackbarOpen: bool

    constructor (storage: Store)
      ensures this.storage == storage
      ensures username == "" && password == "" && confirmPassword == "" && error == "" && !snackbarOpen
    {
      this.storage := storage;
      username, password, confirmPassword, error, snackbarOpen := "", "", "", "", false;
    }

    /**
     * `handleSignup`: a failed check sets its message and returns before
     * anything is stored; success stores `{username, password}` untrimmed,
     * opens the confirmation and resets the form.
     */
    method HandleSignup()
      modifies this, storage
      ensures var e := SignupError(old(username), old(password), old(confirmPassword));
              if e.Some? then
                && error == e.value && storage.items == old(storage.items)
                && username == old(username) && password == old(password)
                && confirmPassword == old(confirmPassword) && snackbarOpen == old(snackbarOpen)
              else
                && storage.items == old(storage.items)[UserKey := UserRecord(old(username), old(password))]
                && username == "" && password == "" && confirmPassword == "" && error == "" && snackbarOpen
    {
      var e := SignupError(username, password, confirmPassword);
      if e.Some? {
        error := e.value;
        return;
      }
      storage.Set(UserKey, UserRecord(username, password));
      snackbarOpen := true;
      username, password, confirmPassword, error := "", "", "", "";
    }
  }
}
