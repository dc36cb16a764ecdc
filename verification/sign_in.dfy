/**
 * The sign-in form: the e-mail and password rules, the errors they produce, and the submit guard
 * that calls the auth store's login only for a valid form.
 */
module SignIn {
  import opened Wrappers
  import opened Text
  import Auth

  /**
   * `/\S+@\S+\.\S+/.test(s)`, unanchored: some '@' preceded by a non-space, followed by at least one
   * non-space character up to a '.', which is followed by a non-space. The runs before the '@' and
   * after the '.' only need their one adjacent character, as the regex may match them that short.
   */
  predicate EmailPatternMatches(s: string) {
    exists a, d :: 0 <= a < |s| && 0 <= d < |s| && EmailMatchAt(s, a, d)
  }

  /** The regex matches with its '@' at index `a` and its '.' at index `d`. */
  predicate EmailMatchAt(s: string, a: int, d: int) {
    0 < a && a + 1 < d && d + 1 < |s| && s[a] == '@' && s[d] == '.'
    && NotJsWhitespace(s[a - 1]) && NotJsWhitespace(s[d + 1]) && NoWhitespaceBetween(s, a, d)
  }

  predicate NoWhitespaceBetween(s: string, a: int, d: int)
    requires 0 <= a <= d <= |s|
  {
    forall t :: a < t < d ==> NotJsWhitespace(s[t])
  }

  predicate HasWhitespace(w: string) {
    exists t :: 0 <= t < |w| && IsJsWhitespace(w[t])
  }

  /** A whole word of the shape x@y.z with x, y and z non-empty and no white space anywhere. */
  predicate IsEmailWord(w: string) {
    !HasWhitespace(w) && exists a, d :: 0 < a && a + 1 < d && d + 1 < |w| && w[a] == '@' && w[d] == '.'
  }

  /** The regex matches exactly when some whitespace-free stretch of the string is an e-mail word. */
  lemma EmailPatternIffWord(s: string)
    ensures EmailPatternMatches(s) <==> exists i, j :: 0 <= i <= j <= |s| && IsEmailWord(s[i..j])
  {
    if EmailPatternMatches(s) {
      var a, d :| 0 <= a < |s| && 0 <= d < |s| && EmailMatchAt(s, a, d);
      var w := s[a - 1..d + 2];
      assert w[1] == '@' && w[d - a + 1] == '.';
      forall t | 0 <= t < |w| ensures !IsJsWhitespace(w[t]) {
        assert w[t] == s[a - 1 + t];
      }
      assert IsEmailWord(w);
    }
    if exists i, j :: 0 <= i <= j <= |s| && IsEmailWord(s[i..j]) {
      var i, j :| 0 <= i <= j <= |s| && IsEmailWord(s[i..j]);
      var w := s[i..j];
      var a, d :| 0 < a && a + 1 < d && d + 1 < |w| && w[a] == '@' && w[d] == '.';
      assert !IsJsWhitespace(w[a - 1]) && !IsJsWhitespace(w[d + 1]);
      forall t | i + a < t < i + d ensures NotJsWhitespace(s[t]) {
        assert s[t] == w[t - i];
      }
      assert s[i + a] == '@' && s[i + d] == '.';
      assert s[i + a - 1] == w[a - 1] && s[i + d + 1] == w[d + 1];
      assert EmailMatchAt(s, i + a, i + d);
    }
  }

  /** The regex is unanchored: text around a matching string keeps it matching. */
  lemma EmailPatternInContext(pre: string, s: string, post: string)
    requires EmailPatternMatches(s)
    ensures EmailPatternMatches(pre + s + post)
  {
    var a, d :| 0 <= a < |s| && 0 <= d < |s| && EmailMatchAt(s, a, d);
    var u := pre + s + post;
    var p := |pre|;
    forall t | p + a < t < p + d ensures NotJsWhitespace(u[t]) {
      assert u[t] == s[t - p];
    }
    assert u[p + a] == '@' && u[p + d] == '.';
    assert u[p + a - 1] == s[a - 1] && u[p + d + 1] == s[d + 1];
    assert EmailMatchAt(u, p + a, p + d);
  }

  const EmailRequired := "Email is required"
  const EmailInvalid := "Please enter a valid email"
  const PasswordRequired := "Password is required"
  const PasswordTooShort := "Password must be at least 6 characters"

  /** The e-mail rule: required first, then the pattern; at most one message. */
  function EmailError(email: string): (e: Option<string>)
    ensures email == "" <==> e == Some(EmailRequired)
    ensures e == Some(EmailInvalid) <==> email != "" && !EmailPatternMatches(email)
    ensures e.None? <==> email != "" && EmailPatternMatches(email)
  {
    if email == "" then Some(EmailRequired)
    else if !EmailPatternMatches(email) then Some(EmailInvalid)
    else None
  }

  /** The password rule: required, then at least six characters. */
  function PasswordError(password: string): (e: Option<string>)
    ensures password == "" <==> e == Some(PasswordRequired)
    ensures e == Some(PasswordTooShort) <==> 1 <= |password| <= 5
    ensures e.None? <==> |password| >= 6
  {
    if password == "" then Some(PasswordRequired)
    else if |password| < 6 then Some(PasswordTooShort)
    else None
  }

  /** The `errors` state: at most one message per field. */
  datatype SignInErrors = SignInErrors(email: Option<string>, password: Option<string>)

  function ValidationErrors(email: string, password: string): SignInErrors {
    SignInErrors(EmailError(email), PasswordError(password))
  }

  /** `Object.keys(newErrors).length === 0`. */
  predicate NoErrors(e: SignInErrors) {
    e.email.None? && e.password.None?
  }

  /** The form is valid exactly when the e-mail matches the pattern and the password has six characters. */
  lemma SignInValidIff(email: string, password: string)
    ensures NoErrors(ValidationErrors(email, password)) <==> EmailPatternMatches(email) && |password| >= 6
  {
    if EmailPatternMatches(email) {
      assert email != "";
    }
  }

  class SignInPage {
    var email: string
    var password: string
    var errors: SignInErrors

    constructor ()
      ensures email == "" && password == "" && errors == SignInErrors(None, None)
    {
      email := "";
      password := "";
      errors := SignInErrors(None, None);
    }

    /** `validateForm`: stores the errors and reports whether there are none. */
    method ValidateForm() returns (ok: bool)
      modifies this`errors
      ensures errors == ValidationErrors(email, password)
      ensures ok <==> NoErrors(errors)
    {
      errors := ValidationErrors(email, password);
      ok := errors.email.None? && errors.password.None?;
    }

    /**
     * `handleSubmit`: logs in and navigates home only for a valid form; an invalid form leaves the
     * auth store untouched.
     */
    method HandleSubmit(auth: Auth.AuthStore, createdAt: string) returns (navigateHome: bool)
      modifies this`errors, auth
      ensures errors == ValidationErrors(email, password)
      ensures navigateHome <==> NoErrors(errors)
      ensures !navigateHome ==> unchanged(auth)
      ensures navigateHome ==>
        (auth.Valid() && auth.user == Some(Auth.LoginUser(email, createdAt))
         && auth.token == Some(Auth.MockToken) && auth.isAuthenticated && !auth.isLoading)
    {
      var ok := ValidateForm();
      if !ok {
        return false;
      }
      auth.Login(email, password, createdAt);
      navigateHome := true;
    }
  }
}
