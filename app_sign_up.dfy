/** The older sign-up dialog under the app directory: the email is
    optional, nothing is sent anywhere, and success hands the username to
    the caller. */
module AppSignUp {
  import opened Base
  import opened JsText
  import opened EmailPattern
  import opened AuthSignUp

  /** The guards of this dialog: a blank username or password, then a
      non-empty email that fails the regular expression. */
  function AppValidationError(username: string, password: string, email: string): (r: Option<string>)
    ensures r == Some(CredentialsRequired) <==> Trim(username) == "" || Trim(password) == ""
    ensures r == Some(InvalidEmail) <==>
              Trim(username) != "" && Trim(password) != "" && email != "" && !IsValidEmail(email)
    ensures r == None <==>
              Trim(username) != "" && Trim(password) != "" && (email == "" || IsValidEmail(email))
  {
    if Trim(username) == "" || Trim(password) == "" then Some(CredentialsRequired)
    else if email != "" && !IsValidEmail(email) then Some(InvalidEmail)
    else None
  }

  /** A non-empty email made only of white space is rejected as malformed. */
  lemma WhitespaceEmailRejected(username: string, password: string, email: string)
    requires Trim(username) != "" && Trim(password) != ""
    requires email != [] && forall i :: 0 <= i < |email| ==> IsJsWhitespace(email[i])
    ensures AppValidationError(username, password, email) == Some(InvalidEmail)
  {
    assert IsJsWhitespace(email[0]);
    assert !NoWhitespace(email);
  }

  /** Whatever the authentication dialog accepts, this one accepts too; it
      also accepts an empty email, which the other refuses. */
  lemma AuthDialogIsStricter(username: string, password: string, email: string)
    ensures ValidationError(username, password, email) == None ==>
              AppValidationError(username, password, email) == None
    ensures Trim(username) != "" && Trim(password) != "" ==>
              AppValidationError(username, password, "") == None &&
              ValidationError(username, password, "") == Some(EmailRequired)
  {
    BlankIffAllWhitespace("");
  }

  /** One submit: the new form and the username passed to
      `onSignUpSuccess`, if it was called. */
  function AppSubmit(f: Form): (r: (Form, Option<string>))
    ensures r.1.Some? <==> AppValidationError(f.username, f.password, f.email) == None
    ensures r.1.None? ==> r.0 == f.(error := AppValidationError(f.username, f.password, f.email).value)
    ensures r.1.Some? ==> r.1.value == f.username && r.0 == Form("", "", "", "", "", "")
  {
    var v := AppValidationError(f.username, f.password, f.email);
    if v.Some? then (f.(error := v.value), None)
    else (Form("", "", "", "", "", ""), Some(f.username))
  }

  /** The dialog as a component with its state variables. */
  class AppSignUpModal {
    var username: string
    var password: string
    var email: string
    var firstName: string
    var lastName: string
    var error: string

    constructor ()
      ensures Value() == Form("", "", "", "", "", "")
    {
      username, password, email, firstName, lastName, error := "", "", "", "", "", "";
    }

    function Value(): Form
      reads this
    {
      Form(username, password, email, firstName, lastName, error)
    }

    /** `handleSubmit`: returns the argument of `onSignUpSuccess` when it
        is called. */
    method HandleSubmit() returns (signedUp: Option<string>)
      modifies this
      ensures (Value(), signedUp) == AppSubmit(old(Value()))
    {
      if Trim(username) == "" || Trim(password) == "" {
        error := CredentialsRequired;
        return None;
      }
      if email != "" && !IsValidEmail(email) {
        error := InvalidEmail;
        return None;
      }
      var name := username;
      username, password, email, firstName, lastName := "", "", "", "", "";
      error := "";
      signedUp := Some(name);
    }
  }
}
