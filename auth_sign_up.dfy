/** The sign-up dialog of the authentication modals: three guards in order,
    then the call to the authentication provider's sign-up, whose success or
    failure is given from outside. */
module AuthSignUp {
  import opened Base
  import opened JsText
  import opened EmailPattern

  const CredentialsRequired := "Username and password are required."
  const EmailRequired := "Email is required."
  const InvalidEmail := "Please enter a valid email address."
  const SignUpFailed := "Failed to create account. Username or email might already exist."

  /** The dialog's six state variables. */
  datatype Form = Form(
    username: string,
    password: string,
    email: string,
    firstName: string,
    lastName: string,
    error: string)

  /** `signUp(email, password, username, firstName || undefined,
      lastName || undefined)`. */
  datatype SignUpCall = SignUpCall(
    email: string,
    password: string,
    username: string,
    firstName: Option<string>,
    lastName: Option<string>)

  /** `s || undefined` for a string: the empty string becomes absent. */
  function OrUndefined(s: string): (r: Option<string>)
    ensures r == None <==> s == ""
    ensures r.Some? ==> r.value == s
  {
    if s == "" then None else Some(s)
  }

  /** The guards of `handleSubmit`, first failing one first. */
  function ValidationError(username: string, password: string, email: string): (r: Option<string>)
    ensures r == Some(CredentialsRequired) <==> Trim(username) == "" || Trim(password) == ""
    ensures r == Some(EmailRequired) <==>
              Trim(username) != "" && Trim(password) != "" && Trim(email) == ""
    ensures r == Some(InvalidEmail) <==>
              Trim(username) != "" && Trim(password) != "" && Trim(email) != "" && !IsValidEmail(email)
    ensures r == None <==>
              Trim(username) != "" && Trim(password) != "" && Trim(email) != "" && IsValidEmail(email)
  {
    if Trim(username) == "" || Trim(password) == "" then Some(CredentialsRequired)
    else if Trim(email) == "" then Some(EmailRequired)
    else if !IsValidEmail(email) then Some(InvalidEmail)
    else None
  }

  /** What one submit leaves behind: the new form, the sign-up call if one
      was made, and whether the dialog was closed. */
  datatype Submitted = Submitted(form: Form, call: Option<SignUpCall>, closed: bool)

  /** `handleSubmit`: a failing guard only sets its message; otherwise the
      error is cleared and sign-up is called; success clears the five
      fields and closes the dialog, failure sets the fixed message and keeps
      the fields. */
  function Submit(f: Form, signUpSucceeds: bool): (r: Submitted)
    ensures r.call.Some? <==> ValidationError(f.username, f.password, f.email) == None
    ensures r.call.None? ==>
              r.form == f.(error := ValidationError(f.username, f.password, f.email).value) && !r.closed
    ensures r.call.Some? ==>
              r.call.value == SignUpCall(f.email, f.password, f.username, OrUndefined(f.firstName), OrUndefined(f.lastName))
    ensures r.call.Some? && signUpSucceeds ==> r.form == Form("", "", "", "", "", "") && r.closed
    ensures r.call.Some? && !signUpSucceeds ==> r.form == f.(error := SignUpFailed) && !r.closed
  {
    var v := ValidationError(f.username, f.password, f.email);
    if v.Some? then Submitted(f.(error := v.value), None, false)
    else
      var call := SignUpCall(f.email, f.password, f.username, OrUndefined(f.firstName), OrUndefined(f.lastName));
      if signUpSucceeds then Submitted(Form("", "", "", "", "", ""), Some(call), true)
      else Submitted(f.(error := SignUpFailed), Some(call), false)
  }

  /** Sign-up is only ever called with a non-blank username and password
      and an address the regular expression matches. */
  lemma SignUpCallIsValid(f: Form, signUpSucceeds: bool)
    requires Submit(f, signUpSucceeds).call.Some?
    ensures var c := Submit(f, signUpSucceeds).call.value;
            Trim(c.username) != "" && Trim(c.password) != "" && MatchesPattern(c.email)
  {
    IsValidEmailIffPattern(f.email);
  }

  /** A white-space-only email is reported as missing, not as malformed. */
  lemma BlankEmailIsMissing(username: string, password: string, email: string)
    requires Trim(username) != "" && Trim(password) != ""
    requires forall i :: 0 <= i < |email| ==> IsJsWhitespace(email[i])
    ensures ValidationError(username, password, email) == Some(EmailRequired)
  {
    BlankIffAllWhitespace(email);
  }

  /** The dialog as a component with its state variables. */
  class SignUpModal {
    var username: string
    var password: string
    var email: string
    var firstName: string
    var lastName: string
    var error: string

    /** All fields start empty. */
    constructor ()
      ensures Value() == Form("", "", "", "", "", "")
    {
      username, password, email, firstName, lastName, error := "", "", "", "", "", "";
    }

    function Value(): Form
      reads this
    {
      Form(username, password, email, firstName, lastName, error)
    }

    /** `handleSubmit`, with the outcome of the awaited sign-up given. */
    method HandleSubmit(signUpSucceeds: bool) returns (call: Option<SignUpCall>, closed: bool)
      modifies this
      ensures Submitted(Value(), call, closed) == Submit(old(Value()), signUpSucceeds)
    {
      call, closed := None, false;
      if Trim(username) == "" || Trim(password) == "" {
        error := CredentialsRequired;
        return;
      }
      if Trim(email) == "" {
        error := EmailRequired;
        return;
      }
      if !IsValidEmail(email) {
        error := InvalidEmail;
        return;
      }
      error := "";
      call := Some(SignUpCall(email, password, username, OrUndefined(firstName), OrUndefined(lastName)));
      if signUpSucceeds {
        username, password, email, firstName, lastName := "", "", "", "", "";
        closed := true;
      } else {
        error := SignUpFailed;
      }
    }
  }
}
