/** The visitor registration form: two password checks, then `signUp` with the
    email and password only. */
module RegisterForm {

  import opened Types
  import opened Registration
  import opened AccountStep
  import opened Backend
  import opened AuthActions

  const LOGIN_REGISTERED_ROUTE := "/login?registered=true"

  /** The handler's own guards: mismatch first, then length. There is no
      emptiness or email check. */
  function PasswordRejection(password: string, confirmPassword: string): (e: Option<string>)
    ensures e == Some(MSG_PASSWORD_MISMATCH) <==> password != confirmPassword
    ensures e == Some(MSG_PASSWORD_SHORT) <==> password == confirmPassword && |password| < MIN_PASSWORD_LENGTH
    ensures e.None? <==> password == confirmPassword && |password| >= MIN_PASSWORD_LENGTH
  {
    if password != confirmPassword then Some(MSG_PASSWORD_MISMATCH)
    else if |password| < MIN_PASSWORD_LENGTH then Some(MSG_PASSWORD_SHORT)
    else None
  }

  /** The submit handler lets through what step 1 of the artist wizard refuses:
      an empty or malformed email, with matching passwords of the minimum length. */
  lemma WeakerThanAccountStep(email: string, password: string)
    requires |password| >= MIN_PASSWORD_LENGTH
    requires !MatchesEmailPattern(email)
    ensures PasswordRejection(password, password).None?
    ensures AccountResult(email, password, password).Rejected?
  {
  }

  /** Where a password accepted by step 1 is refused by this form, the message
      is the same. */
  lemma SharedPasswordMessages(email: string, password: string, confirmPassword: string)
    requires email != "" && password != "" && confirmPassword != ""
    requires PasswordRejection(password, confirmPassword).Some?
    ensures AccountResult(email, password, confirmPassword) == Rejected(PasswordRejection(password, confirmPassword).value)
  {
  }

  class RegisterForm {
    var email: string
    var password: string
    var confirmPassword: string
    var name: string
    var loading: bool
    var error: string

    constructor ()
      ensures email == "" && password == "" && confirmPassword == "" && name == ""
      ensures !loading && error == ""
    {
      email, password, confirmPassword, name := "", "", "", "";
      loading, error := false, "";
    }

    /** `handleSubmit`. A refused password shows its message, ends loading and
        sends nothing. Otherwise `signUp` receives the email and password, never
        the name, so no visitor profile row is requested. An error with a
        message is shown and ends loading; any other result goes to the login
        page with loading still on. */
    method HandleSubmit(client: Client, rp: SignUpReplies) returns (nav: Navigation)
      modifies this`loading, this`error, client
      ensures PasswordRejection(password, confirmPassword).Some? ==>
        error == PasswordRejection(password, confirmPassword).value && !loading && nav == Stay
        && client.log == old(client.log)
      ensures PasswordRejection(password, confirmPassword).None? ==>
        var run := SignUpRun(email, password, None, rp);
        client.log == old(client.log) + run.requests
        && (run.result.SignUpFailed? && run.result.error != "" ==> error == run.result.error && !loading && nav == Stay)
        && (!(run.result.SignUpFailed? && run.result.error != "") ==>
              error == "" && loading && nav == NavigateTo(LOGIN_REGISTERED_ROUTE))
    {
      loading := true;
      error := "";
      if password != confirmPassword {
        error := MSG_PASSWORD_MISMATCH;
        loading := false;
        return Stay;
      }
      if |password| < MIN_PASSWORD_LENGTH {
        error := MSG_PASSWORD_SHORT;
        loading := false;
        return Stay;
      }
      var result := SignUp(client, email, password, None, rp);
      if result.SignUpFailed? && result.error != "" {
        error := result.error;
        loading := false;
        nav := Stay;
      } else {
        nav := NavigateTo(LOGIN_REGISTERED_ROUTE);
      }
    }
  }
}
