/**
 * The registration form: its submit handler, split at the request's `await`
 * into the part that checks the passwords and issues the request and the
 * continuation that handles its outcome.
 */
module RegisterPage {
  import opened Api

  const PasswordsMismatch := "Passwords do not match"
  const RegistrationFailed := "Registration failed"

  class RegisterForm {
    var username: string
    var password: string
    var confirmPassword: string
    var error: Option<string>
    var loading: bool

    constructor ()
      ensures username == "" && password == "" && confirmPassword == "" && error == None && !loading
    {
      username, password, confirmPassword, error, loading := "", "", "", None, false;
    }

    /** The submit button is disabled while a registration request is pending. */
    function SubmitDisabled(): bool
      reads this
    {
      loading
    }

    /**
     * Submitting clears the error. Differing passwords set the mismatch error,
     * end loading and send nothing; matching ones start loading and send the
     * username and password, never the confirmation. The fields are kept.
     */
    method Submit() returns (request: Option<Credentials>)
      modifies this
      ensures username == old(username) && password == old(password) && confirmPassword == old(confirmPassword)
      ensures request.Some? <==> password == confirmPassword
      ensures request.Some? ==> request.value == Credentials(username, password) && loading && error == None
      ensures request.None? ==> error == Some(PasswordsMismatch) && !loading
      ensures request.Some? <==> SubmitDisabled()
    {
      error := None;
      loading := true;
      if password != confirmPassword {
        error := Some(PasswordsMismatch);
        loading := false;
        return None;
      }
      request := Some(Credentials(username, password));
    }

    /**
     * The registration request settled. OK: the page navigates to `/` without
     * signing in. Non-OK: the error is the server's detail or "Registration
     * failed". Rejected: the error is the rejection's message. Loading ends on
     * every path.
     */
    method Complete(response: Response<()>) returns (navigation: Option<Navigation>)
      modifies this
      ensures !loading && !SubmitDisabled()
      ensures username == old(username) && password == old(password) && confirmPassword == old(confirmPassword)
      ensures navigation.Some? <==> response.Ok?
      ensures response.Ok? ==> navigation.value == Navigation("/", false) && error == old(error)
      ensures response.NotOk? ==> error == Some(FailureMessage(response.detail, RegistrationFailed))
      ensures response.Throws? ==> error == Some(response.message)
    {
      match response {
        case Ok(_) =>
          navigation := Some(Navigation("/", false));
        case NotOk(detail) =>
          error := Some(FailureMessage(detail, RegistrationFailed));
          navigation := None;
        case Throws(message) =>
          error := Some(message);
          navigation := None;
      }
      loading := false;
    }
  }
}
