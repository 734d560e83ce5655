/**
 * The login form: its submit handler, split at the request's `await` into the
 * part that issues the request and the continuation that handles its outcome.
 */
module LoginPage {
  import opened Api
  import Json
  import AuthContext
  import Routes

  const InvalidCredentials := "Invalid credentials"

  class LoginForm {
    var username: string
    var password: string
    var error: Option<string>
    var loading: bool

    constructor ()
      ensures username == "" && password == "" && error == None && !loading
    {
      username, password, error, loading := "", "", None, false;
    }

    /** The submit button is disabled while a login request is pending. */
    function SubmitDisabled(): bool
      reads this
    {
      loading
    }

    /** Submitting starts loading, clears the error and sends the two fields as they are. */
    method Submit() returns (request: Credentials)
      modifies this
      ensures loading && error == None && SubmitDisabled()
      ensures username == old(username) && password == old(password)
      ensures request == Credentials(username, password)
    {
      loading := true;
      error := None;
      request := Credentials(username, password);
    }

    /**
     * The login request settled. OK: the current cookie string becomes the
     * session user and the page navigates to `/`, replacing the history
     * entry; an empty cookie string is stored as it is and still counts as
     * signed out. Non-OK: the error is the server's detail or "Invalid
     * credentials", and the session is untouched. Rejected: the error is the
     * rejection's message. Loading ends on every path.
     */
    method Complete(response: Response<()>, cookie: string, auth: AuthContext.AuthProvider, writeFails: bool)
      returns (navigation: Option<Navigation>)
      requires auth.Valid()
      modifies this, auth.session, auth.session.store
      ensures !loading && !SubmitDisabled() && username == old(username) && password == old(password)
      ensures response.Ok? ==>
        navigation == Some(Navigation("/", true)) && error == old(error) && auth.User() == Some(cookie)
        && auth.session.store.items == (if writeFails then old(auth.session.store.items)
                                        else old(auth.session.store.items)[AuthContext.UserKey := Json.Encode(Some(cookie))])
        && (Routes.SignedIn(auth.User()) <==> cookie != "")
      ensures !response.Ok? ==>
        navigation == None && auth.User() == old(auth.User())
        && auth.session.store.items == old(auth.session.store.items)
      ensures response.NotOk? ==> error == Some(FailureMessage(response.detail, InvalidCredentials))
      ensures response.Throws? ==> error == Some(response.message)
    {
      match response {
        case Ok(_) =>
          auth.Login(cookie, writeFails);
          navigation := Some(Navigation("/", true));
        case NotOk(detail) =>
          error := Some(FailureMessage(detail, InvalidCredentials));
          navigation := None;
        case Throws(message) =>
          error := Some(message);
          navigation := None;
      }
      loading := false;
    }
  }
}
