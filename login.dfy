/**
 * The log-in screen (frontend/src/pages/Login.jsx): posts the credentials to `/login` and,
 * on success, hands the access token to the session and goes home.
 */
module Login {
  import opened Wrappers
  import opened ClientData
  import Session

  const LoginFailed := "Login failed."

  datatype Credentials = Credentials(email: string, password: string)

  class LoginView {
    var email: string
    var password: string
    var errorMsg: string

    constructor ()
      ensures email == "" && password == "" && errorMsg == ""
    {
      email := "";
      password := "";
      errorMsg := "";
    }

    /**
     * Submit: the body is the two fields; a success logs the session in with the returned
     * token and navigates home, a failure shows the server's detail or the fallback.
     */
    method HandleSubmit(session: Session.AuthProvider, outcome: Response<string>)
      returns (body: Credentials, nav: Option<Route>)
      modifies this, session, session.ambient`storage
      ensures body == Credentials(old(email), old(password))
      ensures email == old(email) && password == old(password)
      ensures outcome.Success? ==> session.State() == Session.LoginStep(old(session.State()), outcome.data)
      ensures outcome.Success? ==> nav == Some(Home) && errorMsg == ""
      ensures outcome.Failure? ==> session.State() == old(session.State())
      ensures outcome.Failure? ==> nav.None? && errorMsg == ErrorMessage(outcome.detail, LoginFailed)
    {
      errorMsg := "";
      body := Credentials(email, password);
      match outcome {
        case Success(accessToken) =>
          session.Login(accessToken);
          nav := Some(Home);
        case Failure(detail) =>
          errorMsg := ErrorMessage(detail, LoginFailed);
          nav := None;
      }
    }
  }
}
