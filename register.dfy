/**
 * The registration screen (frontend/src/pages/Register.jsx): posts the three fields to
 * `/register` and goes to the log-in page on success.
 */
module Register {
  import opened Wrappers
  import opened ClientData

  const RegistrationFailed := "Registration failed."

  datatype Registration = Registration(username: string, email: string, password: string)

  class RegisterView {
    var username: string
    var email: string
    var password: string
    var errorMsg: string

    constructor ()
      ensures username == "" && email == "" && password == "" && errorMsg == ""
    {
      username := "";
      email := "";
      password := "";
      errorMsg := "";
    }

    /** Submit: the body is the three fields; no session is touched. */
    method HandleSubmit(outcome: Response<()>) returns (body: Registration, nav: Option<Route>)
      modifies this
      ensures body == Registration(old(username), old(email), old(password))
      ensures username == old(username) && email == old(email) && password == old(password)
      ensures outcome.Success? ==> nav == Some(LoginPage) && errorMsg == ""
      ensures outcome.Failure? ==> nav.None? && errorMsg == ErrorMessage(outcome.detail, RegistrationFailed)
    {
      errorMsg := "";
      body := Registration(username, email, password);
      if outcome.Success? {
        nav := Some(LoginPage);
      } else {
        errorMsg := ErrorMessage(outcome.detail, RegistrationFailed);
        nav := None;
      }
    }
  }
}
