/**
 * The navigation bar (frontend/src/components/Navbar.jsx): the title goes home, Logout ends
 * the session and goes to the log-in page, and the signed-in user is named.
 */
module Navbar {
  import opened Wrappers
  import opened ClientData
  import Session

  /** `user && (user.username || user.email)`: nothing without a user. */
  function DisplayName(user: Option<Profile>): (name: Option<string>)
    ensures user.None? <==> name.None?
    ensures user.Some? && user.value.username != "" ==> name == Some(user.value.username)
    ensures user.Some? && user.value.username == "" ==> name == Some(user.value.email)
  {
    match user
    case None => None
    case Some(p) => Some(if p.username != "" then p.username else p.email)
  }

  /** Logout: the session forgets token and user, and the page goes to `/login`. */
  method HandleLogout(session: Session.AuthProvider) returns (nav: Route)
    modifies session, session.ambient`storage
    ensures session.State() == Session.LogoutStep(old(session.State()))
    ensures nav == LoginPage
  {
    session.Logout();
    nav := LoginPage;
  }

  /** After Logout the bar names nobody and nothing is stored under the token key. */
  lemma LogoutClearsName(s: Session.SessionState)
    ensures DisplayName(Session.LogoutStep(s).user).None?
    ensures Session.StoredToken(Session.LogoutStep(s).storage).None?
  {
  }
}
