/**
 * `AuthProvider` (frontend/src/contexts/AuthContext.jsx): the session state `token`, `user`
 * and `loading`, the `login`/`logout` actions, and the effect that runs when `token`
 * changes. Two pieces of process-wide state take part: the `"token"` slot of localStorage
 * and axios' default `Authorization` header. The outcome of the `/me` request is an input.
 */
module Session {
  import opened Wrappers
  import opened ClientData

  const TokenKey := "token"
  const AuthorizationKey := "Authorization"

  /** Process-wide mutable state the provider shares with the rest of the page. */
  class Ambient {
    /** `window.localStorage` */
    var storage: map<string, string>
    /** `axios.defaults.headers.common` */
    var headers: map<string, string>

    constructor (storage: map<string, string>, headers: map<string, string>)
      ensures this.storage == storage && this.headers == headers
    {
      this.storage := storage;
      this.headers := headers;
    }
  }

  datatype MeOutcome = MeSucceeded(profile: Profile) | MeFailed

  /**
   * Everything the provider's actions read or change. `effectRanFor` is the token value the
   * effect last ran for (React's remembered dependency), None before its first run.
   */
  datatype SessionState = SessionState(
    token: Option<string>,
    user: Option<Profile>,
    loading: bool,
    effectRanFor: Option<Option<string>>,
    storage: map<string, string>,
    headers: map<string, string>)

  /** `localStorage.getItem("token") || null`: a missing or empty entry reads as null. */
  function StoredToken(storage: map<string, string>): (t: Option<string>)
    ensures t.Some? <==> TokenKey in storage && storage[TokenKey] != ""
    ensures t.Some? ==> t.value == storage[TokenKey]
  {
    if TokenKey in storage && storage[TokenKey] != "" then Some(storage[TokenKey]) else None
  }

  /** The default header the effect leaves for a token: `Bearer <token>` when truthy, none otherwise. */
  predicate HeaderFor(headers: map<string, string>, token: Option<string>) {
    if Truthy(token) then AuthorizationKey in headers && headers[AuthorizationKey] == "Bearer " + token.value
    else AuthorizationKey !in headers
  }

  /** The state on mount: the stored token, no user, loading, effect not yet run. */
  function Initial(storage: map<string, string>, headers: map<string, string>): SessionState {
    SessionState(StoredToken(storage), None, true, None, storage, headers)
  }

  function LoginStep(s: SessionState, newToken: string): SessionState {
    s.(token := Some(newToken), storage := s.storage[TokenKey := newToken])
  }

  function LogoutStep(s: SessionState): SessionState {
    s.(token := None, user := None, storage := s.storage - {TokenKey})
  }

  /** The effect body, for the token in `s`, with the outcome of `/me`. */
  function EffectStep(s: SessionState, me: MeOutcome): SessionState {
    if Truthy(s.token) then
      var sent := s.(headers := s.headers[AuthorizationKey := "Bearer " + s.token.value]);
      var settled := match me
        case MeSucceeded(p) => sent.(user := Some(p))
        case MeFailed => LogoutStep(sent);
      settled.(loading := false)
    else
      s.(headers := s.headers - {AuthorizationKey}, loading := false)
  }

  /** A commit: the effect runs only when the token differs from the one it last ran for. */
  function CommitStep(s: SessionState, me: MeOutcome): SessionState {
    if s.effectRanFor == Some(s.token) then s
    else EffectStep(s.(effectRanFor := Some(s.token)), me)
  }

  /**
   * What holds between actions: the token is what is stored, a user implies a token,
   * `loading` holds until the effect first ran, and the default header is the one the
   * effect set for the token it last ran for.
   */
  predicate Consistent(s: SessionState) {
    && (s.token.Some? ==> TokenKey in s.storage && s.storage[TokenKey] == s.token.value)
    && (s.token.None? ==> StoredToken(s.storage) == None)
    && (s.user.Some? ==> s.token.Some?)
    && (s.loading <==> s.effectRanFor.None?)
    && (s.effectRanFor.Some? ==> HeaderFor(s.headers, s.effectRanFor.value))
  }

  class AuthProvider {
    const ambient: Ambient
    var token: Option<string>
    var user: Option<Profile>
    var loading: bool
    var effectRanFor: Option<Option<string>>

    function State(): SessionState
      reads this, ambient
    {
      SessionState(token, user, loading, effectRanFor, ambient.storage, ambient.headers)
    }

    constructor (ambient: Ambient)
      ensures this.ambient == ambient
      ensures State() == Initial(ambient.storage, ambient.headers)
    {
      this.ambient := ambient;
      token := StoredToken(ambient.storage);
      user := None;
      loading := true;
      effectRanFor := None;
    }

    /** `login(newToken)`: store it and adopt it; `user` and `loading` are left alone. */
    method Login(newToken: string)
      modifies this, ambient`storage
      ensures State() == LoginStep(old(State()), newToken)
    {
      ambient.storage := ambient.storage[TokenKey := newToken];
      token := Some(newToken);
    }

    /** `logout()`: forget the stored token, the token and the user. */
    method Logout()
      modifies this, ambient`storage
      ensures State() == LogoutStep(old(State()))
    {
      ambient.storage := ambient.storage - {TokenKey};
      token := None;
      user := None;
    }

    /**
     * A commit after a render: runs the effect when `token` changed since its last run.
     * `meSentWith` is the default `Authorization` header at the moment `/me` is requested,
     * None when no request is made.
     */
    method Commit(me: MeOutcome) returns (meSentWith: Option<string>)
      modifies this, ambient
      ensures State() == CommitStep(old(State()), me)
      ensures meSentWith == if old(effectRanFor) != Some(old(token)) && Truthy(old(token))
        then Some("Bearer " + old(token).value) else None
    {
      meSentWith := None;
      if effectRanFor == Some(token) {
        return;
      }
      effectRanFor := Some(token);
      if Truthy(token) {
        ambient.headers := ambient.headers[AuthorizationKey := "Bearer " + token.value];
        meSentWith := Some(ambient.headers[AuthorizationKey]);
        match me {
          case MeSucceeded(p) => user := Some(p);
          case MeFailed => Logout();
        }
        loading := false;
      } else {
        ambient.headers := ambient.headers - {AuthorizationKey};
        loading := false;
      }
    }
  }

  /** On mount the token is the stored one (an empty entry counts as none), with no user, loading. */
  lemma InitialState(storage: map<string, string>, headers: map<string, string>)
    ensures var s := Initial(storage, headers);
      && (s.token.Some? <==> TokenKey in storage && storage[TokenKey] != "")
      && s.user.None? && s.loading
      && Consistent(s)
  {
  }

  /** Every action keeps the session consistent. */
  lemma ActionsKeepConsistent(s: SessionState, newToken: string, me: MeOutcome)
    requires Consistent(s)
    ensures Consistent(LoginStep(s, newToken))
    ensures Consistent(LogoutStep(s))
    ensures Consistent(CommitStep(s, me))
  {
  }

  /** After `login(t)` the store holds t and the token is t; the user and loading are untouched. */
  lemma LoginThenRead(s: SessionState, t: string)
    ensures var s' := LoginStep(s, t);
      && s'.storage[TokenKey] == t && s'.token == Some(t)
      && (t != "" ==> StoredToken(s'.storage) == Some(t))
      && s'.user == s.user && s'.loading == s.loading && s'.headers == s.headers
  {
  }

  /** `logout()` leaves no token, no user and an empty store, from any state; doing it twice is doing it once. */
  lemma LogoutFromAnyState(s: SessionState)
    ensures var s' := LogoutStep(s);
      && s'.token.None? && s'.user.None? && TokenKey !in s'.storage && StoredToken(s'.storage).None?
      && s'.loading == s.loading && s'.headers == s.headers
    ensures LogoutStep(LogoutStep(s)) == LogoutStep(s)
  {
  }

  /** The effect re-runs only when the token changed since its last run. */
  lemma CommitWithoutChange(s: SessionState, me: MeOutcome)
    requires s.effectRanFor == Some(s.token)
    ensures CommitStep(s, me) == s
  {
  }

  /**
   * A failed `/me` signs the session out: no token, no user, an empty store, not loading; the
   * commit that follows removes the header and then the session is settled.
   */
  lemma FailedMeSignsOut(s: SessionState, me2: MeOutcome, me3: MeOutcome)
    requires Truthy(s.token) && s.effectRanFor != Some(s.token)
    ensures var s1 := CommitStep(s, MeFailed);
      && s1.token.None? && s1.user.None? && TokenKey !in s1.storage && !s1.loading
      && var s2 := CommitStep(s1, me2);
      && s2.token.None? && s2.user.None? && TokenKey !in s2.storage && !s2.loading
      && AuthorizationKey !in s2.headers
      && CommitStep(s2, me3) == s2
  {
  }

  /** A successful `/me` sets the user to its body, keeps the `Bearer` header, and settles. */
  lemma SucceededMeSignsIn(s: SessionState, p: Profile, me2: MeOutcome)
    requires Truthy(s.token) && s.effectRanFor != Some(s.token)
    ensures var s1 := CommitStep(s, MeSucceeded(p));
      && s1.user == Some(p) && s1.token == s.token && !s1.loading
      && HeaderFor(s1.headers, s1.token)
      && CommitStep(s1, me2) == s1
  {
  }

  /** With no (or an empty) token the effect removes the header and stops loading, without a request. */
  lemma NoTokenEffect(s: SessionState, me: MeOutcome)
    requires !Truthy(s.token) && s.effectRanFor != Some(s.token)
    ensures var s1 := CommitStep(s, me);
      && AuthorizationKey !in s1.headers && !s1.loading
      && s1.token == s.token && s1.user == s.user && s1.storage == s.storage
  {
  }

  /**
   * Start with nothing stored, log in with "abc", and let `/me` succeed: the store holds
   * "abc", the header carries it and the user is the profile `/me` returned.
   */
  lemma LoginScenario(storage: map<string, string>, headers: map<string, string>, p: Profile, me0: MeOutcome)
    requires TokenKey !in storage
    ensures var s1 := CommitStep(Initial(storage, headers), me0);
      && s1.token.None? && s1.user.None? && !s1.loading
      && var s3 := CommitStep(LoginStep(s1, "abc"), MeSucceeded(p));
      && StoredToken(s3.storage) == Some("abc")
      && s3.headers[AuthorizationKey] == "Bearer abc"
      && s3.user == Some(p) && !s3.loading
  {
  }
}
