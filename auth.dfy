/** The session manager (client/contexts/AuthContext.tsx): one `AuthState`
    record, replaced by each handler, and the two secure-store entries it
    persists across restarts. HTTP outcomes and the identity provider's
    answers are parameters of the handlers. */
module Auth {
  import opened Types
  import Api

  const TokenKey := "busnaama_auth_token"
  const UserKey := "busnaama_user"

  /** The `{user, student, driver}` blob kept under `UserKey`. */
  datatype Profile = Profile(user: User, student: Option<Student>, driver: Option<Driver>)

  /** A secure-store entry: a plain string, or the JSON text written by
      `JSON.stringify` of a profile. `JSON.parse` gives that profile back;
      any other text under `UserKey` is a parse error. */
  datatype Stored = Text(text: string) | Serialized(profile: Profile)

  /** The body of a successful `/api/auth/login/` response. */
  datatype LoginBody = LoginBody(token: string, firebaseToken: string)

  /** Where a logout step throws, if any. */
  datatype LogoutFailure = NoFailure | SignOutFails | DeleteTokenFails | DeleteUserFails

  /** Where the forced sign-out's secure-store steps throw, if any: the
      read of the token, then the two deletions. */
  datatype ForcedSignOutFailure = StepsSucceed | TokenReadFails | TokenDeleteFails | ProfileDeleteFails

  const InitialState := AuthState(None, None, None, None, true, false)
  const SignedOut := AuthState(None, None, None, None, false, false)

  /** Entries are truthy unless they are the empty string. */
  predicate StoredTruthy(v: Stored) {
    v.Serialized? || v.text != ""
  }

  /** The state a cold start restores from `store`, or `None` when it only
      stops loading: both entries must be present and truthy and the blob
      must parse. */
  function RestoredSession(store: map<string, Stored>): (r: Option<AuthState>)
    ensures r.Some? <==>
      (&& TokenKey in store && store[TokenKey].Text? && store[TokenKey].text != ""
       && UserKey in store && store[UserKey].Serialized?)
    ensures r.Some? ==>
      var p := store[UserKey].profile;
      r.value == AuthState(Some(p.user), p.student, p.driver, Some(store[TokenKey].text), false, true)
  {
    if TokenKey in store && UserKey in store
       && store[TokenKey].Text? && StoredTruthy(store[TokenKey]) && StoredTruthy(store[UserKey])
    then
      match store[UserKey]
      case Serialized(p) => Some(AuthState(Some(p.user), p.student, p.driver, Some(store[TokenKey].text), false, true))
      case Text(_) => None
    else None
  }

  /** `tokenParam || state.token`: the explicit token unless it is missing or
      empty, then the held one; `None` when neither is truthy. */
  function EffectiveToken(tokenParam: Option<string>, held: Option<string>): (t: Option<string>)
    ensures t.Some? <==> (Truthy(tokenParam) || Truthy(held))
    ensures Truthy(tokenParam) ==> t == tokenParam
    ensures !Truthy(tokenParam) && Truthy(held) ==> t == held
  {
    if Truthy(tokenParam) then tokenParam else if Truthy(held) then held else None
  }

  /** The login request carries the credentials and no token. */
  function LoginRequest(username: string, password: string): (r: Api.Request)
    ensures r.verb == Api.Post && r.endpoint == "/api/auth/login/"
    ensures r.headers == map[Api.ContentType := Api.Json]
    ensures r.body == Api.CredentialsBody(username, password)
  {
    Api.Request(Api.Post, "/api/auth/login/", map[Api.ContentType := Api.Json], Api.CredentialsBody(username, password))
  }

  /** The profile request and the logout request carry only the token. */
  function MeRequest(token: string): (r: Api.Request)
    ensures r.verb == Api.Get && r.endpoint == "/api/auth/me/"
    ensures r.headers == map[Api.Authorization := Api.TokenHeader(token)]
  {
    Api.Request(Api.Get, "/api/auth/me/", map[Api.Authorization := Api.TokenHeader(token)], Api.NoBody)
  }

  function LogoutRequest(token: string): (r: Api.Request)
    ensures r.verb == Api.Post && r.endpoint == "/api/auth/logout/"
    ensures r.headers == map[Api.Authorization := Api.TokenHeader(token)]
  {
    Api.Request(Api.Post, "/api/auth/logout/", map[Api.Authorization := Api.TokenHeader(token)], Api.NoBody)
  }

  /** The secure store after a logout in which `failure` throws: the two
      deletions run only after the identity provider's sign-out, one after
      the other, and stop at the first throw. */
  function StoreAfterLogout(store: map<string, Stored>, failure: LogoutFailure): (r: map<string, Stored>)
    ensures r.Keys <= store.Keys
    ensures forall k :: k in r ==> r[k] == store[k]
    ensures failure.NoFailure? ==> TokenKey !in r && UserKey !in r
    ensures failure.DeleteUserFails? ==> TokenKey !in r
  {
    match failure
    case NoFailure => store - {TokenKey, UserKey}
    case SignOutFails => store
    case DeleteTokenFails => store
    case DeleteUserFails => store - {TokenKey}
  }

  /** A logout whose token deletion ran leaves nothing for the next cold
      start to restore. */
  lemma LogoutForgetsSession(store: map<string, Stored>, failure: LogoutFailure)
    requires failure.NoFailure? || failure.DeleteUserFails?
    ensures RestoredSession(StoreAfterLogout(store, failure)) == None
  {
  }

  /** A logout interrupted before the token is deleted leaves the session
      restorable: the next cold start signs back in with the same state it
      would have restored before the logout. */
  lemma InterruptedLogoutKeepsSession(store: map<string, Stored>, failure: LogoutFailure)
    requires failure.SignOutFails? || failure.DeleteTokenFails?
    ensures RestoredSession(StoreAfterLogout(store, failure)) == RestoredSession(store)
  {
  }

  class AuthProvider {
    var state: AuthState
    var store: map<string, Stored>

    /** The token entry only ever holds a plain string; a session is
        authenticated exactly when a token is held, and then it has stopped
        loading. */
    ghost predicate Valid()
      reads this
    {
      && (TokenKey in store ==> store[TokenKey].Text?)
      && (state.isAuthenticated <==> state.token.Some?)
      && (state.isAuthenticated ==> !state.isLoading)
    }

    /** The provider mounts over whatever the secure store kept from an
        earlier run. */
    constructor (persisted: map<string, Stored>)
      requires TokenKey in persisted ==> persisted[TokenKey].Text?
      ensures Valid()
      ensures state == InitialState && store == persisted
    {
      state := InitialState;
      store := persisted;
    }

    /** loadStoredAuth (AuthContext.tsx:40-62). `readFails`: reading the
        secure store throws. */
    method LoadStoredAuth(readFails: bool)
      requires Valid()
      modifies this
      ensures Valid()
      ensures store == old(store)
      ensures !readFails && RestoredSession(store).Some? ==> state == RestoredSession(store).value
      ensures readFails || RestoredSession(store).None? ==> state == old(state).(isLoading := false)
    {
      if readFails {
        state := state.(isLoading := false);
        return;
      }
      var restored := RestoredSession(store);
      if restored.Some? {
        state := restored.value;
      } else {
        state := state.(isLoading := false);
      }
    }

    /** refreshUser (AuthContext.tsx:166-186) with the held token taken to be
        `held`: the handler reads the token of the render it was made in. */
    method RefreshWith(tokenParam: Option<string>, held: Option<string>, me: Api.Response<Profile>)
      returns (o: Outcome)
      requires Valid()
      modifies this
      ensures Valid()
      ensures EffectiveToken(tokenParam, held).None? ==> o == Ok && unchanged(this)
      ensures EffectiveToken(tokenParam, held).Some? && me.Rejected? ==> o == Thrown(me.error) && unchanged(this)
      ensures EffectiveToken(tokenParam, held).Some? && me.Responded? && !me.Ok() ==> o == Ok && unchanged(this)
      ensures EffectiveToken(tokenParam, held).Some? && me.Ok() ==> (o == Ok
        && store == old(store)[UserKey := Serialized(me.body)]
        && state == old(state).(user := Some(me.body.user), student := me.body.student, driver := me.body.driver))
    {
      var token := EffectiveToken(tokenParam, held);
      if token.None? {
        return Ok;
      }
      if me.Rejected? {
        return Thrown(me.error);
      }
      if !me.Ok() {
        return Ok;
      }
      var data := me.body;
      store := store[UserKey := Serialized(Profile(data.user, data.student, data.driver))];
      state := state.(user := Some(data.user), student := data.student, driver := data.driver);
      o := Ok;
    }

    /** refreshUser as the screens call it: against the token held now. */
    method RefreshUser(tokenParam: Option<string>, me: Api.Response<Profile>) returns (o: Outcome)
      requires Valid()
      modifies this
      ensures Valid()
      ensures EffectiveToken(tokenParam, old(state).token).None? ==> o == Ok && unchanged(this)
      ensures EffectiveToken(tokenParam, old(state).token).Some? && me.Rejected? ==> o == Thrown(me.error) && unchanged(this)
      ensures EffectiveToken(tokenParam, old(state).token).Some? && me.Responded? && !me.Ok() ==> o == Ok && unchanged(this)
      ensures EffectiveToken(tokenParam, old(state).token).Some? && me.Ok() ==> (o == Ok
        && store == old(store)[UserKey := Serialized(me.body)]
        && state == old(state).(user := Some(me.body.user), student := me.body.student, driver := me.body.driver))
    {
      o := RefreshWith(tokenParam, state.token, me);
    }

    /** login (AuthContext.tsx:92-126). `resp` answers the login request,
        `signIn` is the identity provider's custom-token sign-in (`Some`
        error when it throws), `me` answers the profile request. */
    method Login(resp: Api.Response<LoginBody>, signIn: Option<string>, me: Api.Response<Profile>)
      returns (o: Outcome)
      requires Valid()
      modifies this
      ensures Valid()
      // a rejected or non-OK login changes nothing
      ensures resp.Rejected? ==> o == Thrown(resp.error) && unchanged(this)
      ensures resp.Responded? && !resp.Ok() ==> o == Thrown("Login failed") && unchanged(this)
      // the token is persisted before the identity provider is asked
      ensures resp.Ok() ==> TokenKey in store && store[TokenKey] == Text(resp.body.token)
      ensures resp.Ok() && signIn.Some? ==>
        o == Thrown(signIn.value) && state == old(state) && store == old(store)[TokenKey := Text(resp.body.token)]
      // then the session is authenticated with that token, and the profile
      // is fetched with it
      ensures resp.Ok() && signIn.None? ==> (
        && state.token == Some(resp.body.token) && state.isAuthenticated && !state.isLoading
        && var t := EffectiveToken(Some(resp.body.token), old(state).token);
           if t.Some? && me.Ok() then
             && o == Ok
             && state.user == Some(me.body.user) && state.student == me.body.student && state.driver == me.body.driver
             && store == old(store)[TokenKey := Text(resp.body.token)][UserKey := Serialized(me.body)]
           else
             && o == (if t.Some? && me.Rejected? then Thrown(me.error) else Ok)
             && state.user == None && state.student == None && state.driver == None
             && store == old(store)[TokenKey := Text(resp.body.token)])
    {
      if resp.Rejected? {
        return Thrown(resp.error);
      }
      if !resp.Ok() {
        return Thrown("Login failed");
      }
      var data := resp.body;
      var held := state.token;
      store := store[TokenKey := Text(data.token)];
      if signIn.Some? {
        return Thrown(signIn.value);
      }
      state := AuthState(None, None, None, Some(data.token), false, true);
      o := RefreshWith(Some(data.token), held, me);
    }

    /** logout (AuthContext.tsx:128-162). Returns whether the backend logout
        was attempted; its failure is ignored. `failure` is the step that
        throws, if any: the state is cleared whatever happens, but the
        secure-store entries are deleted only up to the failing step. */
    method Logout(failure: LogoutFailure) returns (backendCalled: bool, request: Option<Api.Request>)
      requires Valid()
      modifies this
      ensures Valid()
      ensures state == SignedOut
      ensures backendCalled <==> Truthy(old(state).token)
      ensures backendCalled ==> request == Some(LogoutRequest(old(state).token.value))
      ensures !backendCalled ==> request == None
      ensures store == StoreAfterLogout(old(store), failure)
    {
      backendCalled := Truthy(state.token);
      request := if backendCalled then Some(LogoutRequest(state.token.value)) else None;
      if failure != SignOutFails && failure != DeleteTokenFails {
        store := store - {TokenKey};
        if failure != DeleteUserFails {
          store := store - {UserKey};
        }
      }
      state := SignedOut;
    }

    /** The `onAuthStateChanged` handler (AuthContext.tsx:64-86): a signed-out
        report while a token is stored forces a local sign-out; otherwise
        nothing happens. `failure` is the store step that throws, if any: a
        throw ends the handler there, so the state is only cleared once both
        deletions have run. */
    method OnAuthStateChanged(signedIn: bool, failure: ForcedSignOutFailure)
      requires Valid()
      modifies this
      ensures Valid()
      ensures var forced := !signedIn && failure != TokenReadFails
                            && TokenKey in old(store) && old(store)[TokenKey].text != "";
        && (!forced || failure == TokenDeleteFails ==> unchanged(this))
        && (forced && failure == ProfileDeleteFails ==> state == old(state) && store == old(store) - {TokenKey})
        && (forced && failure == StepsSucceed ==> state == SignedOut && store == old(store) - {TokenKey, UserKey})
    {
      if signedIn || failure == TokenReadFails {
        return;
      }
      if TokenKey in store && StoredTruthy(store[TokenKey]) {
        if failure == TokenDeleteFails {
          return;
        }
        store := store - {TokenKey};
        if failure == ProfileDeleteFails {
          return;
        }
        store := store - {UserKey};
        state := SignedOut;
      }
    }
  }
}
