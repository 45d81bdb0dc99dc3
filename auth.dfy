/** The session store of src/contexts/AuthContext.jsx: the in-memory user, the
    `loading` flag of the initial restore, and the two localStorage keys it
    keeps in step (`auth_token`, `user_data`). Server replies are inputs; each
    one passes through the 401 interceptor of src/api.js and the error wrapping
    of src/musicService.js before the provider sees it, as in the source. */
module Auth {
  import opened JsCore
  import Api
  import MusicService

  /** The fields of a user object the client reads; JsUndefined when absent. */
  datatype User = User(id: JsValue, email: JsValue, role: JsValue, isAdminField: JsValue, adminField: JsValue)

  /** `response.data` of a successful login. */
  datatype LoginData = LoginData(token: string, user: User)

  /** What `login` resolves to: `{success}` or `{success, message}`. */
  datatype LoginResult = LoginResult(success: bool, message: Option<string>)

  /** The form fields handed to `login`, sent as the request body. */
  type Credentials = map<string, string>

  /** `v === true || v === 1` */
  predicate IsTrueOrOne(v: JsValue) {
    v == JsBool(true) || v == JsNumber(1)
  }

  /** `isAdmin()`: a user whose role is "admin" or one of whose admin flags is
      strictly `true` or `1`. */
  predicate IsAdmin(user: Option<User>)
    ensures IsAdmin(user) ==> user.Some?
    ensures user.Some? && user.value.role == JsString("admin") ==> IsAdmin(user)
    ensures user.Some? && (IsTrueOrOne(user.value.isAdminField) || IsTrueOrOne(user.value.adminField)) ==> IsAdmin(user)
    ensures IsAdmin(user) ==>
      (user.value.role == JsString("admin") || IsTrueOrOne(user.value.isAdminField) || IsTrueOrOne(user.value.adminField))
  {
    user.Some? && (user.value.role == JsString("admin") || IsTrueOrOne(user.value.isAdminField) || IsTrueOrOne(user.value.adminField))
  }

  /** `isAuthenticated: !!user` */
  predicate IsAuthenticated(user: Option<User>)
    ensures IsAuthenticated(user) <==> user != None
    ensures IsAdmin(user) ==> IsAuthenticated(user)
  {
    user.Some?
  }

  /** Strict equality makes the admin gate narrower than truthiness. */
  lemma AdminImpliesTruthyMarker(u: User)
    requires IsAdmin(Some(u))
    ensures Truthy(u.role) || Truthy(u.isAdminField) || Truthy(u.adminField)
  {
  }

  /** Flags that are truthy but not strictly `true` or `1` ("1", 2, "true") do not make an admin. */
  lemma LooseFlagsAreNotAdmin(u: User)
    requires u.role != JsString("admin")
    requires u.isAdminField in {JsString("1"), JsNumber(2), JsString("true")}
    requires u.adminField in {JsString("1"), JsNumber(2), JsString("true")}
    ensures Truthy(u.isAdminField) && Truthy(u.adminField) && !IsAdmin(Some(u))
  {
  }

  /** Only an authenticated user can be an admin. */
  lemma AdminIsAuthenticated(user: Option<User>)
    ensures IsAdmin(user) ==> IsAuthenticated(user)
    ensures user == None ==> !IsAdmin(user) && !IsAuthenticated(user)
  {
  }

  /** Both keys hold a non-empty value: the condition under which restore asks the server. */
  predicate SessionStored(items: map<string, string>) {
    TruthyText(Api.Lookup(items, Api.TokenKey)) && TruthyText(Api.Lookup(items, Api.UserKey))
  }

  /** The `getCurrentUser` reply that confirms a stored session. */
  predicate Confirms<D>(reply: Api.Reply<MusicService.Envelope<D>>) {
    reply.Response? && reply.data.success
  }

  class AuthProvider {
    var user: Option<User>
    var loading: bool
    const storage: Api.LocalStorage
    /** `JSON.stringify` on users, kept abstract. */
    const stringify: User -> string

    constructor(storage: Api.LocalStorage, stringify: User -> string)
      ensures this.storage == storage && this.stringify == stringify
      ensures user == None && loading
    {
      this.storage := storage;
      this.stringify := stringify;
      user := None;
      loading := true;
    }

    /** `checkAuth`, run once on mount. */
    method CheckAuth(reply: Api.Reply<MusicService.Envelope<User>>)
      modifies this, storage
      ensures !loading
      ensures !SessionStored(old(storage.items)) ==> user == old(user) && storage.items == old(storage.items)
      ensures SessionStored(old(storage.items)) && Confirms(reply) ==>
        user == Some(reply.data.data) && storage.items == old(storage.items)
      ensures SessionStored(old(storage.items)) && !Confirms(reply) ==>
        user == None && storage.items == old(storage.items) - {Api.TokenKey, Api.UserKey}
    {
      var token := storage.GetItem(Api.TokenKey);
      var userData := storage.GetItem(Api.UserKey);
      if TruthyText(token) && TruthyText(userData) {
        var r := Api.OnResponse(storage, reply);
        var response := MusicService.Call<Credentials, MusicService.Envelope<User>>(MusicService.GetCurrentUser, r);
        if response.Returned? && response.data.success {
          user := Some(response.data.data);
        } else {
          storage.RemoveItem(Api.TokenKey);
          storage.RemoveItem(Api.UserKey);
          user := None;
        }
      }
      loading := false;
    }

    /** `login(credentials)`; it never throws. */
    method Login(credentials: Credentials, reply: Api.Reply<MusicService.Envelope<LoginData>>) returns (result: LoginResult)
      modifies this, storage
      ensures loading == old(loading)
      ensures Confirms(reply) ==> var d := reply.data.data;
        && result == LoginResult(true, None) && user == Some(d.user)
        && storage.items == old(storage.items)[Api.TokenKey := d.token][Api.UserKey := stringify(d.user)]
      ensures reply.Response? && !reply.data.success ==>
        result == LoginResult(false, reply.data.message) && user == old(user) && storage.items == old(storage.items)
      ensures reply.Failure? ==>
        && result == LoginResult(false, Some(MusicService.ErrorPrefix(MusicService.Login(credentials)) + ": " + reply.error.message))
        && user == old(user) && storage.items == Api.AfterError(old(storage.items), reply.error)
    {
      var r := Api.OnResponse(storage, reply);
      var response := MusicService.Call(MusicService.Login(credentials), r);
      match response
      case Returned(envelope) =>
        if envelope.success {
          storage.SetItem(Api.TokenKey, envelope.data.token);
          storage.SetItem(Api.UserKey, stringify(envelope.data.user));
          user := Some(envelope.data.user);
          result := LoginResult(true, None);
        } else {
          result := LoginResult(false, envelope.message);
        }
      case Raised(message) =>
        result := LoginResult(false, Some(message));
    }

    /** `logout()`: the local session ends whatever the server answers, and no error escapes. */
    method Logout(reply: Api.Reply<MusicService.Envelope<JsValue>>)
      modifies this, storage
      ensures loading == old(loading)
      ensures user == None && storage.items == old(storage.items) - {Api.TokenKey, Api.UserKey}
    {
      var r := Api.OnResponse(storage, reply);
      var _ := MusicService.Call<Credentials, MusicService.Envelope<JsValue>>(MusicService.Logout, r);
      storage.RemoveItem(Api.TokenKey);
      storage.RemoveItem(Api.UserKey);
      user := None;
    }
  }

  /** After a successful login, any later request answered with 401 leaves the
      user signed in while the token is gone and `user_data` stays behind: the
      provider's user no longer implies a stored token. */
  method UnauthorizedAfterLogin(u: User, token: string, stringify: User -> string)
    returns (authenticated: bool, tokenStored: bool, userDataStored: bool)
    requires token != ""
    ensures authenticated && !tokenStored && userDataStored
  {
    var storage := new Api.LocalStorage(map[]);
    var auth := new AuthProvider(storage, stringify);
    auth.CheckAuth(Api.Failure(Api.HttpError(None, "Network Error")));
    var _ := auth.Login(map["email" := "admin@test.com", "password" := "password123"],
      Api.Response(MusicService.Envelope(true, LoginData(token, u), None)));
    var _ := Api.OnResponse<JsValue>(storage, Api.Failure(Api.HttpError(Some(401), "Unauthorized")));
    authenticated := IsAuthenticated(auth.user);
    tokenStored := Api.TokenKey in storage.items;
    userDataStored := Api.UserKey in storage.items;
  }

  /** On the next page load with only `user_data` left, restore does not ask the
      server and does not clean up: no user, and the stale `user_data` survives. */
  method ReloadWithStaleUserData(staleUser: string, reply: Api.Reply<MusicService.Envelope<User>>, stringify: User -> string)
    returns (authenticated: bool, loading: bool, userDataStored: bool)
    requires staleUser != ""
    ensures !authenticated && !loading && userDataStored
  {
    var storage := new Api.LocalStorage(map[Api.UserKey := staleUser]);
    var auth := new AuthProvider(storage, stringify);
    auth.CheckAuth(reply);
    authenticated := IsAuthenticated(auth.user);
    loading := auth.loading;
    userDataStored := Api.UserKey in storage.items;
  }
}
