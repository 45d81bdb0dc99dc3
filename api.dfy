/** The HTTP client of src/api.js: its defaults, the request interceptor that
    attaches the stored token as a bearer credential, and the response
    interceptor that forgets the token when the server answers 401.
    The browser's localStorage is a class holding a string-to-string map. */
module Api {
  import opened JsCore

  const TokenKey := "auth_token"
  const UserKey := "user_data"
  const DefaultBaseUrl := "http://localhost:8000/api"
  const TimeoutMs: nat := 10000
  const AuthorizationHeader := "Authorization"
  const BearerPrefix := "Bearer "

  /** The headers every request starts with. */
  const DefaultHeaders: map<string, string> :=
    map["Content-Type" := "application/json", "Accept" := "application/json"]

  /** `process.env.REACT_APP_API_URL || 'http://localhost:8000/api'`; the
      environment variable is a parameter (None when unset). */
  function BaseUrl(env: Option<string>): (url: string)
    ensures url != ""
    ensures TruthyText(env) ==> url == env.value
    ensures url != DefaultBaseUrl ==> env.Some? && url == env.value
  {
    if TruthyText(env) then env.value else DefaultBaseUrl
  }

  /** `localStorage.getItem(key)`: null (None) for a missing key. */
  function Lookup(items: map<string, string>, key: string): (v: Option<string>)
    ensures v.Some? <==> key in items
    ensures v.Some? ==> v.value == items[key]
  {
    if key in items then Some(items[key]) else None
  }

  class LocalStorage {
    var items: map<string, string>

    constructor(initial: map<string, string>)
      ensures items == initial
    {
      items := initial;
    }

    method GetItem(key: string) returns (v: Option<string>)
      ensures v == Lookup(items, key)
    {
      v := if key in items then Some(items[key]) else None;
    }

    method SetItem(key: string, value: string)
      modifies this
      ensures items == old(items)[key := value]
    {
      items := items[key := value];
    }

    method RemoveItem(key: string)
      modifies this
      ensures items == old(items) - {key}
    {
      items := items - {key};
    }
  }

  /** The part of an outgoing request the instance configures: its headers and its timeout. */
  class RequestConfig {
    var headers: map<string, string>
    var timeoutMs: nat

    /** `axios.create({ baseURL, timeout: 10000, headers })` */
    constructor()
      ensures headers == DefaultHeaders && timeoutMs == TimeoutMs
    {
      headers := DefaultHeaders;
      timeoutMs := TimeoutMs;
    }
  }

  /** The headers after the request interceptor, given what getItem returned. */
  function WithBearer(headers: map<string, string>, token: Option<string>): (h: map<string, string>)
    ensures TruthyText(token) ==> AuthorizationHeader in h && h[AuthorizationHeader] == BearerPrefix + token.value
    ensures !TruthyText(token) ==> h == headers
    ensures forall k :: k != AuthorizationHeader ==> (k in h <==> k in headers)
    ensures forall k :: k in headers && k != AuthorizationHeader ==> h[k] == headers[k]
  {
    if TruthyText(token) then headers[AuthorizationHeader := BearerPrefix + token.value] else headers
  }

  /** The Authorization value is `Bearer`, one space and the token (the
      credentials form of section 2.1 of RFC 6750), so the token can be read back. */
  lemma BearerCarriesToken(headers: map<string, string>, token: string)
    requires token != ""
    ensures var v := WithBearer(headers, Some(token))[AuthorizationHeader];
      |v| > |BearerPrefix| && v[..6] == "Bearer" && v[6] == ' ' && v[|BearerPrefix|..] == token
  {
    var v := WithBearer(headers, Some(token))[AuthorizationHeader];
    assert v == BearerPrefix + token;
    assert v[..|BearerPrefix|] == BearerPrefix;
  }

  /** The request interceptor (src/api.js:17-28). */
  method OnRequest(storage: LocalStorage, config: RequestConfig)
    modifies config
    ensures config.headers == WithBearer(old(config.headers), Lookup(storage.items, TokenKey))
    ensures config.timeoutMs == old(config.timeoutMs)
  {
    var token := storage.GetItem(TokenKey);
    if token.Some? && token.value != "" {
      config.headers := config.headers[AuthorizationHeader := BearerPrefix + token.value];
    }
  }

  /** What axios rejects with: `error.response?.status` (None when no response
      arrived) and `error.message`. */
  datatype HttpError = HttpError(status: Option<int>, message: string)

  /** What a request settles to: a response whose body is `data`, or a rejection. */
  datatype Reply<+T> = Response(data: T) | Failure(error: HttpError)

  /** The storage after the response interceptor has seen a rejection. */
  function AfterError(items: map<string, string>, err: HttpError): (r: map<string, string>)
    ensures TokenKey in r <==> TokenKey in items && err.status != Some(401)
    ensures forall k :: k != TokenKey ==> (k in r <==> k in items)
    ensures forall k :: k in r ==> k in items && r[k] == items[k]
  {
    if err.status == Some(401) then items - {TokenKey} else items
  }

  /** The response interceptor (src/api.js:31-43): the reply is passed on
      unchanged, and a 401 rejection first removes the stored token. */
  method OnResponse<T>(storage: LocalStorage, reply: Reply<T>) returns (r: Reply<T>)
    modifies storage
    ensures r == reply
    ensures storage.items == if reply.Failure? then AfterError(old(storage.items), reply.error) else old(storage.items)
  {
    if reply.Failure? && reply.error.status == Some(401) {
      storage.RemoveItem(TokenKey);
    }
    r := reply;
  }

  /** A 401 forgets the token but leaves the stored user behind. */
  lemma UnauthorizedKeepsUserData(items: map<string, string>, message: string)
    requires TokenKey in items && UserKey in items
    ensures var r := AfterError(items, HttpError(Some(401), message));
      TokenKey !in r && UserKey in r && r[UserKey] == items[UserKey]
  {
  }
}
