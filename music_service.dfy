/** The service layer of src/musicService.js: eleven operations, each one HTTP
    call through the client of src/api.js. A call either returns the response
    body as it came, or raises an error whose message is an operation-specific
    prefix, ": ", and the transport's message. */
module MusicService {
  import opened JsCore
  import Api

  datatype Verb = Get | Post | Patch | Delete

  /** The service methods with their arguments; B is the type of request bodies. */
  datatype Operation<+B> =
    | GetMusics
    | GetTop5
    | SuggestMusic(musicData: B)
    | Login(credentials: B)
    | Logout
    | GetCurrentUser
    | GetPendingSuggestions
    | ApproveSuggestion(suggestionId: JsValue)
    | RejectSuggestion(suggestionId: JsValue)
    | DeleteMusic(musicId: JsValue)
    | UpdateMusic(musicId: JsValue, musicData: B)

  /** What is handed to the client: method, path relative to the base URL, body. */
  datatype Request<+B> = Request(verb: Verb, path: string, body: Option<B>)

  /** The body every endpoint answers with. */
  datatype Envelope<+D> = Envelope(success: bool, data: D, message: Option<string>)

  /** What an awaited service call gives its caller: the value, or an Error with a message. */
  datatype Outcome<+T> = Returned(data: T) | Raised(message: string)

  /** The method's name on the `musicService` object. */
  function Name<B>(op: Operation<B>): string {
    match op
    case GetMusics => "getMusics"
    case GetTop5 => "getTop5"
    case SuggestMusic(_) => "suggestMusic"
    case Login(_) => "login"
    case Logout => "logout"
    case GetCurrentUser => "getCurrentUser"
    case GetPendingSuggestions => "getPendingSuggestions"
    case ApproveSuggestion(_) => "approveSuggestion"
    case RejectSuggestion(_) => "rejectSuggestion"
    case DeleteMusic(_) => "deleteMusic"
    case UpdateMusic(_, _) => "updateMusic"
  }

  /** The id spliced into the path, as a template literal renders it. */
  function IdText<B>(op: Operation<B>): Option<string> {
    match op
    case ApproveSuggestion(id) => Some(ToText(id))
    case RejectSuggestion(id) => Some(ToText(id))
    case DeleteMusic(id) => Some(ToText(id))
    case UpdateMusic(id, _) => Some(ToText(id))
    case _ => None
  }

  /** The request each method sends. */
  function RouteOf<B>(op: Operation<B>): (r: Request<B>)
    ensures r.body.Some? <==> op.SuggestMusic? || op.Login? || op.UpdateMusic?
    ensures op.SuggestMusic? || op.UpdateMusic? ==> r.body == Some(op.musicData)
    ensures op.Login? ==> r.body == Some(op.credentials)
  {
    match op
    case GetMusics => Request(Get, "/musicas", None)
    case GetTop5 => Request(Get, "/musicas/top5", None)
    case SuggestMusic(musicData) => Request(Post, "/sugestoes", Some(musicData))
    case Login(credentials) => Request(Post, "/login", Some(credentials))
    case Logout => Request(Post, "/logout", None)
    case GetCurrentUser => Request(Get, "/me", None)
    case GetPendingSuggestions => Request(Get, "/sugestoes/pendentes", None)
    case ApproveSuggestion(id) => Request(Patch, "/sugestoes/" + ToText(id) + "/aprovar", None)
    case RejectSuggestion(id) => Request(Patch, "/sugestoes/" + ToText(id) + "/reprovar", None)
    case DeleteMusic(id) => Request(Delete, "/musicas/" + ToText(id), None)
    case UpdateMusic(id, musicData) => Request(Patch, "/musicas/" + ToText(id), Some(musicData))
  }

  /** The text before ": " in the message of the Error each method throws. */
  function ErrorPrefix<B>(op: Operation<B>): string {
    match op
    case GetMusics => "Erro ao buscar músicas"
    case GetTop5 => "Erro ao buscar top 5"
    case SuggestMusic(_) => "Erro ao sugerir música"
    case Login(_) => "Erro ao fazer login"
    case Logout => "Erro ao fazer logout"
    case GetCurrentUser => "Erro ao buscar usuário atual"
    case GetPendingSuggestions => "Erro ao buscar sugestões pendentes"
    case ApproveSuggestion(_) => "Erro ao aprovar sugestão"
    case RejectSuggestion(_) => "Erro ao reprovar sugestão"
    case DeleteMusic(_) => "Erro ao deletar música"
    case UpdateMusic(_, _) => "Erro ao atualizar música"
  }

  /** An awaited call of `op` whose request settled to `reply`: `response.data`
      as it is (whatever its success flag says), or the wrapped error. */
  function Call<B, T>(op: Operation<B>, reply: Api.Reply<T>): (o: Outcome<T>)
    ensures o.Returned? <==> reply.Response?
    ensures o.Returned? ==> o.data == reply.data
    ensures o.Raised? ==> var p := ErrorPrefix(op);
      |o.message| == |p| + 2 + |reply.error.message|
      && o.message[..|p|] == p && o.message[|p|..|p| + 2] == ": " && o.message[|p| + 2..] == reply.error.message
  {
    match reply
    case Response(data) => Returned(data)
    case Failure(error) => Raised(ErrorPrefix(op) + ": " + error.message)
  }

  // ---------------------------------------------------------------------------
  // Properties of the route table and of the error wrapping

  lemma ApproveRejectRoutesDiffer(s: string, t: string)
    ensures "/sugestoes/" + s + "/aprovar" != "/sugestoes/" + t + "/reprovar"
  {
    var a := "/sugestoes/" + s + "/aprovar";
    var b := "/sugestoes/" + t + "/reprovar";
    assert a[|a| - 8] == '/';
    assert b[|b| - 8] == 'r';
  }

  lemma SuggestionRouteInjective(s: string, t: string, tail: string)
    requires "/sugestoes/" + s + tail == "/sugestoes/" + t + tail
    ensures s == t
  {
    var a := "/sugestoes/" + s + tail;
    assert s == a[11..|a| - |tail|];
  }

  lemma SuggestionAndMusicRoutesDiffer(s: string, tail: string, t: string)
    ensures "/sugestoes/" + s + tail != "/musicas/" + t
  {
    var a, b := "/sugestoes/" + s + tail, "/musicas/" + t;
    assert a[1] == 's' && b[1] == 'm';
  }

  lemma MusicRouteInjective(s: string, t: string)
    requires "/musicas/" + s == "/musicas/" + t
    ensures s == t
  {
    var a := "/musicas/" + s;
    assert s == a[9..];
  }

  /** Method and path together name the operation, and its id as rendered:
      no two service methods share a route. */
  lemma {:induction false} RouteDeterminesOperation<B>(a: Operation<B>, b: Operation<B>)
    requires RouteOf(a).verb == RouteOf(b).verb && RouteOf(a).path == RouteOf(b).path
    ensures Name(a) == Name(b) && IdText(a) == IdText(b)
  {
    match a {
      case ApproveSuggestion(x) =>
        match b {
          case RejectSuggestion(y) => ApproveRejectRoutesDiffer(ToText(x), ToText(y));
          case ApproveSuggestion(y) => SuggestionRouteInjective(ToText(x), ToText(y), "/aprovar");
          case UpdateMusic(y, _) => SuggestionAndMusicRoutesDiffer(ToText(x), "/aprovar", ToText(y));
          case _ =>
        }
      case RejectSuggestion(x) =>
        match b {
          case ApproveSuggestion(y) => ApproveRejectRoutesDiffer(ToText(y), ToText(x));
          case RejectSuggestion(y) => SuggestionRouteInjective(ToText(x), ToText(y), "/reprovar");
          case UpdateMusic(y, _) => SuggestionAndMusicRoutesDiffer(ToText(x), "/reprovar", ToText(y));
          case _ =>
        }
      case UpdateMusic(x, _) =>
        match b {
          case UpdateMusic(y, _) => MusicRouteInjective(ToText(x), ToText(y));
          case ApproveSuggestion(y) => SuggestionAndMusicRoutesDiffer(ToText(y), "/aprovar", ToText(x));
          case RejectSuggestion(y) => SuggestionAndMusicRoutesDiffer(ToText(y), "/reprovar", ToText(x));
          case _ =>
        }
      case DeleteMusic(x) =>
        match b {
          case DeleteMusic(y) => MusicRouteInjective(ToText(x), ToText(y));
          case _ =>
        }
      case _ =>
    }
  }

  /** Each method throws under its own prefix. */
  lemma ErrorPrefixesDistinct<B>(a: Operation<B>, b: Operation<B>)
    requires Name(a) != Name(b)
    ensures ErrorPrefix(a) != ErrorPrefix(b)
  {
  }

  /** Different numeric ids reach different records: their paths differ, for
      every operation that splices an id in. */
  lemma NumericIdsGiveDistinctPaths<B>(a: int, b: int, body: B)
    requires a != b
    ensures RouteOf<B>(ApproveSuggestion(JsNumber(a))).path != RouteOf<B>(ApproveSuggestion(JsNumber(b))).path
    ensures RouteOf<B>(RejectSuggestion(JsNumber(a))).path != RouteOf<B>(RejectSuggestion(JsNumber(b))).path
    ensures RouteOf<B>(DeleteMusic(JsNumber(a))).path != RouteOf<B>(DeleteMusic(JsNumber(b))).path
    ensures RouteOf(UpdateMusic(JsNumber(a), body)).path != RouteOf(UpdateMusic(JsNumber(b), body)).path
  {
    IntTextInjective(a, b);
    if RouteOf<B>(ApproveSuggestion(JsNumber(a))).path == RouteOf<B>(ApproveSuggestion(JsNumber(b))).path {
      SuggestionRouteInjective(ToText(JsNumber(a)), ToText(JsNumber(b)), "/aprovar");
    }
    if RouteOf<B>(RejectSuggestion(JsNumber(a))).path == RouteOf<B>(RejectSuggestion(JsNumber(b))).path {
      SuggestionRouteInjective(ToText(JsNumber(a)), ToText(JsNumber(b)), "/reprovar");
    }
    if RouteOf<B>(DeleteMusic(JsNumber(a))).path == RouteOf<B>(DeleteMusic(JsNumber(b))).path {
      MusicRouteInjective(ToText(JsNumber(a)), ToText(JsNumber(b)));
    }
  }

  /** The routes the tests do not pin: sign-out, the current user, and an update with id 1. */
  lemma UntestedRoutes<B>(body: B)
    ensures RouteOf<B>(Logout) == Request(Post, "/logout", None)
    ensures RouteOf<B>(GetCurrentUser) == Request(Get, "/me", None)
    ensures RouteOf(UpdateMusic(JsNumber(1), body)) == Request(Patch, "/musicas/1", Some(body))
  {
    assert ToText(JsNumber(1)) == "1";
  }

  /** The fixed routes pinned by src/__tests__/musicService.test.js. */
  lemma TestedFixedRoutes<B>(body: B)
    ensures RouteOf<B>(GetMusics) == Request(Get, "/musicas", None)
    ensures RouteOf<B>(GetTop5) == Request(Get, "/musicas/top5", None)
    ensures RouteOf(SuggestMusic(body)) == Request(Post, "/sugestoes", Some(body))
    ensures RouteOf(Login(body)) == Request(Post, "/login", Some(body))
    ensures RouteOf<B>(GetPendingSuggestions) == Request(Get, "/sugestoes/pendentes", None)
  {
  }

  /** The routes with id 1 pinned by the same tests. */
  lemma TestedIdRoutes<B>()
    ensures RouteOf<B>(ApproveSuggestion(JsNumber(1))) == Request(Patch, "/sugestoes/1/aprovar", None)
    ensures RouteOf<B>(RejectSuggestion(JsNumber(1))) == Request(Patch, "/sugestoes/1/reprovar", None)
    ensures RouteOf<B>(DeleteMusic(JsNumber(1))) == Request(Delete, "/musicas/1", None)
  {
    assert ToText(JsNumber(1)) == "1";
  }

  lemma TestedNetworkError<B, T>()
    ensures Call<B, T>(GetMusics, Api.Failure(Api.HttpError(None, "Network Error")))
      == Raised("Erro ao buscar músicas: Network Error")
  {
  }

  lemma TestedLoginError<B, T>(body: B)
    ensures Call<B, T>(Login(body), Api.Failure(Api.HttpError(None, "Unauthorized")))
      == Raised("Erro ao fazer login: Unauthorized")
  {
    assert ErrorPrefix(Login(body)) + ": " + "Unauthorized" == "Erro ao fazer login: Unauthorized";
  }

  lemma TestedDeleteError<B, T>()
    ensures Call<B, T>(DeleteMusic(JsNumber(999)), Api.Failure(Api.HttpError(None, "Not Found")))
      == Raised("Erro ao deletar música: Not Found")
  {
  }
}
