/**
 * The local OAuth helper (oauth_server.py): `GET /` issues a fresh CSRF state
 * and redirects to the Facebook login dialog; `GET /callback` checks the
 * state, exchanges the code for a short-lived token and that for a
 * long-lived one, asks for the token's details, writes the token to `.env`
 * and schedules the process exit; every other path is 404.
 *
 * What the outside world answers (the three HTTP responses, whether the
 * `.env` write worked, the random state) is given to the handler as values.
 */
module OAuth {
  import opened Wrappers
  import opened Values
  import opened UrlEncode
  import Graph
  import Json

  const ApiVersion: string := "v23.0"
  const RedirectUri: string := "http://localhost:8000/callback"
  const Permissions: seq<string> := ["ads_read", "ads_management", "business_management", "read_insights"]
  const DialogUrl: string := "https://www.facebook.com/" + ApiVersion + "/dialog/oauth?"
  const TokenUrl: string := "https://graph.facebook.com/" + ApiVersion + "/oauth/access_token"
  const DebugTokenUrl: string := "https://graph.facebook.com/" + ApiVersion + "/debug_token"
  const CsrfMessage: string := "Invalid state parameter. Possible CSRF attack."

  /** `FB_APP_ID` and `FB_APP_SECRET` as read from the environment at start-up. */
  datatype Config = Config(appId: Option<string>, appSecret: Option<string>)

  /** `str(x)` for an optional string: None prints as "None". */
  function PyStr(x: Option<string>): string {
    match x
    case Some(s) => s
    case None => "None"
  }

  function OptValue(x: Option<string>): Value {
    match x
    case Some(s) => VStr(s)
    case None => VNone
  }

  /**
   * One outbound `requests.get` and what it gave: it raised (connection
   * failure, an HTTP error status, a body that is not JSON), or it gave
   * the decoded JSON body.
   */
  datatype HttpOutcome = Raised(message: string) | Responded(body: Value)

  /** Everything the handler learns from outside while serving one request. */
  datatype Remote = Remote(
    codeResponse: HttpOutcome,   // the code-for-token exchange
    longResponse: HttpOutcome,   // the long-lived token exchange
    infoResponse: HttpOutcome,   // `debug_token`
    writeOk: bool)               // `set_key` on `.env` did not raise

  /** What the browser receives. */
  datatype Response =
    | Redirect(location: string)                    // 302 with a Location header
    | ErrorPage(code: int, message: string)         // `send_error`
    | TokenPage(token: Value, saved: bool, info: Value)  // 200, the success page
    | BrokenTokenPage(token: Value, saved: bool, info: Value, bodyWritten: bool, error: string)
        // 200 and its headers, the page body when it was written, then `send_error(500, error)`
    | DeniedPage(error: string, description: string)     // 400, the user refused
    | NoResponse                                    // the handler returns without answering

  /** The first value of a query parameter, as `parse_qs(q)[key][0]`. */
  function First(query: seq<(string, string)>, key: string): (r: Option<string>)
    ensures r.None? <==> forall i :: 0 <= i < |query| ==> query[i].0 != key
    ensures r.Some? ==>
              exists i :: 0 <= i < |query| && query[i] == (key, r.value) &&
                forall j :: 0 <= j < i ==> query[j].0 != key
    decreases |query|
  {
    if query == [] then None
    else if query[0].0 == key then Some(query[0].1)
    else
      var r := First(query[1..], key);
      assert forall i :: 0 <= i < |query| - 1 ==> query[1..][i] == query[i + 1];
      r
  }

  /** The login-dialog parameters, in the order the dict literal lists them. */
  function AuthParams(cfg: Config, state: string): seq<(string, string)> {
    [("client_id", PyStr(cfg.appId)), ("redirect_uri", RedirectUri), ("state", state),
     ("scope", CommaJoin(Permissions)), ("response_type", "code")]
  }

  function AuthUrl(cfg: Config, state: string): string {
    DialogUrl + Urlencode(AuthParams(cfg, state))
  }

  /** The code-for-token request. */
  function CodeRequest(cfg: Config, code: string): Graph.Request {
    Graph.Request(TokenUrl, map["client_id" := OptValue(cfg.appId), "client_secret" := OptValue(cfg.appSecret),
                                "redirect_uri" := VStr(RedirectUri), "code" := VStr(code)])
  }

  /** The short-for-long-lived token request of `get_long_lived_token`. */
  function LongLivedRequest(cfg: Config, shortToken: Value): Graph.Request {
    Graph.Request(TokenUrl, map["grant_type" := VStr("fb_exchange_token"), "client_id" := OptValue(cfg.appId),
                                "client_secret" := OptValue(cfg.appSecret), "fb_exchange_token" := shortToken])
  }

  /** The `debug_token` request of `get_token_info`, authenticated as the app. */
  function TokenInfoRequest(cfg: Config, token: Value): Graph.Request {
    Graph.Request(DebugTokenUrl, map["input_token" := token,
                                     "access_token" := VStr(PyStr(cfg.appId) + "|" + PyStr(cfg.appSecret))])
  }

  /** `type(v).__name__`. */
  function TypeName(v: Value): string {
    match v
    case VNone => "NoneType"
    case VBool(_) => "bool"
    case VInt(_) => "int"
    case VStr(_) => "str"
    case VList(_) => "list"
    case VDict(_) => "dict"
  }

  /** `data.get(key, default)`: on anything but a dict it raises AttributeError with this text. */
  function Get(data: Value, key: string, default: Value): Result<Value, string> {
    if data.VDict? then Success(DictGet(data.entries, key, default))
    else Failure("'" + TypeName(data) + "' object has no attribute 'get'")
  }

  /**
   * `get_long_lived_token`: the body's `access_token`; every failure,
   * including a body that is not a dict, is caught and gives None.
   */
  function LongLivedToken(resp: HttpOutcome): (token: Value)
    ensures resp.Raised? ==> token == VNone
    ensures resp.Responded? && !resp.body.VDict? ==> token == VNone
    ensures Truthy(token) ==>
              resp.Responded? && resp.body.VDict? &&
              exists i :: 0 <= i < |resp.body.entries| && resp.body.entries[i] == ("access_token", token)
  {
    match resp
    case Raised(_) => VNone
    case Responded(data) =>
      match Get(data, "access_token", VNone)
      case Success(t) => t
      case Failure(_) => VNone
  }

  /** `get_token_info`: the body's `data` entry; every failure gives `{}`. */
  function TokenInfo(resp: HttpOutcome): (info: Value)
    ensures resp.Raised? ==> info == VDict([])
    ensures resp.Responded? && !resp.body.VDict? ==> info == VDict([])
    ensures resp.Responded? && resp.body.VDict? &&
            (forall i :: 0 <= i < |resp.body.entries| ==> resp.body.entries[i].0 != "data") ==>
              info == VDict([])
  {
    match resp
    case Raised(_) => VDict([])
    case Responded(data) =>
      match Get(data, "data", VDict([]))
      case Success(d) => d
      case Failure(_) => VDict([])
  }

  /** The index `', '.join` names when it meets an item that is not a string: the first one. */
  function FirstNonString(items: seq<Value>): (r: Option<nat>)
    ensures r.None? <==> forall i :: 0 <= i < |items| ==> items[i].VStr?
    ensures r.Some? ==>
              r.value < |items| && !items[r.value].VStr? &&
              forall j :: 0 <= j < r.value ==> items[j].VStr?
    decreases |items|
  {
    if items == [] then None
    else if !items[0].VStr? then Some(0)
    else
      var r := FirstNonString(items[1..]);
      assert forall i :: 0 <= i < |items| - 1 ==> items[1..][i] == items[i + 1];
      if r.None? then None else Some(r.value + 1)
  }

  /** An exception raised while the success page or its console summary is produced: was the page body already written, and `str(e)`. */
  datatype RenderFailure = RenderFailure(bodyWritten: bool, message: string)

  /**
   * Producing the success page and then its console summary from the token
   * details. The page's `token_info.get` calls raise AttributeError when
   * the details are not a dict; its permission list iterates the `scopes`
   * entry, which raises TypeError for None, a bool or an int; after the
   * page is written, `', '.join` of the scopes raises TypeError at the first
   * list item that is not a string. None when all of it completes.
   */
  function Render(info: Value): Option<RenderFailure> {
    match Get(info, "type", VStr("N/A"))
    case Failure(m) => Some(RenderFailure(false, m))
    case Success(_) =>
      var scopes := DictGet(info.entries, "scopes", VList([]));
      if scopes.VNone? || scopes.VBool? || scopes.VInt? then
        Some(RenderFailure(false, "'" + TypeName(scopes) + "' object is not iterable"))
      else if scopes.VList? && FirstNonString(scopes.items).Some? then
        var i := FirstNonString(scopes.items).value;
        Some(RenderFailure(true, "sequence item " + Json.Digits(i) + ": expected str instance, " +
                                 TypeName(scopes.items[i]) + " found"))
      else None
  }

  /**
   * Rendering completes exactly when the details are a dict whose `scopes`
   * (an empty list when missing) is a string, a dict or a list of strings;
   * it fails after the page body was written only on a list holding a
   * non-string, and the scopes join then fails as `PyCommaJoin` does.
   */
  lemma RenderCompletes(info: Value)
    ensures Render(info).None? <==>
              info.VDict? &&
              var scopes := DictGet(info.entries, "scopes", VList([]));
              scopes.VStr? || scopes.VDict? ||
              (scopes.VList? && forall i :: 0 <= i < |scopes.items| ==> scopes.items[i].VStr?)
    ensures Render(info).Some? && Render(info).value.bodyWritten ==>
              info.VDict? && DictGet(info.entries, "scopes", VList([])).VList? &&
              PyCommaJoin(DictGet(info.entries, "scopes", VList([]))) == Failure(NonStringItem)
    ensures !info.VDict? ==> Render(info) == Some(RenderFailure(false, "'" + TypeName(info) + "' object has no attribute 'get'"))
  {
  }

  /** One request's effect: the answer, the state afterwards, the outbound calls, the `.env` write and the exit timer. */
  datatype Outcome = Outcome(
    response: Response,
    state: Option<string>,
    calls: seq<Graph.Request>,
    saved: Option<Value>,
    exit: bool)

  /** A callback that answers without touching anything. */
  function Reply(response: Response, state: Option<string>): Outcome {
    Outcome(response, state, [], None, false)
  }

  /** The code exchange, once the state has been accepted. */
  function Exchange(cfg: Config, state: Option<string>, code: string, remote: Remote): Outcome {
    var first := CodeRequest(cfg, code);
    match remote.codeResponse
    case Raised(m) => Outcome(ErrorPage(500, "Error: " + m), state, [first], None, false)
    case Responded(data) =>
      match Get(data, "access_token", VNone)
      case Failure(m) => Outcome(ErrorPage(500, "Error: " + m), state, [first], None, false)
      case Success(shortToken) =>
        var longToken := LongLivedToken(remote.longResponse);
        var calls := [first, LongLivedRequest(cfg, shortToken)];
        if !Truthy(longToken) then
          Outcome(ErrorPage(500, "Failed to get long-lived token"), state, calls, None, false)
        else Deliver(cfg, state, calls, longToken, remote)
  }

  /**
   * The end of an exchange that got a long-lived token, after the requests
   * in `calls`: ask for its details, write `.env`, answer with the success
   * page and schedule the exit, unless rendering the page raises.
   */
  function Deliver(cfg: Config, state: Option<string>, calls: seq<Graph.Request>, longToken: Value, remote: Remote): Outcome {
    var info := TokenInfo(remote.infoResponse);
    var saved := if remote.writeOk then Some(longToken) else None;
    var allCalls := calls + [TokenInfoRequest(cfg, longToken)];
    match Render(info)
    case None => Outcome(TokenPage(longToken, remote.writeOk, info), state, allCalls, saved, true)
    case Some(f) =>
      Outcome(BrokenTokenPage(longToken, remote.writeOk, info, f.bodyWritten, "Error: " + f.message),
              state, allCalls, saved, false)
  }

  /** `/callback`: the state check, then the code or the error the dialog sent back. */
  function Callback(cfg: Config, state: Option<string>, query: seq<(string, string)>, remote: Remote): Outcome {
    match First(query, "state")
    case None => Reply(ErrorPage(400, "Missing state parameter"), state)
    case Some(received) =>
      if Some(received) != state then Reply(ErrorPage(403, CsrfMessage), state)
      else
        match First(query, "code")
        case Some(code) => Exchange(cfg, state, code, remote)
        case None =>
          match First(query, "error")
          case Some(error) =>
            var description := match First(query, "error_description")
                               case Some(d) => d
                               case None => "Unknown error";
            Reply(DeniedPage(error, description), state)
          case None => Reply(NoResponse, state)
  }

  /** `do_GET` on an already split path and parsed query, with `nonce` as the new random state. */
  function Dispatch(cfg: Config, state: Option<string>, path: string, query: seq<(string, string)>,
                    nonce: string, remote: Remote): Outcome
  {
    if path == "/" then Outcome(Redirect(AuthUrl(cfg, nonce)), Some(nonce), [], None, false)
    else if path == "/callback" then Callback(cfg, state, query, remote)
    else Reply(ErrorPage(404, "Not Found"), state)
  }

  /**
   * CSRF protection: the handler contacts Facebook only on `/callback`,
   * only when a state was issued and the callback's first `state` value is
   * exactly that state, and only when a code came with it; and in that case
   * it always starts by exchanging that code.
   */
  lemma CsrfGuard(cfg: Config, state: Option<string>, path: string, query: seq<(string, string)>,
                  nonce: string, remote: Remote)
    ensures var o := Dispatch(cfg, state, path, query, nonce, remote);
            o.calls != [] <==>
              path == "/callback" && state.Some? && First(query, "state") == state &&
              First(query, "code").Some?
    ensures var o := Dispatch(cfg, state, path, query, nonce, remote);
            o.calls != [] ==> o.calls[0] == CodeRequest(cfg, First(query, "code").value)
  {
    var o := Dispatch(cfg, state, path, query, nonce, remote);
    if path == "/callback" && state.Some? && First(query, "state") == state && First(query, "code").Some? {
      assert path != "/";
      assert o == Exchange(cfg, state, First(query, "code").value, remote);
    }
  }

  /**
   * `.env` is written only once a truthy long-lived token is in hand, and
   * then whenever the write works, even when rendering the page fails
   * afterwards. The exit is scheduled only when the whole success page and
   * console summary were produced; a rendering failure ends in a 500 after
   * the 200 and leaves the server running.
   */
  lemma ExitOnlyAfterToken(cfg: Config, state: Option<string>, path: string, query: seq<(string, string)>,
                           nonce: string, remote: Remote)
    ensures var o := Dispatch(cfg, state, path, query, nonce, remote);
            o.exit <==> o.response.TokenPage?
    ensures var o := Dispatch(cfg, state, path, query, nonce, remote);
            o.saved.Some? <==> (o.response.TokenPage? || o.response.BrokenTokenPage?) && remote.writeOk
    ensures var o := Dispatch(cfg, state, path, query, nonce, remote);
            o.response.TokenPage? || o.response.BrokenTokenPage? ==>
              && Truthy(o.response.token)
              && o.saved == (if remote.writeOk then Some(o.response.token) else None)
              && o.response.saved == remote.writeOk
              && o.response.info == TokenInfo(remote.infoResponse)
              && |o.calls| == 3
              && o.calls[1].url == TokenUrl
              && o.calls[2] == TokenInfoRequest(cfg, o.response.token)
    ensures var o := Dispatch(cfg, state, path, query, nonce, remote);
            o.response.TokenPage? ==> Render(o.response.info).None?
    ensures var o := Dispatch(cfg, state, path, query, nonce, remote);
            o.response.BrokenTokenPage? ==>
              && Render(o.response.info).Some?
              && o.response.bodyWritten == Render(o.response.info).value.bodyWritten
              && o.response.error == "Error: " + Render(o.response.info).value.message
  {
    var o := Dispatch(cfg, state, path, query, nonce, remote);
    if path == "/callback" && First(query, "state") == state && state.Some? {
      var code := First(query, "code");
      if code.Some? {
        assert o == Exchange(cfg, state, code.value, remote);
      }
    }
  }

  /** Only `GET /` changes the state, and it always replaces it by the nonce one. */
  lemma StateOnlyFromRoot(cfg: Config, state: Option<string>, path: string, query: seq<(string, string)>,
                          nonce: string, remote: Remote)
    ensures var o := Dispatch(cfg, state, path, query, nonce, remote);
            o.state == (if path == "/" then Some(nonce) else state)
    ensures path == "/" ==>
              Dispatch(cfg, state, path, query, nonce, remote) ==
              Outcome(Redirect(AuthUrl(cfg, nonce)), Some(nonce), [], None, false)
  {
    if path == "/callback" {
      match First(query, "state")
      case None =>
      case Some(received) =>
        if Some(received) == state {
          match First(query, "code")
          case Some(code) =>
            assert Exchange(cfg, state, code, remote).state == state;
          case None =>
        }
    }
  }

  /**
   * How a callback that contacts nobody is answered: 400 without a state,
   * 403 for a state that is not the issued one (always, when none was
   * issued), the refusal page with 'Unknown error' as the default
   * description, and no answer at all when neither code nor error came.
   */
  lemma CallbackRejections(cfg: Config, state: Option<string>, query: seq<(string, string)>, remote: Remote)
    ensures First(query, "state").None? ==>
              Callback(cfg, state, query, remote) == Reply(ErrorPage(400, "Missing state parameter"), state)
    ensures First(query, "state").Some? && (state.None? || First(query, "state") != state) ==>
              Callback(cfg, state, query, remote) == Reply(ErrorPage(403, CsrfMessage), state)
    ensures First(query, "state") == state && state.Some? && First(query, "code").None? ==>
              Callback(cfg, state, query, remote) ==
              (match First(query, "error")
               case Some(e) =>
                 Reply(DeniedPage(e, if First(query, "error_description").Some?
                                     then First(query, "error_description").value else "Unknown error"), state)
               case None => Reply(NoResponse, state))
  {
  }

  /** Every path other than `/` and `/callback` is 404 and changes nothing. */
  lemma UnknownPathNotFound(cfg: Config, state: Option<string>, path: string, query: seq<(string, string)>,
                            nonce: string, remote: Remote)
    requires path != "/" && path != "/callback"
    ensures Dispatch(cfg, state, path, query, nonce, remote) == Reply(ErrorPage(404, "Not Found"), state)
  {
  }

  /**
   * The redirect's query: the fresh state verbatim whenever it is URL-safe,
   * as `secrets.token_urlsafe` makes it; the permissions comma-joined, each
   * comma written `%2C`; and `response_type=code`.
   */
  lemma RedirectQuery(cfg: Config, nonce: string)
    requires forall i :: 0 <= i < |nonce| ==> Unreserved(nonce[i])
    ensures |AuthParams(cfg, nonce)| == 5
    ensures Field(AuthParams(cfg, nonce)[2]) == "state=" + nonce
    ensures Field(AuthParams(cfg, nonce)[3]) == "scope" + "=" + Join("%2C", Permissions)
    ensures Field(AuthParams(cfg, nonce)[4]) == "response_type" + "=" + "code"
  {
    StateField(nonce);
    ScopeField();
    ResponseTypeField();
  }

  /** The redirect's first field is the app id, verbatim when it is URL-safe (`str(None)` when it is not configured). */
  lemma ClientIdQuery(cfg: Config, nonce: string)
    requires forall i :: 0 <= i < |PyStr(cfg.appId)| ==> Unreserved(PyStr(cfg.appId)[i])
    ensures Field(AuthParams(cfg, nonce)[0]) == "client_id" + "=" + PyStr(cfg.appId)
  {
    var id := PyStr(cfg.appId);
    assert AuthParams(cfg, nonce)[0] == ("client_id", id);
    FieldUnreserved("client_id", id);
  }

  lemma StateField(nonce: string)
    requires forall i :: 0 <= i < |nonce| ==> Unreserved(nonce[i])
    ensures Field(("state", nonce)) == "state=" + nonce
  {
    FieldUnreserved("state", nonce);
  }

  lemma PermissionsUnreserved()
    ensures forall i, j :: 0 <= i < |Permissions| && 0 <= j < |Permissions[i]| ==> Unreserved(Permissions[i][j])
  {
  }

  lemma ScopeField()
    ensures Field(("scope", CommaJoin(Permissions))) == "scope" + "=" + Join("%2C", Permissions)
  {
    PermissionsUnreserved();
    FieldCommaJoin("scope", Permissions);
  }

  lemma ResponseTypeField()
    ensures Field(("response_type", "code")) == "response_type" + "=" + "code"
  {
    FieldUnreserved("response_type", "code");
  }

  /**
   * Once a code came with the right state the answer is 500 or the token
   * page: 500 carrying the exception's text when the first exchange fails,
   * 500 'Failed to get long-lived token' when the long-lived token is
   * missing or empty, and otherwise the token page, which is followed by a
   * 500 exactly when rendering it fails.
   */
  lemma ExchangeAnswers(cfg: Config, state: Option<string>, code: string, remote: Remote)
    ensures var o := Exchange(cfg, state, code, remote);
            o.response.TokenPage? || o.response.BrokenTokenPage? || (o.response.ErrorPage? && o.response.code == 500)
    ensures remote.codeResponse.Raised? ==>
              Exchange(cfg, state, code, remote).response == ErrorPage(500, "Error: " + remote.codeResponse.message)
    ensures remote.codeResponse.Responded? && !remote.codeResponse.body.VDict? ==>
              Exchange(cfg, state, code, remote).response.ErrorPage?
    ensures remote.codeResponse.Responded? && remote.codeResponse.body.VDict? ==>
              ((Exchange(cfg, state, code, remote).response.TokenPage? ||
                Exchange(cfg, state, code, remote).response.BrokenTokenPage?) <==> Truthy(LongLivedToken(remote.longResponse)))
    ensures Truthy(LongLivedToken(remote.longResponse)) && Exchange(cfg, state, code, remote).response.BrokenTokenPage? ==>
              Render(TokenInfo(remote.infoResponse)).Some?
    ensures remote.codeResponse.Responded? && remote.codeResponse.body.VDict? &&
            Truthy(LongLivedToken(remote.longResponse)) ==>
              (Exchange(cfg, state, code, remote).response.TokenPage? <==> Render(TokenInfo(remote.infoResponse)).None?)
    ensures remote.codeResponse.Responded? && remote.codeResponse.body.VDict? &&
            !Truthy(LongLivedToken(remote.longResponse)) ==>
              Exchange(cfg, state, code, remote).response == ErrorPage(500, "Failed to get long-lived token")
  {
  }

  /** The first status line sent, if any: `send_error` and `send_response` codes (a broken token page adds a 500 after its 200). */
  function Status(r: Response): Option<int> {
    match r
    case Redirect(_) => Some(302)
    case ErrorPage(code, _) => Some(code)
    case TokenPage(_, _, _) => Some(200)
    case BrokenTokenPage(_, _, _, _, _) => Some(200)
    case DeniedPage(_, _) => Some(400)
    case NoResponse => None
  }

  /**
   * The status of every answer: 302 for `/`, 404 for unknown paths, and on
   * `/callback` one of 200, 400, 403 and 500, or nothing at all.
   */
  lemma StatusCodes(cfg: Config, state: Option<string>, path: string, query: seq<(string, string)>,
                    nonce: string, remote: Remote)
    ensures var s := Status(Dispatch(cfg, state, path, query, nonce, remote).response);
            && (path == "/" ==> s == Some(302))
            && (path == "/callback" ==> s in {None, Some(200), Some(400), Some(403), Some(500)})
            && (path != "/" && path != "/callback" ==> s == Some(404))
  {
    if path == "/callback" {
      match First(query, "state")
      case None =>
      case Some(received) =>
        if Some(received) == state {
          match First(query, "code")
          case Some(code) => ExchangeAnswers(cfg, state, code, remote);
          case None =>
        }
    }
  }

  /** Logging three requests one by one gives the log `Exchange` describes. */
  lemma LogOfThree(log: seq<Graph.Request>, a: Graph.Request, b: Graph.Request, c: Graph.Request)
    ensures log + [a] + [b] + [c] == log + ([a, b] + [c])
  {
    assert [a, b] + [c] == [a, b, c];
  }

  /** The server process: the state it issued, `.env`'s token, the exit timer and a log of outbound calls. */
  class OAuthServer {
    const config: Config
    var stateToken: Option<string>
    var envToken: Option<Value>
    var exitScheduled: bool
    var calls: seq<Graph.Request>

    constructor (config: Config, envToken: Option<Value>)
      ensures this.config == config && this.envToken == envToken
      ensures stateToken == None && !exitScheduled && calls == []
    {
      this.config := config;
      this.envToken := envToken;
      stateToken := None;
      exitScheduled := false;
      calls := [];
    }

    /** `get_long_lived_token`: one request; failures give None. */
    method GetLongLivedToken(shortToken: Value, resp: HttpOutcome) returns (token: Value)
      modifies this
      ensures token == LongLivedToken(resp)
      ensures calls == old(calls) + [LongLivedRequest(config, shortToken)]
      ensures stateToken == old(stateToken) && envToken == old(envToken) && exitScheduled == old(exitScheduled)
    {
      calls := calls + [LongLivedRequest(config, shortToken)];
      token := VNone;
      if resp.Responded? && resp.body.VDict? {
        token := DictGet(resp.body.entries, "access_token", VNone);
      }
    }

    /** `get_token_info`: one request; failures give `{}`. */
    method GetTokenInfo(token: Value, resp: HttpOutcome) returns (info: Value)
      modifies this
      ensures info == TokenInfo(resp)
      ensures calls == old(calls) + [TokenInfoRequest(config, token)]
      ensures stateToken == old(stateToken) && envToken == old(envToken) && exitScheduled == old(exitScheduled)
    {
      calls := calls + [TokenInfoRequest(config, token)];
      info := VDict([]);
      if resp.Responded? && resp.body.VDict? {
        info := DictGet(resp.body.entries, "data", VDict([]));
      }
    }

    /** `save_token_to_env`: `.env` gets the token when `set_key` does not raise, and the answer says which; it never raises itself. */
    method SaveToken(token: Value, writeOk: bool) returns (saved: bool)
      modifies this
      ensures saved <==> writeOk
      ensures envToken == (if writeOk then Some(token) else old(envToken))
      ensures stateToken == old(stateToken) && calls == old(calls) && exitScheduled == old(exitScheduled)
    {
      if writeOk {
        envToken := Some(token);
        saved := true;
      } else {
        saved := false;
      }
    }

    /** The code branch of `do_GET`. */
    method ExchangeCode(code: string, remote: Remote) returns (resp: Response)
      modifies this
      ensures var o := Exchange(config, old(stateToken), code, remote);
              && resp == o.response
              && calls == old(calls) + o.calls
              && envToken == (if o.saved.Some? then o.saved else old(envToken))
              && exitScheduled == (old(exitScheduled) || o.exit)
              && stateToken == old(stateToken)
    {
      ghost var o := Exchange(config, stateToken, code, remote);
      var first := CodeRequest(config, code);
      calls := calls + [first];
      if remote.codeResponse.Raised? {
        assert o == Outcome(ErrorPage(500, "Error: " + remote.codeResponse.message), stateToken, [first], None, false);
        return ErrorPage(500, "Error: " + remote.codeResponse.message);
      }
      var data := remote.codeResponse.body;
      var short := Get(data, "access_token", VNone);
      if short.Failure? {
        assert o == Outcome(ErrorPage(500, "Error: " + short.error), stateToken, [first], None, false);
        return ErrorPage(500, "Error: " + short.error);
      }
      var longToken := GetLongLivedToken(short.value, remote.longResponse);
      var second := LongLivedRequest(config, short.value);
      if Truthy(longToken) {
        assert o == Deliver(config, stateToken, [first, second], longToken, remote);
        resp := DeliverToken(longToken, remote);
        LogOfThree(old(calls), first, second, TokenInfoRequest(config, longToken));
      } else {
        assert o == Outcome(ErrorPage(500, "Failed to get long-lived token"), stateToken, [first, second], None, false);
        resp := ErrorPage(500, "Failed to get long-lived token");
      }
    }

    /** The success branch of the code exchange: details, `.env`, the page and, when it renders, the exit timer. */
    method DeliverToken(longToken: Value, remote: Remote) returns (resp: Response)
      modifies this
      ensures var o := Deliver(config, stateToken, old(calls), longToken, remote);
              && resp == o.response
              && calls == o.calls
              && envToken == (if o.saved.Some? then o.saved else old(envToken))
              && exitScheduled == (old(exitScheduled) || o.exit)
              && stateToken == old(stateToken)
    {
      var info := GetTokenInfo(longToken, remote.infoResponse);
      var saved := SaveToken(longToken, remote.writeOk);
      var failure := Render(info);
      if failure.None? {
        resp := TokenPage(longToken, saved, info);
        exitScheduled := true;
      } else {
        resp := BrokenTokenPage(longToken, saved, info, failure.value.bodyWritten, "Error: " + failure.value.message);
      }
    }

    /** The `/callback` branch of `do_GET`. */
    method HandleCallback(query: seq<(string, string)>, remote: Remote) returns (resp: Response)
      modifies this
      ensures var o := Callback(config, old(stateToken), query, remote);
              && resp == o.response
              && stateToken == o.state
              && calls == old(calls) + o.calls
              && envToken == (if o.saved.Some? then o.saved else old(envToken))
              && exitScheduled == (old(exitScheduled) || o.exit)
    {
      var received := First(query, "state");
      if received.None? {
        return ErrorPage(400, "Missing state parameter");
      }
      if received != stateToken {
        return ErrorPage(403, CsrfMessage);
      }
      var code := First(query, "code");
      if code.Some? {
        resp := ExchangeCode(code.value, remote);
        return;
      }
      var error := First(query, "error");
      if error.Some? {
        var description := First(query, "error_description");
        return DeniedPage(error.value, if description.Some? then description.value else "Unknown error");
      }
      return NoResponse;
    }

    /** `do_GET`. */
    method HandleGet(path: string, query: seq<(string, string)>, nonce: string, remote: Remote)
      returns (resp: Response)
      modifies this
      ensures var o := Dispatch(config, old(stateToken), path, query, nonce, remote);
              && resp == o.response
              && stateToken == o.state
              && calls == old(calls) + o.calls
              && envToken == (if o.saved.Some? then o.saved else old(envToken))
              && exitScheduled == (old(exitScheduled) || o.exit)
    {
      if path == "/" {
        var url := AuthUrl(config, nonce);
        stateToken := Some(nonce);
        resp := Redirect(url);
      } else if path == "/callback" {
        resp := HandleCallback(query, remote);
      } else {
        return ErrorPage(404, "Not Found");
      }
    }
  }
}
