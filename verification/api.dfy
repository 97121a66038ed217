/**
 * The HTTP client of the front-end: one client instance whose request
 * interceptor attaches the host's init data to every outgoing request, a
 * response interceptor that only classifies failures for the console, and
 * the two services the home page calls, `authService.loginWithTelegram`
 * and `userService.getCurrentUser`, which turn any failure into an error
 * with a user-facing message that keeps the caught error as its cause.
 *
 * The transport is not modelled: what the server (or the network) answers
 * to a request is a parameter of each service.
 */
module Api {
  import opened Wrappers
  import opened JsValues
  import opened TelegramContext

  const ApiBaseUrl := "https://backend-bar.onrender.com/api/v1"
  const InitDataHeader := "Telegram-Init-Data"
  const LoginPath := "/auth/login/telegram"
  const CurrentUserPath := "/users/me"

  const LoginMissingInitData := "Telegram initData is missing. Cannot authenticate."
  const LoginFailed := "Failed to authenticate. Please try again."
  const LoginUnauthorized := "Authentication failed: Invalid or expired Telegram data."
  const ConnectionLost := "Network connection lost. Please check your internet connection."
  const ServerUnavailable := "Network error. The server might be unavailable."
  const NetworkErrorText := "Network Error"

  const CurrentUserMissingInitData := "Telegram initData is missing. Cannot fetch user data."
  const CurrentUserFailed := "Failed to fetch user data."
  const CurrentUserUnauthorized := "Authorization failed: Invalid or expired Telegram data."

  /** A response of the server: its status code and its parsed body. */
  datatype HttpResponse = HttpResponse(status: int, data: Json)

  /**
   * A thrown error as the services see it: its message, the server's
   * response when there was one (`error.response`), whether the request
   * left the client (`error.request`), and the error it wraps
   * (`originalError`).
   */
  datatype JsError = JsError(
    message: string,
    response: Option<HttpResponse>,
    requestSent: bool,
    originalError: Option<JsError>)

  /** What a request comes back with: a response, or a rejection. */
  datatype HttpOutcome = Resolved(response: HttpResponse) | Rejected(error: JsError)

  /** A request configuration: HTTP method, URL relative to the base URL, headers, and query parameters (absent until set). */
  datatype Request = Request(
    verb: string,
    url: string,
    headers: map<string, string>,
    params: Option<map<string, Json>>)

  /** A request as the client instance starts it: the instance's JSON content type and no parameters. */
  function NewRequest(verb: string, url: string): Request {
    Request(verb, url, map["Content-Type" := "application/json"], None)
  }

  /** `tg?.initData` is truthy. */
  predicate HasInitData(tg: Option<Bridge>) {
    tg.Some? && tg.value.initData != ""
  }

  /** `tg.initDataUnsafe?.user?.id`. */
  function InitDataUserId(tg: Option<Bridge>): Json {
    if tg.Some? && tg.value.user.Some? then tg.value.user.value.id else Null
  }

  /** `{...params, user_id: id, debug: true}`; spreading absent parameters adds nothing. */
  function WithUserParams(params: Option<map<string, Json>>, id: Json): map<string, Json> {
    var base := if params.Some? then params.value else map[];
    base["user_id" := id]["debug" := Bool(true)]
  }

  /** The login request gets the user's id and a debug flag as query parameters. */
  predicate AddsUserParams(c: Request, tg: Option<Bridge>) {
    HasInitData(tg) && Truthy(InitDataUserId(tg)) && Includes(c.url, LoginPath)
  }

  /**
   * The request interceptor on a configuration value: with init data it sets
   * the init-data header and, on the login URL with a known user id, merges
   * the user parameters; without init data it changes nothing.
   */
  function Intercept(c: Request, tg: Option<Bridge>): Request {
    if HasInitData(tg) then
      var withHeader := c.(headers := c.headers[InitDataHeader := tg.value.initData]);
      if AddsUserParams(c, tg) then withHeader.(params := Some(WithUserParams(c.params, InitDataUserId(tg))))
      else withHeader
    else c
  }

  /**
   * What the request interceptor does to a configuration: the URL and method
   * are never touched; the init-data header carries the host's init data
   * exactly when there is some, and every other header stays; the query
   * parameters gain `user_id` and `debug` (keeping every other parameter)
   * exactly on the login URL with a truthy user id, and are otherwise left
   * as they were.
   */
  lemma InterceptSpec(c: Request, tg: Option<Bridge>)
    ensures var r := Intercept(c, tg);
      && r.url == c.url && r.verb == c.verb
      && (!HasInitData(tg) ==> r == c)
      && (HasInitData(tg) ==> InitDataHeader in r.headers && r.headers[InitDataHeader] == tg.value.initData)
      && (forall k :: k != InitDataHeader ==>
            (k in r.headers <==> k in c.headers) && (k in c.headers ==> r.headers[k] == c.headers[k]))
      && (!AddsUserParams(c, tg) ==> r.params == c.params)
      && (AddsUserParams(c, tg) ==>
            && r.params.Some?
            && r.params.value["user_id"] == InitDataUserId(tg)
            && r.params.value["debug"] == Bool(true)
            && (forall k :: k != "user_id" && k != "debug" ==>
                  (k in r.params.value <==> c.params.Some? && k in c.params.value)
                  && (c.params.Some? && k in c.params.value ==> r.params.value[k] == c.params.value[k])))
  {
  }

  /**
   * The request interceptor on the configuration object axios hands it: it
   * updates that object in place and returns it.
   */
  method InterceptRequest(config: RequestConfig, tg: Option<Bridge>) returns (r: RequestConfig)
    modifies config
    ensures r == config
    ensures config.Value() == Intercept(old(config.Value()), tg)
  {
    if HasInitData(tg) {
      config.headers := config.headers[InitDataHeader := tg.value.initData];
      if Truthy(InitDataUserId(tg)) && Includes(config.url, LoginPath) {
        var base := if config.params.Some? then config.params.value else map[];
        config.params := Some(base["user_id" := InitDataUserId(tg)]["debug" := Bool(true)]);
      }
    }
    r := config;
  }

  /** The mutable request configuration object. */
  class RequestConfig {
    var verb: string
    var url: string
    var headers: map<string, string>
    var params: Option<map<string, Json>>

    /** The configuration `api.get`/`api.post` start from. */
    constructor (verb: string, url: string)
      ensures Value() == NewRequest(verb, url)
    {
      this.verb := verb;
      this.url := url;
      headers := map["Content-Type" := "application/json"];
      params := None;
    }

    function Value(): Request
      reads this
    {
      Request(verb, url, headers, params)
    }
  }

  /** What the response interceptor writes to the console for a failure. */
  datatype ApiLog =
    | ErrorResponse(status: int)
    | Unauthorized
    | NoResponse
    | RequestSetupError(message: string)

  /** The response interceptor's console output for an outcome. */
  function ResponseLog(o: HttpOutcome): seq<ApiLog> {
    match o
    case Resolved(_) => []
    case Rejected(e) =>
      if e.response.Some? then
        [ErrorResponse(e.response.value.status)] + (if e.response.value.status == 401 then [Unauthorized] else [])
      else if e.requestSent then [NoResponse]
      else [RequestSetupError(e.message)]
  }

  /** The response interceptor: the outcome passes through, and a rejection is logged. */
  datatype Intercepted = Intercepted(outcome: HttpOutcome, log: seq<ApiLog>)

  function InterceptResponse(o: HttpOutcome): Intercepted {
    Intercepted(o, ResponseLog(o))
  }

  /**
   * The response interceptor hands every outcome on unchanged, a response
   * as a response and a rejection as the same rejection; it logs nothing for
   * a response, and for a rejection one line naming the kind of failure
   * (server status, no response, setup error), plus the extra line for a 401.
   */
  lemma InterceptResponseSpec(o: HttpOutcome)
    ensures var r := InterceptResponse(o);
      && r.outcome == o
      && (r.log == [] <==> o.Resolved?)
      && (o.Rejected? ==> 1 <= |r.log| <= 2)
      && (o.Rejected? && o.error.response.Some? ==> r.log[0] == ErrorResponse(o.error.response.value.status))
      && (o.Rejected? && o.error.response.None? && o.error.requestSent ==> r.log == [NoResponse])
      && (o.Rejected? && o.error.response.None? && !o.error.requestSent ==> r.log == [RequestSetupError(o.error.message)])
      && (Unauthorized in r.log <==> o.Rejected? && o.error.response.Some? && o.error.response.value.status == 401)
  {
  }

  /** `error.response?.status === 401`. */
  predicate IsUnauthorized(e: JsError) {
    e.response.Some? && e.response.value.status == 401
  }

  /**
   * The login service's message for a caught error, first match wins: a 401
   * response, then a lost connection, then a network error, else the default.
   */
  function LoginMessage(caught: JsError, online: bool): string {
    if IsUnauthorized(caught) then LoginUnauthorized
    else if !online then ConnectionLost
    else if Includes(caught.message, NetworkErrorText) then ServerUnavailable
    else LoginFailed
  }

  /** Each of the four login messages is chosen exactly in its case of the priority order. */
  lemma LoginMessagePriority(caught: JsError, online: bool)
    ensures var m := LoginMessage(caught, online);
      && (m == LoginUnauthorized <==> IsUnauthorized(caught))
      && (m == ConnectionLost <==> !IsUnauthorized(caught) && !online)
      && (m == ServerUnavailable <==> !IsUnauthorized(caught) && online && Includes(caught.message, NetworkErrorText))
      && (m == LoginFailed <==> !IsUnauthorized(caught) && online && !Includes(caught.message, NetworkErrorText))
  {
  }

  /**
   * The user service's message for a caught error: a 401 response, then a
   * lost connection, else the default; the text of the caught message plays
   * no part.
   */
  function CurrentUserMessage(caught: JsError, online: bool): string {
    if IsUnauthorized(caught) then CurrentUserUnauthorized
    else if !online then ConnectionLost
    else CurrentUserFailed
  }

  /** Each of the three user-service messages is chosen exactly in its case of the priority order. */
  lemma CurrentUserMessagePriority(caught: JsError, online: bool)
    ensures var m := CurrentUserMessage(caught, online);
      && (m == CurrentUserUnauthorized <==> IsUnauthorized(caught))
      && (m == ConnectionLost <==> !IsUnauthorized(caught) && !online)
      && (m == CurrentUserFailed <==> !IsUnauthorized(caught) && online)
  {
  }

  /** `new Error(message)`, thrown before any request is made. */
  function LocalError(message: string): JsError {
    JsError(message, None, false, None)
  }

  /** The error a service throws: a fresh error with the user-facing message whose `originalError` is the caught one. */
  function Enhance(message: string, caught: JsError): JsError {
    JsError(message, None, false, Some(caught))
  }

  /** A service call: the request that went out, if any, and what the service resolves or rejects with. */
  datatype ServiceCall = ServiceCall(sent: Option<Request>, result: Result<Json, JsError>)

  /**
   * `authService.loginWithTelegram`: without init data it fails before any
   * request; otherwise it POSTs to the login URL, `server` is what comes
   * back, and the response body is the result.
   */
  function LoginWithTelegram(tg: Option<Bridge>, online: bool, server: HttpOutcome): ServiceCall {
    if !HasInitData(tg) then
      var caught := LocalError(LoginMissingInitData);
      ServiceCall(None, Err(Enhance(LoginMessage(caught, online), caught)))
    else
      var request := Intercept(NewRequest("post", LoginPath), tg);
      match InterceptResponse(server).outcome
      case Resolved(response) => ServiceCall(Some(request), Ok(response.data))
      case Rejected(error) => ServiceCall(Some(request), Err(Enhance(LoginMessage(error, online), error)))
  }

  /**
   * `userService.getCurrentUser`: without init data it fails before any
   * request; otherwise it GETs the current user, `server` is what comes
   * back, and the response body is the result.
   */
  function GetCurrentUser(tg: Option<Bridge>, online: bool, server: HttpOutcome): ServiceCall {
    if !HasInitData(tg) then
      var caught := LocalError(CurrentUserMissingInitData);
      ServiceCall(None, Err(Enhance(CurrentUserMessage(caught, online), caught)))
    else
      var request := Intercept(NewRequest("get", CurrentUserPath), tg);
      match InterceptResponse(server).outcome
      case Resolved(response) => ServiceCall(Some(request), Ok(response.data))
      case Rejected(error) => ServiceCall(Some(request), Err(Enhance(CurrentUserMessage(error, online), error)))
  }

  /**
   * Without init data the login sends nothing and rejects with the default
   * message (the lost-connection one when offline), wrapping the local
   * "initData is missing" error.
   */
  lemma LoginWithoutInitData(tg: Option<Bridge>, online: bool, server: HttpOutcome)
    requires !HasInitData(tg)
    ensures var call := LoginWithTelegram(tg, online, server);
      && call.sent.None?
      && call.result.Err?
      && call.result.error.message == (if online then LoginFailed else ConnectionLost)
      && call.result.error.originalError == Some(LocalError(LoginMissingInitData))
  {
    LocalLoginErrorIsNotNetwork();
  }

  lemma LocalLoginErrorIsNotNetwork()
    ensures !Includes(LoginMissingInitData, NetworkErrorText)
  {
    var head, tail := "Telegram initData is missing.", " Cannot authenticate.";
    assert LoginMissingInitData == head + tail;
    assert 'N' !in head && 'N' !in tail;
    assert 'N' !in head + tail;
    IncludesMissingFirst(LoginMissingInitData, NetworkErrorText);
  }

  /**
   * With init data the login POSTs to the login URL, carrying the init data
   * in its header and, when the host knows the user's id, that id and the
   * debug flag as query parameters; a response yields its body, a rejection
   * the login message wrapping the rejection's error.
   */
  lemma LoginWithInitData(tg: Option<Bridge>, online: bool, server: HttpOutcome)
    requires HasInitData(tg)
    ensures var call := LoginWithTelegram(tg, online, server);
      && call.sent.Some?
      && call.sent.value.verb == "post" && call.sent.value.url == LoginPath
      && call.sent.value.headers == map["Content-Type" := "application/json", InitDataHeader := tg.value.initData]
      && call.sent.value.params ==
           (if Truthy(InitDataUserId(tg)) then Some(map["user_id" := InitDataUserId(tg), "debug" := Bool(true)]) else None)
      && (server.Resolved? ==> call.result == Ok(server.response.data))
      && (server.Rejected? ==>
            call.result == Err(Enhance(LoginMessage(server.error, online), server.error)))
  {
    IncludesItself(LoginPath);
  }

  /**
   * Without init data the user fetch sends nothing and rejects with the
   * default message (the lost-connection one when offline), wrapping the
   * local "initData is missing" error.
   */
  lemma CurrentUserWithoutInitData(tg: Option<Bridge>, online: bool, server: HttpOutcome)
    requires !HasInitData(tg)
    ensures var call := GetCurrentUser(tg, online, server);
      && call.sent.None?
      && call.result.Err?
      && call.result.error.message == (if online then CurrentUserFailed else ConnectionLost)
      && call.result.error.originalError == Some(LocalError(CurrentUserMissingInitData))
  {
  }

  /**
   * With init data the user fetch GETs the current user with the init-data
   * header and no query parameters; a response yields its body, a rejection
   * the user-service message wrapping the rejection's error.
   */
  lemma CurrentUserWithInitData(tg: Option<Bridge>, online: bool, server: HttpOutcome)
    requires HasInitData(tg)
    ensures var call := GetCurrentUser(tg, online, server);
      && call.sent.Some?
      && call.sent.value.verb == "get" && call.sent.value.url == CurrentUserPath
      && call.sent.value.headers == map["Content-Type" := "application/json", InitDataHeader := tg.value.initData]
      && call.sent.value.params.None?
      && (server.Resolved? ==> call.result == Ok(server.response.data))
      && (server.Rejected? ==>
            call.result == Err(Enhance(CurrentUserMessage(server.error, online), server.error)))
  {
    IncludesTooLong(CurrentUserPath, LoginPath);
  }

  /**
   * The two services differ on a network error: online, without a 401, an
   * error whose message mentions "Network Error" is reported by the login
   * as a server problem but by the user fetch with its plain default.
   */
  lemma NetworkErrorOnlyForLogin(e: JsError)
    requires !IsUnauthorized(e) && Includes(e.message, NetworkErrorText)
    ensures LoginMessage(e, true) == ServerUnavailable
    ensures CurrentUserMessage(e, true) == CurrentUserFailed
  {
  }
}
