/**
 * The home page: `authenticateUser`, which logs in, fetches the backend's
 * user record and then the user's roles, driving the page's four state
 * cells through their setters; `handleRetry`, which runs it again; and the
 * choice of screen the render makes from the session and those cells.
 */
module Pages {
  import opened Wrappers
  import opened JsValues
  import opened TelegramContext
  import opened Api

  const MainButtonLabel := "Show More Actions"

  /** The page's four state cells. */
  datatype PageState = PageState(loading: bool, error: Option<string>, backendUser: Json, userRoles: seq<Json>)

  const InitialPage := PageState(false, None, Null, [])

  /** A service call the page makes. */
  datatype Step = LoginStep | CurrentUserStep | RolesStep(userId: Json)

  /** A service call, with the value `loading` had when it was made. */
  datatype Invocation = Invocation(step: Step, loading: bool)

  /**
   * Everything a run depends on beyond the session: `navigator.onLine`, and
   * what the backend answers to the login, to the user fetch, and to the
   * roles call (an abstract outcome: `userService` defines no `getUserRoles`,
   * so as written the call throws a TypeError; see `RolesCallAsWritten`).
   */
  datatype Env = Env(online: bool, login: HttpOutcome, currentUser: HttpOutcome, roles: Result<seq<Json>, JsError>)

  /**
   * The end of a run: the state cells, the service calls made and the
   * requests sent over the network, in order, and whether the host's main
   * button was set up.
   */
  datatype Run = Run(state: PageState, calls: seq<Invocation>, requests: seq<Request>, showsMainButton: bool)

  /** The early returns: not ready, no Telegram user, or a recorded init-data error. */
  predicate Skips(ctx: Session) {
    !ctx.ready || ctx.user.None? || (ctx.initDataError.Some? && ctx.initDataError.value != "")
  }

  /** `userData && userData.user && userData.user.id`. */
  predicate HasUserId(userData: Json) {
    Truthy(userData) && Truthy(Field(userData, "user")) && Truthy(Field(Field(userData, "user"), "id"))
  }

  function UserIdOf(userData: Json): Json {
    Field(Field(userData, "user"), "id")
  }

  /** `tg?.MainButton`. */
  predicate HasMainButton(ctx: Session) {
    ctx.tg.Some? && ctx.tg.value.hasMainButton
  }

  /** `err.message || 'Failed to authenticate. Please try again.'` */
  function ErrorText(e: JsError): (text: string)
    ensures text != ""
    ensures e.message != "" ==> text == e.message
    ensures e.message == "" ==> text == LoginFailed
  {
    if e.message != "" then e.message else LoginFailed
  }

  /** The request a service call put on the network, if it got that far. */
  function Sent(call: ServiceCall): seq<Request> {
    if call.sent.Some? then [call.sent.value] else []
  }

  /**
   * What the `try` block leaves: the state cells, the calls and requests it
   * made, whether it set up the main button, and the error it threw, if any.
   */
  datatype Attempt = Attempt(
    state: PageState,
    calls: seq<Invocation>,
    requests: seq<Request>,
    showsMainButton: bool,
    failure: Option<JsError>)

  /** The `try` block from state `s`: the login, then the rest when it succeeds. */
  function TryBlock(s: PageState, ctx: Session, env: Env): Attempt {
    var login := LoginWithTelegram(ctx.tg, env.online, env.login);
    var call := Invocation(LoginStep, s.loading);
    if login.result.Err? then Attempt(s, [call], Sent(login), false, Some(login.result.error))
    else
      var rest := AfterLogin(s, ctx, env);
      rest.(calls := [call] + rest.calls, requests := Sent(login) + rest.requests)
  }

  /**
   * The `try` block after a successful login: the user fetch, whose result
   * becomes `backendUser`; the roles call when that record has a truthy
   * `user.id`, whose result becomes `userRoles`; then the main button.
   */
  function AfterLogin(s: PageState, ctx: Session, env: Env): Attempt {
    var current := GetCurrentUser(ctx.tg, env.online, env.currentUser);
    var call := Invocation(CurrentUserStep, s.loading);
    if current.result.Err? then Attempt(s, [call], Sent(current), false, Some(current.result.error))
    else
      var userData := current.result.value;
      var withUser := s.(backendUser := userData);
      if !HasUserId(userData) then Attempt(withUser, [call], Sent(current), HasMainButton(ctx), None)
      else
        var rolesCall := Invocation(RolesStep(UserIdOf(userData)), s.loading);
        match env.roles
        case Err(e) => Attempt(withUser, [call, rolesCall], Sent(current), false, Some(e))
        case Ok(roles) => Attempt(withUser.(userRoles := roles), [call, rolesCall], Sent(current), HasMainButton(ctx), None)
  }

  /**
   * `authenticateUser` from page state `p`: unless it returns early, it sets
   * `loading` and clears `error`, runs the `try` block, shows the message of
   * what it threw (`catch`), and clears `loading` (`finally`). The services
   * read the bridge of the session.
   */
  function Authenticate(p: PageState, ctx: Session, env: Env): Run {
    if Skips(ctx) then Run(p, [], [], false)
    else
      var a := TryBlock(p.(loading := true, error := None), ctx, env);
      var caught := if a.failure.Some? then a.state.(error := Some(ErrorText(a.failure.value))) else a.state;
      Run(caught.(loading := false), a.calls, a.requests, a.showsMainButton)
  }

  /** A run that returns early does nothing at all, and only such a run makes no call. */
  lemma SkipIsNoOp(p: PageState, ctx: Session, env: Env)
    ensures Skips(ctx) ==> Authenticate(p, ctx, env) == Run(p, [], [], false)
    ensures Authenticate(p, ctx, env).calls == [] <==> Skips(ctx)
  {
  }

  /**
   * The calls go login, user fetch, roles, each made only after every
   * earlier one succeeded, and the roles call only for a user record with a
   * truthy `user.id`, which it is given; each call is made while `loading`
   * is true.
   */
  lemma CallOrder(p: PageState, ctx: Session, env: Env)
    ensures var r := Authenticate(p, ctx, env);
      var login := LoginWithTelegram(ctx.tg, env.online, env.login);
      var current := GetCurrentUser(ctx.tg, env.online, env.currentUser);
      && |r.calls| <= 3
      && (forall i | 0 <= i < |r.calls| :: r.calls[i].loading)
      && (|r.calls| >= 1 ==> r.calls[0].step == LoginStep)
      && (|r.calls| >= 2 ==> r.calls[1].step == CurrentUserStep)
      && (|r.calls| >= 2 <==> !Skips(ctx) && login.result.Ok?)
      && (|r.calls| == 3 <==> !Skips(ctx) && login.result.Ok? && current.result.Ok? && HasUserId(current.result.value))
      && (|r.calls| == 3 ==> current.result.Ok? && r.calls[2].step == RolesStep(UserIdOf(current.result.value)))
  {
  }

  /** Whether the run got past the login, the user fetch, and (when it was made) the roles call. */
  predicate Succeeds(ctx: Session, env: Env) {
    var login := LoginWithTelegram(ctx.tg, env.online, env.login);
    var current := GetCurrentUser(ctx.tg, env.online, env.currentUser);
    login.result.Ok? && current.result.Ok? && (!HasUserId(current.result.value) || env.roles.Ok?)
  }

  /**
   * A run that does not return early clears any earlier error and ends
   * without one exactly when every call it made succeeded; otherwise the
   * error is the message of the first failure (or the default text when
   * that message is empty).
   */
  lemma ErrorOutcome(p: PageState, ctx: Session, env: Env)
    requires !Skips(ctx)
    ensures var r := Authenticate(p, ctx, env);
      var login := LoginWithTelegram(ctx.tg, env.online, env.login);
      var current := GetCurrentUser(ctx.tg, env.online, env.currentUser);
      && (r.state.error.None? <==> Succeeds(ctx, env))
      && (login.result.Err? ==> r.state.error == Some(ErrorText(login.result.error)))
      && (login.result.Ok? && current.result.Err? ==> r.state.error == Some(ErrorText(current.result.error)))
      && (login.result.Ok? && current.result.Ok? && HasUserId(current.result.value) && env.roles.Err? ==>
            r.state.error == Some(ErrorText(env.roles.error)))
  {
  }

  /**
   * Whatever the outcome, a run that does not return early ends with
   * `loading` false; one that returns early leaves it as it was.
   */
  lemma LoadingSettles(p: PageState, ctx: Session, env: Env)
    ensures Authenticate(p, ctx, env).state.loading == (Skips(ctx) && p.loading)
  {
  }

  /**
   * A failure clears nothing: `backendUser` only ever changes to a record
   * the user fetch returned, and `userRoles` only to roles the roles call
   * returned in a run without failure; otherwise each keeps its earlier value.
   */
  lemma FailureKeepsData(p: PageState, ctx: Session, env: Env)
    ensures var r := Authenticate(p, ctx, env);
      var current := GetCurrentUser(ctx.tg, env.online, env.currentUser);
      && (r.state.backendUser != p.backendUser ==>
            !Skips(ctx) && current.result.Ok? && r.state.backendUser == current.result.value)
      && (r.state.userRoles != p.userRoles ==>
            env.roles.Ok? && r.state.userRoles == env.roles.value && r.state.error.None?)
      && (r.state.error.Some? && !Skips(ctx) ==> r.state.userRoles == p.userRoles)
  {
  }

  /**
   * A run that gets past the login and the user fetch stores the fetched
   * record as `backendUser`, and, when that record has a truthy `user.id`
   * and the roles call answers, stores exactly those roles as `userRoles`.
   */
  lemma SuccessStoresData(p: PageState, ctx: Session, env: Env)
    requires !Skips(ctx)
    requires LoginWithTelegram(ctx.tg, env.online, env.login).result.Ok?
    requires GetCurrentUser(ctx.tg, env.online, env.currentUser).result.Ok?
    ensures var r := Authenticate(p, ctx, env);
      var current := GetCurrentUser(ctx.tg, env.online, env.currentUser);
      && r.state.backendUser == current.result.value
      && (HasUserId(current.result.value) && env.roles.Ok? ==>
            r.state.userRoles == env.roles.value && r.state.error.None?)
  {
  }

  /** A user record without a truthy `user.id` ends the run in success with the earlier roles kept. */
  lemma NoUserIdKeepsRoles(p: PageState, ctx: Session, env: Env)
    requires !Skips(ctx)
    requires LoginWithTelegram(ctx.tg, env.online, env.login).result.Ok?
    requires GetCurrentUser(ctx.tg, env.online, env.currentUser).result.Ok?
    requires !HasUserId(GetCurrentUser(ctx.tg, env.online, env.currentUser).result.value)
    ensures var r := Authenticate(p, ctx, env);
      && r.state.error.None? && r.state.userRoles == p.userRoles && |r.calls| == 2
  {
  }

  /** The host's main button is set up only by a run in which every call succeeded, and only when the host has one. */
  lemma MainButtonOnlyOnSuccess(p: PageState, ctx: Session, env: Env)
    ensures Authenticate(p, ctx, env).showsMainButton <==> !Skips(ctx) && Succeeds(ctx, env) && HasMainButton(ctx)
  {
  }

  /**
   * A retry against the same backend answers is a fixed point: running
   * `authenticateUser` again from the state a run left makes the same calls
   * and ends in the same state.
   */
  lemma RetryIsIdempotent(p: PageState, ctx: Session, env: Env)
    ensures var r := Authenticate(p, ctx, env);
      Authenticate(r.state, ctx, env) == r
  {
  }

  /**
   * Without init data no request ever reaches the network; a run that does
   * not return early stops at the login with the default message (the
   * lost-connection one when offline).
   */
  lemma NoCredentialNoRequests(p: PageState, ctx: Session, env: Env)
    requires !HasInitData(ctx.tg)
    ensures var r := Authenticate(p, ctx, env);
      && r.requests == []
      && (!Skips(ctx) ==> |r.calls| == 1 && r.state.error == Some(if env.online then LoginFailed else ConnectionLost))
  {
    LoginWithoutInitData(ctx.tg, env.online, env.login);
  }

  /** Every request a run sends carries the session's init data in the init-data header. */
  lemma RequestsCarryCredential(p: PageState, ctx: Session, env: Env)
    ensures var r := Authenticate(p, ctx, env);
      forall i | 0 <= i < |r.requests| ::
        && ctx.tg.Some? && ctx.tg.value.initData != ""
        && InitDataHeader in r.requests[i].headers
        && r.requests[i].headers[InitDataHeader] == ctx.tg.value.initData
  {
    if HasInitData(ctx.tg) {
      LoginWithInitData(ctx.tg, env.online, env.login);
      CurrentUserWithInitData(ctx.tg, env.online, env.currentUser);
    } else {
      NoCredentialNoRequests(p, ctx, env);
    }
  }

  /**
   * As written, the roles call throws (a TypeError, whose message text
   * depends on the JavaScript engine): a run that reaches it ends with that
   * message, the user record kept, the earlier roles kept, and the main
   * button never set up.
   */
  lemma RolesCallAsWritten(p: PageState, ctx: Session, env: Env)
    requires env.roles.Err? && env.roles.error.message != ""
    requires !Skips(ctx)
    requires LoginWithTelegram(ctx.tg, env.online, env.login).result.Ok?
    requires GetCurrentUser(ctx.tg, env.online, env.currentUser).result.Ok?
    requires HasUserId(GetCurrentUser(ctx.tg, env.online, env.currentUser).result.value)
    ensures var r := Authenticate(p, ctx, env);
      && r.state.error == Some(env.roles.error.message)
      && r.state.backendUser == GetCurrentUser(ctx.tg, env.online, env.currentUser).result.value
      && r.state.userRoles == p.userRoles
      && !r.showsMainButton
  {
  }

  /** The page component's state cells, with what it did to the outside world. */
  class HomePage {
    var loading: bool
    var error: Option<string>
    var backendUser: Json
    var userRoles: seq<Json>
    /** The service calls made and the requests sent, oldest first. */
    var calls: seq<Invocation>
    var requests: seq<Request>
    /** The text of the host's main button once the page has shown it. */
    var mainButton: Option<string>

    /** `useState(false)`, `useState(null)`, `useState(null)`, `useState([])`. */
    constructor ()
      ensures State() == InitialPage
      ensures calls == [] && requests == [] && mainButton == None
    {
      loading, error, backendUser, userRoles := false, None, Null, [];
      calls, requests, mainButton := [], [], None;
    }

    function State(): PageState
      reads this
    {
      PageState(loading, error, backendUser, userRoles)
    }

    /**
     * `authenticateUser`: the early returns, the two setters, the `try`
     * block, then the `catch` and the `finally`.
     */
    method AuthenticateUser(ctx: Session, env: Env)
      modifies this
      ensures var r := Authenticate(old(State()), ctx, env);
        && State() == r.state
        && calls == old(calls) + r.calls
        && requests == old(requests) + r.requests
        && mainButton == if r.showsMainButton then Some(MainButtonLabel) else old(mainButton)
    {
      if !ctx.ready || ctx.user.None? {
        return;
      }
      if ctx.initDataError.Some? && ctx.initDataError.value != "" {
        return;
      }
      loading := true;
      error := None;
      var failure := Try(ctx, env);
      if failure.Some? {
        error := Some(ErrorText(failure.value));
      }
      loading := false;
    }

    /** The `try` block: the login, then the rest of the sequence when it succeeds. */
    method Try(ctx: Session, env: Env) returns (failure: Option<JsError>)
      modifies this
      ensures var a := TryBlock(old(State()), ctx, env);
        && State() == a.state && failure == a.failure
        && calls == old(calls) + a.calls
        && requests == old(requests) + a.requests
        && mainButton == if a.showsMainButton then Some(MainButtonLabel) else old(mainButton)
    {
      calls := calls + [Invocation(LoginStep, loading)];
      var login := LoginWithTelegram(ctx.tg, env.online, env.login);
      requests := requests + Sent(login);
      if login.result.Err? {
        failure := Some(login.result.error);
        return;
      }
      failure := FetchProfile(ctx, env);
    }

    /** The user fetch, the roles call when the record has a user id, and the main button. */
    method FetchProfile(ctx: Session, env: Env) returns (failure: Option<JsError>)
      modifies this
      ensures var a := AfterLogin(old(State()), ctx, env);
        && State() == a.state && failure == a.failure
        && calls == old(calls) + a.calls
        && requests == old(requests) + a.requests
        && mainButton == if a.showsMainButton then Some(MainButtonLabel) else old(mainButton)
    {
      calls := calls + [Invocation(CurrentUserStep, loading)];
      var current := GetCurrentUser(ctx.tg, env.online, env.currentUser);
      requests := requests + Sent(current);
      if current.result.Err? {
        failure := Some(current.result.error);
        return;
      }
      var userData := current.result.value;
      backendUser := userData;
      failure := None;
      if HasUserId(userData) {
        calls := calls + [Invocation(RolesStep(UserIdOf(userData)), loading)];
        match env.roles {
          case Err(e) => failure := Some(e);
          case Ok(roles) => userRoles := roles;
        }
      }
      if failure.None? && HasMainButton(ctx) {
        mainButton := Some(MainButtonLabel);
      }
    }

    /** `handleRetry`: the same run again, from whatever state the page is in. */
    method HandleRetry(ctx: Session, env: Env)
      modifies this
      ensures var r := Authenticate(old(State()), ctx, env);
        && State() == r.state
        && calls == old(calls) + r.calls
        && requests == old(requests) + r.requests
        && mainButton == if r.showsMainButton then Some(MainButtonLabel) else old(mainButton)
    {
      AuthenticateUser(ctx, env);
    }
  }

  /** The profile screen below its banners: a spinner while loading, else the backend record and the roles when present. */
  datatype ProfileBody = Spinner | Loaded(backendUser: Option<Json>, roles: Option<seq<Json>>)

  /** The three screens; the profile screen's banners carry their text. */
  datatype Screen =
    | MustOpenInTelegram
    | Initializing
    | Profile(info: Option<string>, retryError: Option<string>, body: ProfileBody)

  /** A JSX `{text && ...}` guard on an optional string. */
  predicate Shown(text: Option<string>) {
    text.Some? && text.value != ""
  }

  /**
   * The render: outside Telegram the blocking screen whatever else holds,
   * else the initialising screen until ready, else the profile screen with
   * the init-data banner when there is an init-data error, the retry banner
   * exactly when there is an error, and either the spinner or the backend
   * record (when truthy) and the roles card (when there are roles).
   */
  function SelectScreen(ctx: Session, p: PageState): (s: Screen)
    ensures s.MustOpenInTelegram? <==> !ctx.telegramAvailable
    ensures s.Initializing? <==> ctx.telegramAvailable && !ctx.ready
    ensures s.Profile? <==> ctx.telegramAvailable && ctx.ready
    ensures s.Profile? ==>
      && (s.info.Some? <==> Shown(ctx.initDataError)) && (s.info.Some? ==> s.info == ctx.initDataError)
      && (s.retryError.Some? <==> Shown(p.error)) && (s.retryError.Some? ==> s.retryError == p.error)
      && (s.body.Spinner? <==> p.loading)
    ensures s.Profile? && s.body.Loaded? ==>
      && (s.body.backendUser.Some? <==> Truthy(p.backendUser))
      && (s.body.backendUser.Some? ==> s.body.backendUser.value == p.backendUser)
      && (s.body.roles.Some? <==> |p.userRoles| > 0)
      && (s.body.roles.Some? ==> s.body.roles.value == p.userRoles)
  {
    if !ctx.telegramAvailable then MustOpenInTelegram
    else if !ctx.ready then Initializing
    else
      var body :=
        if p.loading then Spinner
        else Loaded(
          if Truthy(p.backendUser) then Some(p.backendUser) else None,
          if |p.userRoles| > 0 then Some(p.userRoles) else None);
      Profile(
        if Shown(ctx.initDataError) then ctx.initDataError else None,
        if Shown(p.error) then p.error else None,
        body)
  }

  /** Without a bridge the page shows only the blocking screen and never calls a service. */
  lemma ExampleNoBridge(env: Env)
    ensures var ctx := AfterInit(InitialSession, None);
      var r := Authenticate(InitialPage, ctx, env);
      && r.calls == [] && r.requests == []
      && SelectScreen(ctx, r.state) == MustOpenInTelegram
  {
  }

  /**
   * A bridge with an empty `initData`: no call is made, the init-data banner
   * is shown, and neither the backend record nor the roles card appears.
   */
  lemma ExampleEmptyCredential(b: Bridge, env: Env)
    requires b.initData == "" && SignalFailure(b).None? && b.user.Some?
    ensures var ctx := AfterInit(InitialSession, Some(b));
      var r := Authenticate(InitialPage, ctx, env);
      && r.calls == [] && r.requests == []
      && SelectScreen(ctx, r.state) == Profile(Some(InitDataMissingMessage), None, Loaded(None, None))
  {
  }

  /**
   * Init data "abc", a login that answers `{ok: true}`, a user record
   * `{user: {id: 42}}` and roles `[{id: 1, name: "admin"}]`: the three calls
   * go out in order, the record and exactly that role are shown, and no
   * error banner.
   */
  lemma ExampleAdminRoles(b: Bridge, profile: Json, admin: Json, env: Env)
    requires b.initData == "abc" && b.user.Some? && SignalFailure(b).None?
    requires profile == Obj(map["user" := Obj(map["id" := Num(42)])])
    requires admin == Obj(map["id" := Num(1), "name" := Str("admin")])
    requires env.login == Resolved(HttpResponse(200, Obj(map["ok" := Bool(true)])))
    requires env.currentUser == Resolved(HttpResponse(200, profile))
    requires env.roles == Ok([admin])
    ensures var ctx := AfterInit(InitialSession, Some(b));
      var r := Authenticate(InitialPage, ctx, env);
      && r.calls == [Invocation(LoginStep, true), Invocation(CurrentUserStep, true), Invocation(RolesStep(Num(42)), true)]
      && |r.requests| == 2
      && r.state == PageState(false, None, profile, [admin])
      && SelectScreen(ctx, r.state) == Profile(None, None, Loaded(Some(profile), Some([admin])))
  {
    var user := Obj(map["id" := Num(42)]);
    assert Field(profile, "user") == user;
    assert Field(user, "id") == Num(42);
  }

  /**
   * A login that succeeds and a user fetch answered with 401: the run ends
   * with the "invalid or expired" message of the user service, shown with
   * the retry button.
   */
  lemma ExampleProfileUnauthorized(b: Bridge, e: JsError, env: Env)
    requires b.initData != "" && b.user.Some? && SignalFailure(b).None?
    requires env.login.Resolved? && env.currentUser == Rejected(e)
    requires e.response.Some? && e.response.value.status == 401
    ensures var ctx := AfterInit(InitialSession, Some(b));
      var r := Authenticate(InitialPage, ctx, env);
      && |r.calls| == 2
      && r.state.error == Some(CurrentUserUnauthorized)
      && SelectScreen(ctx, r.state).retryError == Some(CurrentUserUnauthorized)
  {
  }
}
