# Telegram Mini App front-end: session bootstrap, API client and home page

This project models, in Dafny, the core of a React front-end that runs as a
Telegram Mini App:

- **The session context** (`telegram_context.dfy`, module `TelegramContext`).
  `TelegramProvider` reads the host bridge (`window.Telegram.WebApp`) once on
  mount. It records whether Telegram is available and whether the signed
  `initData` is missing. It writes the host's theme colours as five CSS
  variables on the root element, including the RGB triple of the text colour
  parsed by `hexToRgb`. It calls the host's `ready()`/`expand()` and then
  marks the session ready. A throw from either call is caught and recorded as
  the session error. `useTelegram` refuses to run outside a provider.
- **The HTTP client** (`api.dfy`, module `Api`). The request interceptor
  attaches the init data as the `Telegram-Init-Data` header. On the login URL
  it also adds `user_id` and `debug` query parameters. The response
  interceptor passes every outcome through and only classifies failures for
  the console. The two services the page uses, `loginWithTelegram` and
  `getCurrentUser`, refuse to send anything without init data. They turn
  every failure into an error with a user-facing message chosen by priority,
  which keeps the caught error as `originalError`.
- **The home page** (`pages.dfy`, module `Pages`). `authenticateUser` returns
  early unless the session is ready, has a Telegram user and has no init-data
  error. It then logs in, fetches the backend user record and, when that
  record has a `user.id`, fetches the roles. On success it sets up the host's
  main button. It sets and clears `loading` around the sequence and shows the
  message of the first failure. `handleRetry` runs it again, and the render
  chooses among the blocking, initialising and profile screens.
- **The JavaScript semantics these rely on**:
  - in `js_values.dfy` (module `JsValues`): JSON values and truthiness,
    `String.prototype.includes`, `substring` with its index clamping, and
    `replace` with a one-character pattern, which removes only the first
    occurrence;
  - in `js_numbers.dfy` (module `JsNumbers`): `parseInt(s, 16)` as
    section 19.2.5 of ECMA-262 defines it, and the decimal text of a number
    in a template literal.
  - `wrappers.dfy` holds `Option` and `Result`.

**Imperative parts.** Code that updates state step by step is written as
classes with methods:
- the provider's state cells and the root element's style, in
  `TelegramProvider`;
- the axios request configuration object, in `RequestConfig`;
- the page's state cells, in `HomePage`.

Each method is proved against a pure function of the old state:
`AfterInit`, `ThemeVars`, `Intercept` and `Authenticate`. The properties the
code promises are proved as lemmas about those functions.

The pure functions that model the source's functions are:
- `TelegramContext.HexToRgb` for `hexToRgb`;
- `JsNumbers.ParseIntHex` for `parseInt(…, 16)`;
- `Api.Intercept` for the request interceptor;
- `Api.InterceptResponse` for the response interceptor;
- `Api.LoginWithTelegram` and `Api.LoginMessage` for `authService.loginWithTelegram` and its message choice;
- `Api.GetCurrentUser` and `Api.CurrentUserMessage` for `userService.getCurrentUser` and its message choice;
- `TelegramContext.AfterInit` for the provider's mount effect;
- `Pages.Authenticate` for `authenticateUser`;
- `Pages.SelectScreen` for the page's render.

The rows below name the lemmas and methods whose contracts state what these
functions do.

**Outside world.** Everything outside the code is a parameter:
- the bridge is a value that may be absent;
- `navigator.onLine` is a boolean;
- what the backend answers to each request is an `HttpOutcome`;
- the outcome of the roles call is an abstract `Result`.

The services read `window.Telegram.WebApp` directly. That is the same object
the provider stores as `tg`, so the page passes the session's `tg` to them.

## Model

| member | source | states |
|---|---|---|
| JsValues.IncludesSpec | src/services/api.js:92 | `includes` is true exactly when the pattern occurs at some index of the text |
| JsValues.SubstringClamps | src/context/TelegramContext.jsx:19-21 | `substring` clamps both indices to the text's length, so a slice past the end is shorter or empty rather than an error |
| JsValues.IndexOfSpec | src/context/TelegramContext.jsx:16 | the index found is that of the first occurrence of the character, and -1 exactly when it does not occur |
| JsValues.ReplaceFirstSpec | src/context/TelegramContext.jsx:16 | `replace('#', '')` removes only the first `#` and leaves a text without one unchanged |
| JsNumbers.HexValueBound | src/context/TelegramContext.jsx:19-21 | n hex digits denote a value below 16^n, so two digits give a byte |
| JsNumbers.ParseIntHexMatchesSteps | src/context/TelegramContext.jsx:19-21 | the one-pass scanner agrees on every input with the step-by-step `parseInt(s, 16)`: skip leading white space, take an optional sign and an optional `0x`, read the longest run of hex digits, and give NaN when that run is empty |
| JsNumbers.ParseIntHexOfDigits | src/context/TelegramContext.jsx:19-21 | a string of hex digits parses to its value, and the empty string to NaN |
| JsNumbers.ParseIntHexBarePrefix | src/context/TelegramContext.jsx:19-21 | `parseInt("0x", 16)` is NaN |
| JsNumbers.ParseIntHexLeadingSpace | src/context/TelegramContext.jsx:19-21 | leading white space is skipped: `parseInt(" f", 16)` is 15 |
| JsNumbers.ParseIntHexMinus | src/context/TelegramContext.jsx:19-21 | a minus sign negates: `parseInt("-f", 16)` is -15 |
| JsNumbers.ParseIntHexStopsAtNonDigit | src/context/TelegramContext.jsx:19-21 | parsing stops at the first non-digit: `parseInt("1g", 16)` is 1 |
| JsNumbers.NatDecimalRoundTrip | src/context/TelegramContext.jsx:73 | the text written for a component is a canonical decimal numeral (no leading zero) that reads back as the same number |
| TelegramContext.UseTelegram | src/context/TelegramContext.jsx:5-11 | inside a provider the hook yields exactly the provided session; outside one it fails with the "must be used within a TelegramProvider" error |
| TelegramContext.HexToRgbSixDigits | src/context/TelegramContext.jsx:14-24 | six hex digits, with or without a leading `#`, give the three byte values that their three digit pairs spell |
| TelegramContext.HexToRgbShortInput | src/context/TelegramContext.jsx:14-24 | on hex digits, a component is NaN exactly when the digits end before its slice starts |
| TelegramContext.HexToRgbThreeDigits | src/context/TelegramContext.jsx:14-24 | the short form `#fff` is not expanded: it gives red 255, green 15 and blue NaN |
| TelegramContext.ThemeVarsSpec | src/context/TelegramContext.jsx:51-74 | exactly the five variables are written; each non-empty host colour is written as given, and the RGB variable is the RGB text of the text colour that was written |
| TelegramContext.ThemeVarFallbacks | src/context/TelegramContext.jsx:51-66 | a colour that is absent or empty falls back to its default: `#ffffff`, `#000000`, `#3390ec` or `#ffffff` |
| TelegramContext.DefaultTextColorRgb | src/context/TelegramContext.jsx:69-74 | without a text colour from the host the RGB variable is `0, 0, 0` |
| TelegramContext.HostSignalsOnce | src/context/TelegramContext.jsx:80-84 | `ready()` and `expand()` are each called at most once, `ready` first, only when the host offers both, and `expand` only after `ready` returned |
| TelegramContext.InitWithoutBridge | src/context/TelegramContext.jsx:36-41 | without a bridge the session is marked unavailable with its message and stays not ready, with no user and no bridge |
| TelegramContext.InitWithBridge | src/context/TelegramContext.jsx:43-86 | with a bridge whose signals do not throw, the session becomes ready and holds the bridge and its user; an empty `initData` is recorded as an error without stopping initialisation, and otherwise the earlier error stays |
| TelegramContext.InitSignalThrows | src/context/TelegramContext.jsx:81-90 | a throwing `ready()` or `expand()` replaces the error with the prefixed message of the throw and leaves `ready` as it was; the bridge and the user are still stored |
| TelegramContext.TelegramProvider.constructor | src/context/TelegramContext.jsx:27-31 | the initial state cells: no bridge, no user, not ready, Telegram assumed available, no error |
| TelegramContext.TelegramProvider.Init | src/context/TelegramContext.jsx:33-91 | the mount effect leaves the context value `AfterInit` of the old one; the root style gains exactly the theme variables; the host receives exactly the signals `HostSignals` lists, and nothing is touched without a bridge |
| TelegramContext.TelegramProvider.SetUpBridge | src/context/TelegramContext.jsx:43-90 | the effect once a bridge exists, with the same three guarantees |
| TelegramContext.TelegramProvider.ApplyTheme | src/context/TelegramContext.jsx:51-74 | the five property writes, one at a time, override exactly the five theme variables of the old style |
| TelegramContext.TelegramProvider.SignalHostAndSettle | src/context/TelegramContext.jsx:80-90 | after the signals, `ready` is set unless a signal threw, and in that case the error is the prefixed message |
| TelegramContext.TelegramProvider.SignalHost | src/context/TelegramContext.jsx:81-84 | the signal calls made, and the message of the one that threw |
| Api.RequestConfig.constructor | src/services/api.js:5-10 | a request starts with the instance's JSON content type and no query parameters |
| Api.InterceptSpec | src/services/api.js:13-34 | the interceptor never changes the URL or the method. The init-data header carries the init data exactly when there is some, and every other header is kept. The `user_id` and `debug` parameters are added, keeping all others, exactly on the login URL with a truthy user id; otherwise the parameters are unchanged. Without init data the request is unchanged |
| Api.InterceptRequest | src/services/api.js:13-34 | the interceptor updates the configuration object in place, as `Intercept` describes, and returns that same object |
| Api.InterceptResponseSpec | src/services/api.js:40-67 | every outcome passes through unchanged. Nothing is logged for a response. A rejection logs one line for its kind of failure (server status, no response, or setup error), plus the extra line exactly for a 401 |
| Api.LoginMessagePriority | src/services/api.js:86-94 | each of the four login messages is chosen exactly in its own case of the order: 401 first, then offline, then a "Network Error" message, else the default |
| Api.CurrentUserMessagePriority | src/services/api.js:118-124 | each of the three user-service messages is chosen exactly in its own case of the order: 401 first, then offline, else the default |
| Api.LocalLoginErrorIsNotNetwork | src/services/api.js:74-94 | the local "initData is missing" error never reads as a network error |
| Api.LoginWithoutInitData | src/services/api.js:70-100 | without init data the login sends no request and rejects with the default message (the lost-connection one when offline), wrapping the local error as `originalError` |
| Api.LoginWithInitData | src/services/api.js:70-100 | with init data the login sends one POST to the login URL. The POST carries the content type, the init-data header and, exactly when the user id is truthy, the `user_id` and `debug` parameters. A response resolves to its body; a rejection rejects with the login message, wrapping it |
| Api.CurrentUserWithoutInitData | src/services/api.js:104-130 | without init data the user fetch sends no request and rejects with the default message (the lost-connection one when offline), wrapping the local error |
| Api.CurrentUserWithInitData | src/services/api.js:104-130 | with init data the user fetch sends one GET to `/users/me` with the init-data header and no query parameters. A response resolves to its body; a rejection rejects with the user-service message, wrapping it |
| Api.NetworkErrorOnlyForLogin | src/services/api.js:86-124 | online and without a 401, an error that mentions "Network Error" is reported by the login as a server problem, but by the user fetch with its plain default |
| Pages.ErrorText | src/pages/HomePage.jsx:117 | the banner text is never empty: it is the error's message when that is non-empty, and the default login message exactly when it is empty |
| Pages.SkipIsNoOp | src/pages/HomePage.jsx:81-87 | a run that returns early changes nothing and calls nothing, and only such a run makes no call |
| Pages.CallOrder | src/pages/HomePage.jsx:89-105 | at most three calls, in the order login, user fetch, roles. Each is made only after every earlier one succeeded, and all while `loading` is true. The roles call is made exactly for a user record with a truthy `user.id`, and it is given that id |
| Pages.ErrorOutcome | src/pages/HomePage.jsx:89-117 | a run that does not return early ends without an error exactly when every call it made succeeded; otherwise the error is the text of the first failure |
| Pages.LoadingSettles | src/pages/HomePage.jsx:89-120 | every run that does not return early ends with `loading` false, whatever the outcome |
| Pages.FailureKeepsData | src/pages/HomePage.jsx:98-117 | `backendUser` changes only to a record the user fetch returned. `userRoles` changes only to roles the roles call returned, in a run without failure. A failed run keeps the earlier roles |
| Pages.SuccessStoresData | src/pages/HomePage.jsx:98-105 | after a successful login and user fetch, `backendUser` is the fetched record; when that record has a truthy `user.id` and the roles call answers, `userRoles` is exactly those roles and the run ends without an error |
| Pages.NoUserIdKeepsRoles | src/pages/HomePage.jsx:102-105 | a user record without a truthy `user.id` ends the run successfully after two calls, with the earlier roles kept |
| Pages.MainButtonOnlyOnSuccess | src/pages/HomePage.jsx:108-114 | the main button is set up exactly when the run did not return early, every call succeeded, and the host has a main button |
| Pages.RetryIsIdempotent | src/pages/HomePage.jsx:127-129 | against the same backend answers, a retry from the state a run left makes the same calls and ends in the same state |
| Pages.NoCredentialNoRequests | src/pages/HomePage.jsx:80-121 | without init data no request reaches the network, and a run that does not return early stops at the login with the default or the lost-connection message |
| Pages.RequestsCarryCredential | src/pages/HomePage.jsx:80-121 | every request a run sends carries the session's non-empty init data in the init-data header |
| Pages.RolesCallAsWritten | src/pages/HomePage.jsx:102-117 | as written, the roles call throws; a run that reaches it ends with the thrown error's message on the banner, with the user record kept, the earlier roles kept, and no main button |
| Pages.HomePage.constructor | src/pages/HomePage.jsx:75-78 | the four state cells start not loading, without an error, with a null user record and no roles |
| Pages.HomePage.AuthenticateUser | src/pages/HomePage.jsx:80-121 | the page's cells end as `Authenticate` computes from their old values. The calls and requests are appended in order, and the main button text is set exactly when the run shows it |
| Pages.HomePage.Try | src/pages/HomePage.jsx:92-114 | the `try` block leaves the state, calls, requests and main button that `TryBlock` gives, and returns its failure |
| Pages.HomePage.FetchProfile | src/pages/HomePage.jsx:97-114 | the part after a successful login leaves what `AfterLogin` gives, and returns its failure |
| Pages.HomePage.HandleRetry | src/pages/HomePage.jsx:127-129 | a retry is one more run of `authenticateUser` from the current state |
| Pages.SelectScreen | src/pages/HomePage.jsx:131-195 | the blocking screen exactly outside Telegram, else the initialising screen exactly until ready, else the profile screen. The profile screen shows the init-data banner and the retry banner exactly when their texts are non-empty, and the spinner exactly while loading. Otherwise it shows the user record exactly when it is truthy, and the roles card exactly when there are roles |
| Pages.ExampleNoBridge | src/pages/HomePage.jsx:131-141 | without a bridge the page calls nothing and shows only the blocking screen |
| Pages.ExampleEmptyCredential | src/pages/HomePage.jsx:84-87 | with an empty `initData` the page calls nothing and shows the init-data banner, with neither a user record nor roles |
| Pages.ExampleAdminRoles | src/pages/HomePage.jsx:80-121 | init data `abc` and a profile `{user: {id: 42}}` with roles `[admin]`: the three calls go out in order, and the record and exactly that role are shown without an error banner |
| Pages.ExampleProfileUnauthorized | src/pages/HomePage.jsx:98-117 | a 401 on the user fetch ends the run with the user service's "invalid or expired" message on the retry banner |

## Left out

- Console output is not modelled: the `console.log`/`warn`/`error` calls, including the init-data excerpt the request interceptor logs. The one exception is the response interceptor's classification of failures, kept as `ApiLog`.
- The transport is not modelled: axios, the base URL `https://backend-bar.onrender.com/api/v1` (kept only as a constant) and the network. The backend's answer to each request is a parameter.
- The request interceptor's error handler is not modelled. It only rejects with the error it is given.
- React itself is not modelled: rendering, the dependency lists of the effects, and re-running `authenticateUser` when the session changes. A run is modelled as one call from a given state. Overlapping asynchronous runs, which could interleave their setters, are not modelled.
- The main button's `onClick` alert, the `UserProfile` component and `JSON.stringify` of the record are not modelled. The model keeps whether the button was set up (with its label) and which record and roles the render shows.
- The root element's style is a map over the five theme variables, not the whole DOM. Theme values are strings; a non-string colour, which could make `replace` throw, is not modelled.
- An absent `initData` is the empty string; the two are falsy wherever the code reads them. `undefined` and `null` are both `Null`.
- JavaScript numbers are unbounded integers here, so precision beyond 2^53 is not modelled. A parsed component is an integer or NaN.
- Strings are sequences of Unicode characters, while JavaScript indexes UTF-16 code units. So `substring`, and with it `hexToRgb`, slices a colour containing a character outside the Basic Multilingual Plane differently, and a lone surrogate cannot be represented. Telegram's theme colours are ASCII `#rrggbb`.
- Roles that are not an array are not modelled: `userRoles` is a sequence.
- Pages.Env: the outcome of the roles call is an abstract value. `userService` defines no `getUserRoles`, so the code as written throws a TypeError there. The text of that TypeError's message depends on the JavaScript engine, so `Pages.RolesCallAsWritten` is stated for any non-empty message. The roles request is therefore not part of the `requests` a run records.
- The services read `window.Telegram.WebApp` themselves. The model hands them the session's `tg`, which the provider took from that same global.
- On failure, the code does not clear the backend user or the roles. A user record without an id keeps the earlier roles rather than getting an empty list.

## Findings

| source | as written | input that shows it | evidently intended | confidence | as-written member | corrected member |
|---|---|---|---|---|---|---|
| src/pages/HomePage.jsx:103 | calls `userService.getUserRoles`, which `src/services/api.js` does not define, so the call throws a TypeError | any run whose user record has a truthy `user.id`, e.g. `{user: {id: 42}}` | a roles service that answers with the user's roles, which the page stores and shows | not executed; high (the function is absent from the only service module) | Pages.RolesCallAsWritten | Pages.SuccessStoresData |
