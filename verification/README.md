# Front-end template core, modelled in Dafny

This project models the logic in a Next.js front-end template that can be stated exactly:

- **Session store.** A shared object holding `(user, tokens, isAuthenticated)`. It has four actions: `setAuth`, `clearAuth`, `updateUser` and `updateTokens`. `partialize` picks out the part that is persisted.
- **UI store.** A shared object with four independent fields: sidebar, active modal, theme and page-loading flag. Each field has its own setter, and the sidebar also has a toggle.
- **HTTP client.** The verb helpers (`api.get`, `api.post`, …) build requests. A request stage attaches a bearer token. A response stage passes successes through unchanged and turns every failure into an `ApiError`. The helpers then return `res.data`.
- **Service facades.** A base path joined to each operation's sub-path. Each operation of the auth facade (`/auth`) and the user facade (`/users`) is modelled as a request descriptor: verb, url, body and query parameters.
- **Auth hooks.** The `onSuccess`/`onError` handlers of login, register and logout. They run as ordered effects on the session store, the browser's `localStorage` (a map from key to string), and a log of the notifications and query-cache commands issued. The profile query's key, `enabled` flag and stale time are also modelled.
- **String helpers.** `truncate`, `capitalize` and `safeJsonParse`.
- **Constants and configuration.** The cache lifetimes, the query-key builders, and the environment fallback rules.

The source is TypeScript. Code in it that changes state in place is modelled as Dafny classes with `modifies` clauses:
- the two stores;
- the request config whose headers the request stage rewrites;
- the hook world.

Every method of those classes is tied by its `ensures` to a pure function on a value-level state. The lemmas are stated about those functions. Everything else is modelled as functions over datatypes.

Three properties a reader might expect of this code do not hold as one might guess. The model follows the code in each case:

- **Notification order.** One might expect a login or registration success to finish the store write, the token write and the cache invalidation before the success notification can be seen. The code emits the notification *before* `invalidateQueries` (src/hooks/use-auth.ts:34-35). The effect log records that order.
- **Session invariant.** One might expect `isAuthenticated` to hold exactly when a user and tokens are both present. No single action keeps that from every state: `updateTokens` breaks it when a user is present without tokens (`AuthSession.UpdateTokensCanBreakConsistency`). No action sequence from the initial state reaches such a state, however. So the property holds after every action sequence that starts from the initial state (`AuthSession.SessionInvariantHolds`). `updateTokens` after `clearAuth` keeps it. It does leave tokens in a session that is not authenticated (`AuthSession.TokensWhileSignedOut`).
- **Failure fallbacks.** The hooks' failure messages fall back to "Login failed" or "Registration failed" when the error message is empty. The errors they receive come from the response stage, and that stage never produces an empty message. So those fallbacks are never shown for errors that come through it (`UseAuth.ApiErrorsNeverFallBack`).

Some inputs are parameters of the model:
- whether the code runs in a browser (`isClient`);
- the storage map;
- the environment map;
- `Number` on a non-empty string (`toNumber`);
- `JSON.parse` (`parse`);
- the network itself (`transport` in `Client.Send`).

## Model

| member | source | states |
|---|---|---|
| CacheTime.Values | src/config/constants.ts:4-15 | SHORT, MEDIUM, LONG, VERY_LONG, DAY are 60000, 300000, 1800000, 3600000, 86400000 ms |
| CacheTime.Increasing | src/config/constants.ts:4-15 | the lifetimes strictly increase from SHORT to DAY |
| CacheTime.Ratios | src/config/constants.ts:6-14 | MEDIUM = 5·SHORT, LONG = 6·MEDIUM, VERY_LONG = 2·LONG, DAY = 24·VERY_LONG |
| QueryKeys.UserDetail | src/config/constants.ts:25 | `user.detail(id)` has `user.all` as prefix and `id` as its second element |
| QueryKeys.UserProfile | src/config/constants.ts:26 | `user.profile()` has `user.all` as prefix |
| QueryKeys.ProductsList | src/config/constants.ts:31 | `products.list(f)` has `products.all` as prefix and the filters as third element |
| QueryKeys.ProductsDetail | src/config/constants.ts:32 | `products.detail(id)` has `products.all` as prefix and `id` second |
| QueryKeys.DetailOfProfileIsProfile | src/config/constants.ts:25-26 | `user.detail("profile")` equals `user.profile()` |
| QueryKeys.FeaturesAreDisjoint | src/config/constants.ts:21-33 | no user key starts with the products prefix and no products key with the user prefix |
| QueryKeys.DetailInjective | src/config/constants.ts:25-32 | detail keys are equal exactly when their ids are |
| Js.Truthy | src/api/client.ts:47 | a string-or-undefined is truthy exactly when it is neither undefined nor the empty string |
| Js.OrElse | src/api/client.ts:83-84 | JavaScript "or" on two strings-or-undefined: the first when it is truthy, otherwise the second whatever it is |
| Js.Or | src/config/index.ts:8-13 | JavaScript "or" of a string-or-undefined with a non-empty literal: the string when truthy, else the literal, so never empty |
| Js.GetItem | src/api/client.ts:46 | `localStorage.getItem(key)`: the stored string when the key is present, otherwise null |
| Config.StringSetting | src/config/index.ts:8-13 | a string setting is the variable when set and non-empty, else the default; never empty |
| Config.NumberSetting | src/config/index.ts:14 | the timeout is the default when the variable is unset or empty or parses to NaN or 0, else the parsed number |
| Config.Flag | src/config/index.ts:17-18 | a flag is on exactly when its variable is the string "true" |
| Config.Load | src/config/index.ts:6-20 | each field of `config` follows its rule, with the literal defaults; the timeout is never 0 |
| Config.EmptyEnvironmentGivesDefaults | src/config/index.ts:6-20 | with no variables: "Minisource App", "http://localhost:3000", "1.0.0", "http://localhost:8080/api", 30000, both features off |
| Config.EmptyIsUnset | src/config/index.ts:8-18 | setting a variable to "" gives the same config as leaving it unset |
| Config.FlagIsExact | src/config/index.ts:17-18 | "TRUE" and "1" do not enable a flag; "true" does |
| Utils.SliceTo | src/lib/utils.ts:46 | `slice(0, end)` is a prefix of the string; a negative end counts back from the end, clamped at 0 |
| Utils.Truncate | src/lib/utils.ts:44-47 | unchanged when `length` is at least the length of `s`; otherwise the first `length` characters plus "...", so of length `length + 3` for a non-negative length |
| Utils.TruncateCanLengthen | src/lib/utils.ts:46 | for `length` from 0 up to below the length of `s`, the result is longer than `s` exactly when `length` exceeds the length of `s` minus 3 |
| Utils.TruncateFits | src/lib/utils.ts:44-47 | the result is at most `length + 3` long and truncating it again to `length + 3` changes nothing |
| Utils.UpperAscii | src/lib/utils.ts:61 | ASCII upper-casing shifts lower-case letters by 32 and leaves other characters alone |
| Utils.Capitalize | src/lib/utils.ts:59-62 | length kept; the first character upper-cased, the rest unchanged; "" stays "" |
| Utils.CapitalizeIdempotent | src/lib/utils.ts:59-62 | capitalising twice equals capitalising once |
| Utils.SafeJsonParse | src/lib/utils.ts:84-91 | fallback for null or "", fallback when parsing throws, the parsed value otherwise |
| Client.Get | src/api/client.ts:105-106 | GET with the url and the params, no body |
| Client.Post | src/api/client.ts:108-109 | POST with the url and the body, no params |
| Client.Put | src/api/client.ts:111-112 | PUT with the url and the body, no params |
| Client.Patch | src/api/client.ts:114-115 | PATCH with the url and the body, no params |
| Client.Delete | src/api/client.ts:117 | DELETE with the url, no body, no params |
| Client.StoredToken | src/api/client.ts:45-47 | a token is used only in the browser and only when the stored value is present and non-empty |
| Client.WithBearer | src/api/client.ts:45-51 | Authorization becomes "Bearer " + token when there is a token and a header object; every other header unchanged; otherwise the headers as they were |
| Client.RequestConfig.constructor | src/api/client.ts:43 | the config the interceptor receives: the request and its (possibly absent) header object |
| Client.RequestStage | src/api/client.ts:42-52 | the interceptor rewrites the config's headers in place as WithBearer says and returns the same config; it has no failure path |
| Client.Normalize | src/api/client.ts:82-87 | message: body message if non-empty, else the error's own if non-empty, else "An error occurred" (never empty); code: body code if non-empty, else the error's code; status: the response status, absent without response; details: the body's, unchanged |
| Client.ResponseStage | src/api/client.ts:59-90 | successes pass through unchanged; failures are rejected with the normalised error |
| Client.Unwrap | src/api/client.ts:105-117 | each helper resolves to the response's `data` and rejects with the stage's error unchanged |
| Client.Send | src/api/client.ts:42-117 | one call is request stage, transport, response stage, unwrap, in that order |
| Client.UnauthorizedIsNotSpecial | src/api/client.ts:66-87 | a 401 is normalised exactly like any other status |
| Client.TransportFailure | src/api/client.ts:82-87 | without a response: no status, no details, the error's code, its message or the generic one |
| Client.UpstreamBodyWins | src/api/client.ts:82-87 | body `{message: X, code: C}` with status S gives exactly `{X, C, S, body details}` |
| Client.NormalizeFixedPoint | src/api/client.ts:82-87 | an ApiError with a status that is sent back as an upstream body is normalised to itself |
| Client.SuccessReturnsData | src/api/client.ts:60-62 | a successful response yields its `data` |
| Client.FailureAlwaysHasMessage | src/api/client.ts:83-89 | every failure rejects, and always with a non-empty message |
| Base.Url | src/api/base.ts:15-17 | `url(p)` starts with the base path, continues with `p`, and is as long as the base path and `p` together |
| Base.DefaultPathIsBase | src/api/base.ts:15 | `url()` is the base path |
| Base.UrlInjective | src/api/base.ts:16 | different sub-paths give different urls |
| Base.UrlAppend | src/api/base.ts:16 | joining a sub-path in two steps equals joining it at once |
| AuthApi.EncodeLogin | src/api/services/auth.ts:7-10 | the login body is an object with exactly "email" and "password", holding the credentials' values |
| AuthApi.EncodeRegister | src/api/services/auth.ts:12-16 | the registration body is an object with exactly "email", "password" and "name", holding the credentials' values |
| AuthApi.Login | src/api/services/auth.ts:47-49 | POST "/auth/login" with the credentials as body |
| AuthApi.Register | src/api/services/auth.ts:54-56 | POST "/auth/register" with the credentials as body |
| AuthApi.Logout | src/api/services/auth.ts:61-63 | POST "/auth/logout" with no body |
| AuthApi.RefreshToken | src/api/services/auth.ts:68-70 | POST "/auth/refresh" with body `{refreshToken}` |
| AuthApi.ForgotPassword | src/api/services/auth.ts:75-77 | POST "/auth/forgot-password" with body `{email}` |
| AuthApi.ResetPassword | src/api/services/auth.ts:82-84 | POST "/auth/reset-password" with body `{token, password}` |
| AuthApi.Describe | src/api/services/auth.ts:39-85 | every auth operation is a POST under "/auth" without params; only logout has no body |
| AuthApi.DistinctEndpoints | src/api/services/auth.ts:47-84 | two operations with the same url are the same kind of operation |
| UserApi.EncodeUpdate | src/api/services/user.ts:67-69 | the update body holds exactly the fields supplied |
| UserApi.EncodePage | src/api/services/user.ts:53-55 | the query parameters hold exactly the page fields supplied |
| UserApi.GetProfile | src/api/services/user.ts:39-41 | GET "/users/profile" |
| UserApi.GetById | src/api/services/user.ts:46-48 | GET "/users/" + id |
| UserApi.GetAll | src/api/services/user.ts:53-55 | GET "/users" with the params as query parameters and no body |
| UserApi.EncodeCreate | src/api/services/user.ts:17-21 | the creation body is an object with exactly "email", "name" and "password", holding the DTO's values |
| UserApi.Create | src/api/services/user.ts:60-62 | POST "/users" with the DTO as body |
| UserApi.Update | src/api/services/user.ts:67-69 | PATCH "/users/" + id with the DTO as body |
| UserApi.Delete | src/api/services/user.ts:74-76 | DELETE "/users/" + id |
| UserApi.ProfileShadowsId | src/api/services/user.ts:39-48 | `getById("profile")` is the same request as `getProfile()` |
| UserApi.Describe | src/api/services/user.ts:31-77 | every user url starts with "/users"; reads are GET without body; only the listing has params; only create and update have a body |
| UserApi.SameResourcePerId | src/api/services/user.ts:46-76 | get, update and delete of one id share the url and differ in verb |
| AuthSession.Initial | src/stores/auth.store.ts:25-27 | the store starts signed out: no user, no tokens, not authenticated, which satisfies the session invariant |
| AuthSession.SetAuth | src/stores/auth.store.ts:29-34 | signed in with exactly the given user and tokens, whatever the prior state, and the session invariant holds after it |
| AuthSession.ClearAuth | src/stores/auth.store.ts:36-41 | every field back to its initial value |
| AuthSession.UpdateUser | src/stores/auth.store.ts:43-46 | a present user becomes the merge of it with the patch; no user is created; tokens and flag unchanged; the session invariant is kept |
| AuthSession.UpdateTokens | src/stores/auth.store.ts:48-51 | the tokens are replaced, user and flag unchanged; the session invariant is kept from any state where a user implies tokens |
| AuthSession.Partialize | src/stores/auth.store.ts:56-60 | the persisted value holds exactly user, tokens and flag, and restoring it gives the state back |
| AuthSession.Merge | src/stores/auth.store.ts:45 | each field of the merged user is the supplied one when present, else the old one |
| AuthSession.InitialIsSignedOut | src/stores/auth.store.ts:25-27 | the initial state is (null, null, false) |
| AuthSession.SetAuthOverwrites | src/stores/auth.store.ts:29-34 | `setAuth(u, t)` gives (u, t, true) whatever the prior state |
| AuthSession.ClearAuthResets | src/stores/auth.store.ts:36-41 | `clearAuth` gives the initial state and is idempotent |
| AuthSession.SetThenClear | src/stores/auth.store.ts:29-41 | `setAuth` then `clearAuth` gives the initial state |
| AuthSession.UpdateUserWithoutUser | src/stores/auth.store.ts:43-46 | with no user, `updateUser` changes nothing |
| AuthSession.UpdateUserMerges | src/stores/auth.store.ts:43-46 | with a user, exactly the supplied fields are overwritten |
| AuthSession.EmptyPatchIsIdentity | src/stores/auth.store.ts:45 | an update with no fields changes nothing |
| AuthSession.UpdatesTouchOneField | src/stores/auth.store.ts:43-51 | `updateUser` changes only the user, `updateTokens` only the tokens; neither changes isAuthenticated |
| AuthSession.TokensWhileSignedOut | src/stores/auth.store.ts:36-51 | `updateTokens(t)` after `clearAuth` gives (null, t, false), which is still consistent |
| AuthSession.UpdateTokensCanBreakConsistency | src/stores/auth.store.ts:48-51 | from (user, null, false) `updateTokens` gives an inconsistent state |
| AuthSession.ApplyKeepsReachable | src/stores/auth.store.ts:29-51 | every action keeps "consistent, and no user without tokens" |
| AuthSession.RunKeepsReachable | src/stores/auth.store.ts:29-51 | any action sequence keeps that invariant |
| AuthSession.SessionInvariantHolds | src/stores/auth.store.ts:24-51 | after any action sequence from the initial state, isAuthenticated holds exactly when user and tokens are present |
| AuthSession.NoUserWithoutSetAuth | src/stores/auth.store.ts:29-51 | without `setAuth`, no action sequence creates a user |
| AuthSession.PersistRoundTrip | src/stores/auth.store.ts:56-60 | the persisted projection copies exactly user, tokens and isAuthenticated, and restores to the same state |
| AuthStore.Store.constructor | src/stores/auth.store.ts:25-27 | a new store is in the initial state |
| AuthStore.Store.SetAuth | src/stores/auth.store.ts:29-34 | the store's state becomes `setAuth` of the old one |
| AuthStore.Store.ClearAuth | src/stores/auth.store.ts:36-41 | the store's state becomes `clearAuth` of the old one |
| AuthStore.Store.UpdateUser | src/stores/auth.store.ts:43-46 | the store's state becomes `updateUser` of the old one; tokens and flag untouched |
| AuthStore.Store.UpdateTokens | src/stores/auth.store.ts:48-51 | the store's state becomes `updateTokens` of the old one; user and flag untouched |
| AuthStore.Store.Persisted | src/stores/auth.store.ts:56-60 | the persisted value restores to the store's current state |
| UiModel.Initial | src/stores/ui.store.ts:29-43 | sidebar open, no modal, theme "system", not loading |
| UiModel.ToggleSidebar | src/stores/ui.store.ts:30 | the sidebar flag is negated and every other field is unchanged |
| UiModel.SetSidebarOpen | src/stores/ui.store.ts:31 | the sidebar flag becomes the argument and every other field is unchanged |
| UiModel.OpenModal | src/stores/ui.store.ts:35 | the given modal is active and every other field is unchanged |
| UiModel.CloseModal | src/stores/ui.store.ts:36 | no modal is active and every other field is unchanged |
| UiModel.SetTheme | src/stores/ui.store.ts:40 | the theme becomes the argument and every other field is unchanged |
| UiModel.SetPageLoading | src/stores/ui.store.ts:44 | the page-loading flag becomes the argument and every other field is unchanged |
| UiModel.ThemeName | src/stores/ui.store.ts:15 | a theme is one of "light", "dark", "system" |
| UiModel.InitialValues | src/stores/ui.store.ts:29-43 | the initial state is sidebar open, no modal, theme "system", not loading |
| UiModel.ToggleTwiceIsIdentity | src/stores/ui.store.ts:30 | toggling negates the sidebar flag; toggling twice is the identity |
| UiModel.SettersAreIdempotent | src/stores/ui.store.ts:31-44 | every setter, and `closeModal`, is idempotent |
| UiModel.OpenModalReplaces | src/stores/ui.store.ts:35 | opening a modal replaces any open one |
| UiModel.ActionsTouchOneField | src/stores/ui.store.ts:27-45 | each action changes only its own field |
| UiModel.ThemeOnlyBySetTheme | src/stores/ui.store.ts:38-40 | a run without `setTheme` keeps the theme |
| UiStore.Store.constructor | src/stores/ui.store.ts:27-45 | a new store is in the initial state |
| UiStore.Store.ToggleSidebar | src/stores/ui.store.ts:30 | state becomes the toggled old state |
| UiStore.Store.SetSidebarOpen | src/stores/ui.store.ts:31 | state becomes the old one with the sidebar flag set |
| UiStore.Store.OpenModal | src/stores/ui.store.ts:35 | state becomes the old one with the modal set |
| UiStore.Store.CloseModal | src/stores/ui.store.ts:36 | state becomes the old one with no modal |
| UiStore.Store.SetTheme | src/stores/ui.store.ts:40 | state becomes the old one with the theme set |
| UiStore.Store.SetPageLoading | src/stores/ui.store.ts:44 | state becomes the old one with the loading flag set |
| UseAuth.FailureMessage | src/hooks/use-auth.ts:38 | the error's message when non-empty, else the fallback; never empty |
| UseAuth.ProfileQuery | src/hooks/use-auth.ts:10-19 | key ['user','profile'] under ['user'], enabled exactly when authenticated, stale after 300000 ms, fetching GET "/users/profile" |
| UseAuth.AuthHooks.SignedIn | src/hooks/use-auth.ts:30-36 | store = `setAuth(user, tokens)`, "accessToken" = the access token, one success notification, then invalidation of ['user'] |
| UseAuth.AuthHooks.Failed | src/hooks/use-auth.ts:37-39 | store and storage unchanged, one failure notification, no cache command |
| UseAuth.AuthHooks.OnLoginSuccess | src/hooks/use-auth.ts:30-36 | the sign-in effects with "Login successful!" |
| UseAuth.AuthHooks.OnLoginError | src/hooks/use-auth.ts:37-39 | one failure notification with the error message or "Login failed"; nothing else changes |
| UseAuth.AuthHooks.OnRegisterSuccess | src/hooks/use-auth.ts:52-57 | the sign-in effects with "Registration successful!" |
| UseAuth.AuthHooks.OnRegisterError | src/hooks/use-auth.ts:58-60 | one failure notification with the error message or "Registration failed"; nothing else changes |
| UseAuth.AuthHooks.SignedOut | src/hooks/use-auth.ts:80-84 | store reset to the initial state, "accessToken" removed, whole cache cleared |
| UseAuth.AuthHooks.OnLogoutSuccess | src/hooks/use-auth.ts:73-78 | the sign-out effects followed by one success notification |
| UseAuth.AuthHooks.OnLogoutError | src/hooks/use-auth.ts:79-84 | the sign-out effects and no notification |
| UseAuth.SuccessNotifiesThenInvalidates | src/hooks/use-auth.ts:30-36 | a sign-in adds exactly one notification and one invalidation, the notification first |
| UseAuth.LogoutOutcomesAgree | src/hooks/use-auth.ts:73-84 | both logout outcomes send the same cache commands; only success notifies |
| UseAuth.ApiErrorsNeverFallBack | src/hooks/use-auth.ts:37-39 | for errors from the response stage, the failure notification carries the normalised message |
| UseAuth.SignedInRequestsCarryToken | src/hooks/use-auth.ts:33 | after sign-in, browser requests carry "Bearer " + the new token, unless it is empty |
| UseAuth.SignedOutRequestsCarryNoToken | src/hooks/use-auth.ts:75 | after logout, the request stage leaves headers unchanged |
| UseAuth.ProfileQueryFollowsSession | src/hooks/use-auth.ts:11-16 | the profile query is enabled after `setAuth` and disabled after `clearAuth` |
| UseAuth.SignInInvalidatesProfile | src/hooks/use-auth.ts:35 | the ['user'] invalidation covers the profile query's key |

## Left out

- **Axios instance.** Creating the instance with its base URL, timeout, default `Content-Type` header and `withCredentials` (src/api/client.ts:32-39) is library configuration. Requests are modelled with the url the facades build.
- **Request-interceptor error handler.** This handler (src/api/client.ts:53-55) re-rejects the error it is given. Failures of earlier request stages are not modelled.
- **401 refresh-and-retry.** The flow at src/api/client.ts:68-78 is only a comment, so it has no behaviour to model. `error.config` is read there and nowhere else.
- **HTTP.** Real HTTP is the `transport` function parameter of `Client.Send`.
- **Query cache.** React-query's cache, its prefix matching for `invalidateQueries`, and `useQuery`/`useMutation` scheduling are not modelled. The hooks record the commands they issue in an effect log. The `mutationFn` calls are not modelled: each handler is called with the outcome.
- **Notifications.** Sonner's rendering is not modelled. A notification is a log entry of kind and message.
- **Persistence.** Zustand's `persist` JSON storage under "auth-storage" and its rehydration are left out. `AuthSession.Restore` is the write-back of the three persisted fields over a store that holds only them.
- **Store subscriptions.** Re-rendering and subscriptions on store change are left out.
- AuthSession.Merge: a `Partial<AuthUser>` key that is present with the value `undefined` overwrites the field with `undefined` in JavaScript. The model treats such a key as absent (None).
- Utils.Capitalize: the first character must be ASCII. JavaScript's `toUpperCase` maps other characters by Unicode rules, and some of them, such as "ß", become longer. Those cases have no contract here.
- Utils.Truncate: the length is an integer. Fractional lengths are not modelled.
- Utils.Truncate: lengths count Unicode characters (Dafny's `string`), while JavaScript's `str.length` counts UTF-16 code units. The two agree only on strings without characters outside the Basic Multilingual Plane. On a string with such a character, for example an emoji, the source may truncate where the model does not, and its cut may fall inside a surrogate pair.
- Utils.SliceTo: slice positions count Unicode characters, while JavaScript's `slice` counts UTF-16 code units. The two agree only on strings without characters outside the Basic Multilingual Plane. A JavaScript `slice` can split a surrogate pair and leave a lone surrogate, which a Dafny string cannot hold.
- Config.NumberSetting: `Number` on a non-empty string is the parameter `toNumber`, and its results are integers. The parameter does not model floating point, `Infinity` or the exact JavaScript parsing rules.
- **JSON values.** JSON numbers (`Js.Json`) are integers. Floating point is not modelled.
- **Other helpers.** `cn`, `formatCurrency`, `formatDate`, `delay` and `generateId` (src/lib/utils.ts) are left out. They are class merging, Intl formatting, timers and randomness.
- **Runtime check.** `isServer`/`isClient` is the `isClient` parameter of the request stage.
- **Other files.** The presentational components and pages, `next.config.ts`, `use-local-storage.ts`, `use-media-query.ts`, the barrel re-exports and the shared type declarations are left out. They are markup, build configuration, framework lifecycle or browser events.
- **Runtime values.** Values outside the declared TypeScript types are not modelled, such as a non-string `message` in an error body or a `null` token passed to `updateTokens`.
