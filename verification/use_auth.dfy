/** The authentication hooks: the profile query's parameters and the
    success and failure handlers of the login, registration and logout
    mutations, as ordered effects on the session store, the browser's
    key-value storage, and a log of what was sent to the query cache and
    the notification area. */
module UseAuth {
  import opened Common
  import opened Js
  import opened AuthApi
  import opened AuthSession
  import AuthStore
  import CacheTime
  import opened QueryKeys
  import Client
  import UserApi

  datatype ToastKind = Success | Failure

  /** What the handlers ask of the world outside the store and storage, in
      the order they ask it. */
  datatype Effect =
    | Toast(kind: ToastKind, message: string)
    | Invalidate(prefix: QueryKey)
    | ClearCache

  /** A mutation error; only its message is read. */
  datatype Error = Error(message: string)

  const LOGIN_OK := "Login successful!"
  const LOGIN_FAILED := "Login failed"
  const REGISTER_OK := "Registration successful!"
  const REGISTER_FAILED := "Registration failed"
  const LOGOUT_OK := "Logged out successfully"

  // ---------------------------------------------------------------------
  // Views of the effect log

  /** The entries of the log satisfying p, in order. */
  function Keep(log: seq<Effect>, p: Effect -> bool): (r: seq<Effect>)
    ensures |r| <= |log|
    decreases |log|
  {
    if log == [] then []
    else (if p(log[0]) then [log[0]] else []) + Keep(log[1..], p)
  }

  lemma {:induction false} KeepAppend(a: seq<Effect>, b: seq<Effect>, p: Effect -> bool)
    ensures Keep(a + b, p) == Keep(a, p) + Keep(b, p)
    decreases |a|
  {
    if a == [] {
      assert a + b == b;
    } else {
      var ab := a + b;
      assert ab != [] && ab[0] == a[0];
      assert ab[1..] == a[1..] + b;
      calc {
        Keep(ab, p);
        (if p(a[0]) then [a[0]] else []) + Keep(a[1..] + b, p);
        { KeepAppend(a[1..], b, p); }
        (if p(a[0]) then [a[0]] else []) + (Keep(a[1..], p) + Keep(b, p));
        ((if p(a[0]) then [a[0]] else []) + Keep(a[1..], p)) + Keep(b, p);
      }
    }
  }

  /** A one-entry log is kept whole or dropped. */
  lemma KeepSingle(e: Effect, p: Effect -> bool)
    ensures Keep([e], p) == if p(e) then [e] else []
  {
    assert Keep([e], p) == (if p(e) then [e] else []) + Keep([], p);
  }

  /** Appending entries to the log appends their kept part to the view. */
  lemma KeepExtend(prev: seq<Effect>, added: seq<Effect>, p: Effect -> bool)
    requires |added| <= 2
    ensures Keep(prev + added, p) ==
      Keep(prev, p) + (if |added| > 0 && p(added[0]) then [added[0]] else [])
                    + (if |added| > 1 && p(added[1]) then [added[1]] else [])
  {
    KeepAppend(prev, added, p);
    if |added| == 1 {
      KeepSingle(added[0], p);
    } else if |added| == 2 {
      assert added == [added[0]] + [added[1]];
      KeepAppend([added[0]], [added[1]], p);
      KeepSingle(added[0], p);
      KeepSingle(added[1], p);
    }
  }

  predicate IsToast(e: Effect) { e.Toast? }

  predicate IsCacheCommand(e: Effect) { !e.Toast? }

  /** The notifications shown, in order. */
  function Notifications(log: seq<Effect>): seq<Effect> {
    Keep(log, IsToast)
  }

  /** The commands sent to the query cache, in order. */
  function CacheCommands(log: seq<Effect>): seq<Effect> {
    Keep(log, IsCacheCommand)
  }

  /** `error.message || fallback`. */
  function FailureMessage(error: Error, fallback: string): (r: string)
    requires fallback != ""
    ensures r != ""
    ensures error.message != "" ==> r == error.message
    ensures error.message == "" ==> r == fallback
  {
    Or(Some(error.message), fallback)
  }

  // ---------------------------------------------------------------------
  // The profile query

  datatype QueryOptions = QueryOptions(key: QueryKey, enabled: bool, staleTime: nat, fetch: Client.Request)

  /** The options `useCurrentUser` passes to the query layer. */
  function ProfileQuery(s: AuthState): (q: QueryOptions)
    ensures q.key == UserProfile() && UserAll() <= q.key
    ensures q.enabled <==> s.isAuthenticated
    ensures q.staleTime == 300000
    ensures q.fetch == Client.Request(Client.GET, "/users/profile", None, None)
  {
    QueryOptions(UserProfile(), s.isAuthenticated, CacheTime.MEDIUM, UserApi.GetProfile())
  }

  // ---------------------------------------------------------------------
  // The handlers

  class AuthHooks {
    const store: AuthStore.Store
    /** `localStorage` */
    var storage: map<string, string>
    var log: seq<Effect>

    constructor (store: AuthStore.Store, storage: map<string, string>)
      ensures this.store == store && this.storage == storage && log == []
    {
      this.store := store;
      this.storage := storage;
      log := [];
    }

    /** The shared body of the login and registration success handlers. */
    method SignedIn(data: AuthResponse, message: string)
      modifies this, store
      ensures store.State() == SetAuth(old(store.State()), data.user, data.tokens)
      ensures storage == old(storage)[Client.ACCESS_TOKEN_KEY := data.tokens.accessToken]
      ensures log == old(log) + [Toast(Success, message), Invalidate(UserAll())]
      ensures Notifications(log) == Notifications(old(log)) + [Toast(Success, message)]
      ensures CacheCommands(log) == CacheCommands(old(log)) + [Invalidate(UserAll())]
    {
      store.SetAuth(data.user, data.tokens);
      storage := storage[Client.ACCESS_TOKEN_KEY := data.tokens.accessToken];
      log := log + [Toast(Success, message)];
      log := log + [Invalidate(UserAll())];
      KeepExtend(old(log), [Toast(Success, message), Invalidate(UserAll())], IsToast);
      KeepExtend(old(log), [Toast(Success, message), Invalidate(UserAll())], IsCacheCommand);
    }

    /** The shared body of the login and registration failure handlers. */
    method Failed(error: Error, fallback: string)
      requires fallback != ""
      modifies this
      ensures store.State() == old(store.State()) && storage == old(storage)
      ensures log == old(log) + [Toast(Failure, FailureMessage(error, fallback))]
      ensures Notifications(log) == Notifications(old(log)) + [Toast(Failure, FailureMessage(error, fallback))]
      ensures CacheCommands(log) == CacheCommands(old(log))
    {
      log := log + [Toast(Failure, FailureMessage(error, fallback))];
      KeepExtend(old(log), [Toast(Failure, FailureMessage(error, fallback))], IsToast);
      KeepExtend(old(log), [Toast(Failure, FailureMessage(error, fallback))], IsCacheCommand);
    }

    /** `useLogin` onSuccess */
    method OnLoginSuccess(data: AuthResponse)
      modifies this, store
      ensures store.State() == SetAuth(old(store.State()), data.user, data.tokens)
      ensures storage == old(storage)[Client.ACCESS_TOKEN_KEY := data.tokens.accessToken]
      ensures log == old(log) + [Toast(Success, LOGIN_OK), Invalidate(UserAll())]
    {
      SignedIn(data, LOGIN_OK);
    }

    /** `useLogin` onError */
    method OnLoginError(error: Error)
      modifies this
      ensures store.State() == old(store.State()) && storage == old(storage)
      ensures log == old(log) + [Toast(Failure, FailureMessage(error, LOGIN_FAILED))]
    {
      Failed(error, LOGIN_FAILED);
    }

    /** `useRegister` onSuccess */
    method OnRegisterSuccess(data: AuthResponse)
      modifies this, store
      ensures store.State() == SetAuth(old(store.State()), data.user, data.tokens)
      ensures storage == old(storage)[Client.ACCESS_TOKEN_KEY := data.tokens.accessToken]
      ensures log == old(log) + [Toast(Success, REGISTER_OK), Invalidate(UserAll())]
    {
      SignedIn(data, REGISTER_OK);
    }

    /** `useRegister` onError */
    method OnRegisterError(error: Error)
      modifies this
      ensures store.State() == old(store.State()) && storage == old(storage)
      ensures log == old(log) + [Toast(Failure, FailureMessage(error, REGISTER_FAILED))]
    {
      Failed(error, REGISTER_FAILED);
    }

    /** The part of logout done whatever the server answered. */
    method SignedOut()
      modifies this, store
      ensures store.State() == AuthSession.Initial()
      ensures storage == old(storage) - {Client.ACCESS_TOKEN_KEY}
      ensures log == old(log) + [ClearCache]
    {
      store.ClearAuth();
      storage := storage - {Client.ACCESS_TOKEN_KEY};
      log := log + [ClearCache];
    }

    /** `useLogout` onSuccess */
    method OnLogoutSuccess()
      modifies this, store
      ensures store.State() == AuthSession.Initial()
      ensures storage == old(storage) - {Client.ACCESS_TOKEN_KEY}
      ensures log == old(log) + [ClearCache, Toast(Success, LOGOUT_OK)]
      ensures Notifications(log) == Notifications(old(log)) + [Toast(Success, LOGOUT_OK)]
      ensures CacheCommands(log) == CacheCommands(old(log)) + [ClearCache]
    {
      SignedOut();
      log := log + [Toast(Success, LOGOUT_OK)];
      KeepExtend(old(log), [ClearCache, Toast(Success, LOGOUT_OK)], IsToast);
      KeepExtend(old(log), [ClearCache, Toast(Success, LOGOUT_OK)], IsCacheCommand);
    }

    /** `useLogout` onError: the same clean-up, without a notification. */
    method OnLogoutError()
      modifies this, store
      ensures store.State() == AuthSession.Initial()
      ensures storage == old(storage) - {Client.ACCESS_TOKEN_KEY}
      ensures log == old(log) + [ClearCache]
      ensures Notifications(log) == Notifications(old(log))
      ensures CacheCommands(log) == CacheCommands(old(log)) + [ClearCache]
    {
      SignedOut();
      KeepExtend(old(log), [ClearCache], IsToast);
      KeepExtend(old(log), [ClearCache], IsCacheCommand);
    }
  }

  // ---------------------------------------------------------------------
  // Properties across handlers

  /** The success handlers notify once and invalidate once, notification
      first. */
  lemma SuccessNotifiesThenInvalidates(prev: seq<Effect>, message: string)
    ensures var log := prev + [Toast(Success, message), Invalidate(UserAll())];
      Notifications(log) == Notifications(prev) + [Toast(Success, message)] &&
      CacheCommands(log) == CacheCommands(prev) + [Invalidate(UserAll())] &&
      log[|prev|].Toast? && log[|prev| + 1].Invalidate?
  {
    KeepExtend(prev, [Toast(Success, message), Invalidate(UserAll())], IsToast);
    KeepExtend(prev, [Toast(Success, message), Invalidate(UserAll())], IsCacheCommand);
  }

  /** Logout's two outcomes send the same commands to the query cache and
      differ only by the success notification. */
  lemma LogoutOutcomesAgree(prev: seq<Effect>)
    ensures CacheCommands(prev + [ClearCache, Toast(Success, LOGOUT_OK)]) == CacheCommands(prev + [ClearCache])
    ensures Notifications(prev + [ClearCache, Toast(Success, LOGOUT_OK)]) ==
            Notifications(prev + [ClearCache]) + [Toast(Success, LOGOUT_OK)]
    ensures Notifications(prev + [ClearCache]) == Notifications(prev)
  {
    KeepExtend(prev, [ClearCache, Toast(Success, LOGOUT_OK)], IsCacheCommand);
    KeepExtend(prev, [ClearCache], IsCacheCommand);
    KeepExtend(prev, [ClearCache, Toast(Success, LOGOUT_OK)], IsToast);
    KeepExtend(prev, [ClearCache], IsToast);
  }

  /** The errors the mutations see come from the response stage, whose
      message is never empty: the "... failed" fallback is never shown for
      them. */
  lemma ApiErrorsNeverFallBack(e: Client.RawError, fallback: string)
    requires fallback != ""
    ensures FailureMessage(Error(Client.Normalize(e).message), fallback) == Client.Normalize(e).message
  {
  }

  /** After a successful sign-in, the request stage attaches the new access
      token to every request made in the browser, unless that token is
      empty. */
  lemma SignedInRequestsCarryToken(storage: map<string, string>, data: AuthResponse, headers: Client.Headers)
    ensures var after := storage[Client.ACCESS_TOKEN_KEY := data.tokens.accessToken];
      Client.WithBearer(Some(headers), true, after) ==
        if data.tokens.accessToken != "" then Some(headers[Client.AUTHORIZATION := "Bearer " + data.tokens.accessToken])
        else Some(headers)
  {
  }

  /** After logout, the request stage attaches nothing. */
  lemma SignedOutRequestsCarryNoToken(storage: map<string, string>, headers: Option<Client.Headers>, isClient: bool)
    ensures Client.WithBearer(headers, isClient, storage - {Client.ACCESS_TOKEN_KEY}) == headers
  {
  }

  /** Signing in enables the profile query; signing out disables it. */
  lemma ProfileQueryFollowsSession(s: AuthState, u: AuthUser, t: AuthTokens)
    ensures ProfileQuery(SetAuth(s, u, t)).enabled
    ensures !ProfileQuery(ClearAuth(s)).enabled
  {
  }

  /** The invalidation issued on sign-in reaches the profile query's key. */
  lemma SignInInvalidatesProfile()
    ensures UserAll() <= ProfileQuery(Initial()).key
  {
  }
}
