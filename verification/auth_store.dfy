/** The session state: the signed-in user, their tokens and an
    authenticated flag, the four actions on it as functions, and the
    projection of it that is persisted. */
module AuthSession {
  import opened Common
  import opened AuthApi

  datatype AuthState = AuthState(user: Option<AuthUser>, tokens: Option<AuthTokens>, isAuthenticated: bool)

  /** `Partial<AuthUser>`: None means the key is absent from the update. */
  datatype UserPatch = UserPatch(id: Option<string>, email: Option<string>, name: Option<string>, role: Option<Role>)

  /** The persisted part of the store. */
  datatype PersistedAuth = PersistedAuth(user: Option<AuthUser>, tokens: Option<AuthTokens>, isAuthenticated: bool)

  /** The store's initial values: signed out. */
  function Initial(): (r: AuthState)
    ensures r.user.None? && r.tokens.None? && !r.isAuthenticated
    ensures Reachable(r)
  {
    AuthState(None, None, false)
  }

  /** `setAuth`: signed in with the given user and tokens, whatever came
      before. */
  function SetAuth(s: AuthState, user: AuthUser, tokens: AuthTokens): (r: AuthState)
    ensures r.user == Some(user) && r.tokens == Some(tokens) && r.isAuthenticated
    ensures Reachable(r)
  {
    AuthState(Some(user), Some(tokens), true)
  }

  /** `clearAuth`: back to the initial values. */
  function ClearAuth(s: AuthState): (r: AuthState)
    ensures r == Initial()
  {
    AuthState(None, None, false)
  }

  /** `{ ...user, ...updates }` */
  function Merge(user: AuthUser, p: UserPatch): (r: AuthUser)
    ensures r.id == (if p.id.Some? then p.id.value else user.id)
    ensures r.email == (if p.email.Some? then p.email.value else user.email)
    ensures r.name == (if p.name.Some? then p.name.value else user.name)
    ensures r.role == (if p.role.Some? then p.role.value else user.role)
  {
    AuthUser(
      if p.id.Some? then p.id.value else user.id,
      if p.email.Some? then p.email.value else user.email,
      if p.name.Some? then p.name.value else user.name,
      if p.role.Some? then p.role.value else user.role)
  }

  /** `updateUser`: merges the patch into a present user; never creates
      one, and leaves tokens and flag alone. */
  function UpdateUser(s: AuthState, p: UserPatch): (r: AuthState)
    ensures r.tokens == s.tokens && r.isAuthenticated == s.isAuthenticated
    ensures r.user.Some? <==> s.user.Some?
    ensures s.user.Some? ==> r.user.value == Merge(s.user.value, p)
    ensures Reachable(s) ==> Reachable(r)
  {
    s.(user := if s.user.Some? then Some(Merge(s.user.value, p)) else None)
  }

  /** `updateTokens`: replaces the tokens and nothing else. */
  function UpdateTokens(s: AuthState, tokens: AuthTokens): (r: AuthState)
    ensures r.user == s.user && r.isAuthenticated == s.isAuthenticated
    ensures r.tokens == Some(tokens)
    ensures Reachable(s) ==> Reachable(r)
  {
    s.(tokens := Some(tokens))
  }

  /** `partialize`: the three state fields, which restore to the state. */
  function Partialize(s: AuthState): (r: PersistedAuth)
    ensures r.user == s.user && r.tokens == s.tokens && r.isAuthenticated == s.isAuthenticated
    ensures Restore(r) == s
  {
    PersistedAuth(s.user, s.tokens, s.isAuthenticated)
  }

  /** Rehydration: the persisted fields written back over a store. */
  function Restore(p: PersistedAuth): AuthState {
    AuthState(p.user, p.tokens, p.isAuthenticated)
  }

  // ---------------------------------------------------------------------
  // Action sequences

  datatype Action =
    | SetAuthAction(user: AuthUser, tokens: AuthTokens)
    | ClearAuthAction
    | UpdateUserAction(patch: UserPatch)
    | UpdateTokensAction(newTokens: AuthTokens)

  function Apply(s: AuthState, a: Action): AuthState {
    match a
    case SetAuthAction(u, t) => SetAuth(s, u, t)
    case ClearAuthAction => ClearAuth(s)
    case UpdateUserAction(p) => UpdateUser(s, p)
    case UpdateTokensAction(t) => UpdateTokens(s, t)
  }

  /** The state after running the actions in order. */
  function Run(s: AuthState, actions: seq<Action>): AuthState
    decreases |actions|
  {
    if actions == [] then s else Run(Apply(s, actions[0]), actions[1..])
  }

  /** The session invariant: authenticated exactly when a user and tokens
      are both present. */
  predicate Consistent(s: AuthState) {
    s.isAuthenticated <==> s.user.Some? && s.tokens.Some?
  }

  /** A stronger invariant that every action keeps: consistent, and no
      user without tokens. */
  predicate Reachable(s: AuthState) {
    Consistent(s) && (s.user.Some? ==> s.tokens.Some?)
  }

  // ---------------------------------------------------------------------
  // Properties of single actions

  lemma InitialIsSignedOut()
    ensures Initial().user.None? && Initial().tokens.None? && !Initial().isAuthenticated
    ensures Reachable(Initial())
  {
  }

  /** setAuth ignores the prior state entirely. */
  lemma SetAuthOverwrites(s: AuthState, s': AuthState, u: AuthUser, t: AuthTokens)
    ensures SetAuth(s, u, t) == SetAuth(s', u, t)
    ensures SetAuth(s, u, t).user == Some(u) && SetAuth(s, u, t).tokens == Some(t)
    ensures SetAuth(s, u, t).isAuthenticated
    ensures Reachable(SetAuth(s, u, t))
  {
  }

  lemma ClearAuthResets(s: AuthState)
    ensures ClearAuth(s) == Initial()
    ensures ClearAuth(ClearAuth(s)) == ClearAuth(s)
  {
  }

  lemma SetThenClear(s: AuthState, u: AuthUser, t: AuthTokens)
    ensures ClearAuth(SetAuth(s, u, t)) == Initial()
  {
  }

  /** No user is synthesised from partial data. */
  lemma UpdateUserWithoutUser(s: AuthState, p: UserPatch)
    requires s.user.None?
    ensures UpdateUser(s, p) == s
  {
  }

  /** On a present user, exactly the supplied fields are replaced. */
  lemma UpdateUserMerges(s: AuthState, p: UserPatch)
    requires s.user.Some?
    ensures UpdateUser(s, p).user.Some?
    ensures var u, u' := s.user.value, UpdateUser(s, p).user.value;
      (p.id.None? ==> u'.id == u.id) && (p.id.Some? ==> u'.id == p.id.value) &&
      (p.email.None? ==> u'.email == u.email) && (p.email.Some? ==> u'.email == p.email.value) &&
      (p.name.None? ==> u'.name == u.name) && (p.name.Some? ==> u'.name == p.name.value) &&
      (p.role.None? ==> u'.role == u.role) && (p.role.Some? ==> u'.role == p.role.value)
  {
  }

  /** An empty patch changes nothing. */
  lemma EmptyPatchIsIdentity(s: AuthState)
    ensures UpdateUser(s, UserPatch(None, None, None, None)) == s
  {
  }

  /** updateUser touches only the user and updateTokens only the tokens. */
  lemma UpdatesTouchOneField(s: AuthState, p: UserPatch, t: AuthTokens)
    ensures UpdateUser(s, p).tokens == s.tokens && UpdateUser(s, p).isAuthenticated == s.isAuthenticated
    ensures UpdateUser(s, p).user.Some? <==> s.user.Some?
    ensures UpdateTokens(s, t).user == s.user && UpdateTokens(s, t).isAuthenticated == s.isAuthenticated
    ensures UpdateTokens(s, t).tokens == Some(t)
  {
  }

  /** updateTokens after clearAuth leaves tokens in a signed-out session. */
  lemma TokensWhileSignedOut(s: AuthState, t: AuthTokens)
    ensures UpdateTokens(ClearAuth(s), t) == AuthState(None, Some(t), false)
    ensures Consistent(UpdateTokens(ClearAuth(s), t))
  {
  }

  /** updateTokens does not preserve Consistent in general: from a state
      with a user and no tokens it produces a user with tokens that is not
      authenticated. */
  lemma UpdateTokensCanBreakConsistency(u: AuthUser, t: AuthTokens)
    ensures Consistent(AuthState(Some(u), None, false))
    ensures !Consistent(UpdateTokens(AuthState(Some(u), None, false), t))
  {
  }

  /** Every action keeps Reachable. */
  lemma ApplyKeepsReachable(s: AuthState, a: Action)
    requires Reachable(s)
    ensures Reachable(Apply(s, a))
  {
  }

  lemma {:induction false} RunKeepsReachable(s: AuthState, actions: seq<Action>)
    requires Reachable(s)
    ensures Reachable(Run(s, actions))
    decreases |actions|
  {
    if actions != [] {
      ApplyKeepsReachable(s, actions[0]);
      RunKeepsReachable(Apply(s, actions[0]), actions[1..]);
    }
  }

  /** From the initial state, whatever the actions, the session is
      authenticated exactly when user and tokens are both present. */
  lemma SessionInvariantHolds(actions: seq<Action>)
    ensures Consistent(Run(Initial(), actions))
  {
    RunKeepsReachable(Initial(), actions);
  }

  /** Only setAuth creates a user: any run without it from a state with no
      user ends with no user. */
  lemma {:induction false} NoUserWithoutSetAuth(s: AuthState, actions: seq<Action>)
    requires s.user.None?
    requires forall i :: 0 <= i < |actions| ==> !actions[i].SetAuthAction?
    ensures Run(s, actions).user.None?
    decreases |actions|
  {
    if actions != [] {
      NoUserWithoutSetAuth(Apply(s, actions[0]), actions[1..]);
    }
  }

  /** The persisted projection copies exactly the three fields, and
      restoring it gives the state back. */
  lemma PersistRoundTrip(s: AuthState, p: PersistedAuth)
    ensures Partialize(s).user == s.user && Partialize(s).tokens == s.tokens
    ensures Partialize(s).isAuthenticated == s.isAuthenticated
    ensures Restore(Partialize(s)) == s
    ensures Partialize(Restore(p)) == p
  {
  }
}

/** The session store object: one shared, mutable instance whose actions
    overwrite its fields in place. */
module AuthStore {
  import opened Common
  import opened AuthApi
  import opened AuthSession

  class Store {
    var user: Option<AuthUser>
    var tokens: Option<AuthTokens>
    var isAuthenticated: bool

    function State(): AuthState
      reads this
    {
      AuthState(user, tokens, isAuthenticated)
    }

    constructor ()
      ensures State() == Initial()
    {
      user := None;
      tokens := None;
      isAuthenticated := false;
    }

    method SetAuth(u: AuthUser, t: AuthTokens)
      modifies this
      ensures State() == AuthSession.SetAuth(old(State()), u, t)
    {
      user, tokens, isAuthenticated := Some(u), Some(t), true;
    }

    method ClearAuth()
      modifies this
      ensures State() == AuthSession.ClearAuth(old(State()))
    {
      user, tokens, isAuthenticated := None, None, false;
    }

    method UpdateUser(p: UserPatch)
      modifies this
      ensures State() == AuthSession.UpdateUser(old(State()), p)
      ensures tokens == old(tokens) && isAuthenticated == old(isAuthenticated)
    {
      if user.Some? {
        user := Some(Merge(user.value, p));
      }
    }

    method UpdateTokens(t: AuthTokens)
      modifies this
      ensures State() == AuthSession.UpdateTokens(old(State()), t)
      ensures user == old(user) && isAuthenticated == old(isAuthenticated)
    {
      tokens := Some(t);
    }

    /** The value the persistence layer writes out. */
    function Persisted(): (p: PersistedAuth)
      reads this
      ensures Restore(p) == State()
    {
      Partialize(State())
    }
  }
}
