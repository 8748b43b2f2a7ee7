/** The authentication store `useAuthStore` (src/store/index.ts:32-85): the
    current user and the authenticated flag, `login`, `logout` (which also
    empties the cart) and `updateUser`, and the part of the state that the
    `persist` middleware writes to storage. */
module AuthStore {
  import opened Wrappers
  import opened Types
  import opened Browser
  import opened Api
  import opened CartStore
  import opened Forms

  // ---------------------------------------------------------------------
  // updateUser's shallow merge
  // ---------------------------------------------------------------------

  /** `Partial<User>`: each field is present (`Some`) or absent (`None`). */
  datatype UserPatch = UserPatch(id: Option<int>, email: Option<string>, role: Option<Role>)

  const EmptyPatch := UserPatch(None, None, None)

  /** `{ ...user, ...patch }`: the fields the patch supplies win, the others
      are kept. */
  function MergeUser(u: User, patch: UserPatch): (r: User)
    ensures patch.id.Some? ==> r.id == patch.id.value
    ensures patch.id.None? ==> r.id == u.id
    ensures patch.email.Some? ==> r.email == patch.email.value
    ensures patch.email.None? ==> r.email == u.email
    ensures patch.role.Some? ==> r.role == patch.role.value
    ensures patch.role.None? ==> r.role == u.role
  {
    User(patch.id.GetOr(u.id), patch.email.GetOr(u.email), patch.role.GetOr(u.role))
  }

  /** An empty patch changes nothing, and applying a patch twice is applying
      it once. */
  lemma MergeUserLaws(u: User, patch: UserPatch)
    ensures MergeUser(u, EmptyPatch) == u
    ensures MergeUser(MergeUser(u, patch), patch) == MergeUser(u, patch)
  {
  }

  // ---------------------------------------------------------------------
  // What survives a reload
  // ---------------------------------------------------------------------

  /** The store's data fields. */
  datatype AuthState = AuthState(user: Option<User>, isAuthenticated: bool)

  /** The store's initial state (src/store/index.ts:35-36). */
  const InitialAuth := AuthState(None, false)

  /** What `persist` writes under `auth-storage`: the flag alone
      (src/store/index.ts:78-83). */
  datatype PersistedAuth = PersistedAuth(isAuthenticated: bool)

  function Partialize(s: AuthState): (p: PersistedAuth)
    ensures p.isAuthenticated == s.isAuthenticated
  {
    PersistedAuth(s.isAuthenticated)
  }

  /** Rehydration merges the persisted fields over the current state. */
  function Rehydrate(current: AuthState, p: PersistedAuth): (r: AuthState)
    ensures r.user == current.user
    ensures r.isAuthenticated == p.isAuthenticated
  {
    current.(isAuthenticated := p.isAuthenticated)
  }

  /** After a reload the flag is what it was, but the user record is gone:
      only `isAuthenticated` is persisted. */
  lemma ReloadKeepsOnlyFlag(s: AuthState)
    ensures Rehydrate(InitialAuth, Partialize(s)) == AuthState(None, s.isAuthenticated)
    ensures s.user.Some? ==> Rehydrate(InitialAuth, Partialize(s)) != s
  {
  }

  // ---------------------------------------------------------------------
  // The store
  // ---------------------------------------------------------------------

  class Auth {
    var user: Option<User>
    var isAuthenticated: bool
    /** The token holder of src/lib/api.ts, with the browser storage it
        shares with this store. */
    const api: TokenHolder
    /** The cart store that `logout` clears. */
    const cart: Cart

    ghost predicate Valid()
      reads this, api, cart
    {
      api.Valid() && cart.Valid()
    }

    function State(): AuthState
      reads this
    {
      AuthState(user, isAuthenticated)
    }

    constructor (api: TokenHolder, cart: Cart)
      requires api.Valid() && cart.Valid()
      ensures Valid() && State() == InitialAuth
      ensures this.api == api && this.cart == cart
    {
      this.api := api;
      this.cart := cart;
      user := None;
      isAuthenticated := false;
    }

    /** `login(user, token)` (src/store/index.ts:38-50): store the token,
        arm the clients with it, and record the user. A falsy (empty) token
        is written and then removed again by `setAuthToken`. */
    method Login(u: User, token: string)
      requires Valid()
      modifies this, api, api.storage
      ensures Valid()
      ensures State() == AuthState(Some(u), true)
      ensures api.authToken == Some(token)
      ensures forall i :: 0 <= i < |Clients| ==>
        api.defaults[i] == WithDefaultAuth(old(api.defaults)[i], Some(token))
      ensures api.storage.entries == MirrorToken(old(api.storage.entries), Some(token))
      ensures cart.items == old(cart.items)
    {
      api.storage.SetItem(AuthTokenKey, token);
      api.SetAuthToken(Some(token));
      assert api.storage.entries == MirrorToken(old(api.storage.entries), Some(token));
      user := Some(u);
      isAuthenticated := true;
    }

    /** `logout()` (src/store/index.ts:52-67): remove the token from
        storage and from the clients, forget the user, and clear the cart. */
    method Logout()
      requires Valid()
      modifies this, api, api.storage, cart
      ensures Valid()
      ensures State() == AuthState(None, false)
      ensures api.authToken == None
      ensures forall i :: 0 <= i < |Clients| ==>
        api.defaults[i] == old(api.defaults)[i] - {AuthorizationHeader}
      ensures api.storage.entries == old(api.storage.entries) - {AuthTokenKey}
      ensures cart.items == []
    {
      api.storage.RemoveItem(AuthTokenKey);
      api.SetAuthToken(None);
      assert api.storage.entries == old(api.storage.entries) - {AuthTokenKey};
      user := None;
      isAuthenticated := false;
      cart.ClearCart();
    }

    /** `updateUser(patch)` (src/store/index.ts:69-76): a shallow merge into
        the current user, and nothing at all when there is none. */
    method UpdateUser(patch: UserPatch)
      modifies this
      ensures user == (if old(user).Some? then Some(MergeUser(old(user).value, patch)) else None)
      ensures isAuthenticated == old(isAuthenticated)
    {
      if user.Some? {
        user := Some(MergeUser(user.value, patch));
      }
    }
  }

  /** A 401 on any request is not a logout: the error interceptor drops the
      token from memory, from the clients and from storage, but the user
      record, the authenticated flag and the cart stay as they were
      (src/lib/api.ts:123-129). */
  method ReceiveUnauthorized(auth: Auth, message: string) returns (redirect: Option<Route>)
    requires auth.Valid()
    modifies auth.api, auth.api.storage
    ensures auth.Valid()
    ensures redirect == Some(LoginRoute)
    ensures auth.State() == old(auth.State()) && auth.cart.items == old(auth.cart.items)
    ensures auth.api.authToken == None
    ensures forall i :: 0 <= i < |Clients| ==>
      auth.api.defaults[i] == old(auth.api.defaults)[i] - {AuthorizationHeader}
    ensures auth.api.storage.entries == old(auth.api.storage.entries) - {AuthTokenKey}
  {
    var _, r := auth.api.InterceptError(ApiError(Some(Unauthorized), message));
    redirect := r;
  }

  /** What a 401 leads to as written: the redirect to `/login` reloads the
      page, the store comes back from storage with its flag still set (the
      user record is not persisted), and the login page's effect
      (src/app/login/page.tsx:37-42) sends the visitor home, although no
      token is left to authenticate with. */
  method UnauthorizedReloadAtLogin(auth: Auth, message: string) returns (loginRedirect: Option<Route>)
    requires auth.Valid()
    modifies auth.api, auth.api.storage
    ensures auth.Valid()
    ensures AuthTokenKey !in auth.api.storage.entries
    ensures loginRedirect == GuestOnlyRedirect(old(auth.isAuthenticated))
    ensures old(auth.isAuthenticated) ==> loginRedirect == Some(HomeRoute)
  {
    var _ := ReceiveUnauthorized(auth, message);
    var reloaded := Rehydrate(InitialAuth, Partialize(auth.State()));
    loginRedirect := GuestOnlyRedirect(reloaded.isAuthenticated);
  }

  /** The 401 as a logout, which is what it is meant to be: the session
      ends, so after the reload the login page is shown to the visitor. */
  method ReceiveUnauthorizedAsLogout(auth: Auth, message: string) returns (redirect: Option<Route>, loginRedirect: Option<Route>)
    requires auth.Valid()
    modifies auth, auth.api, auth.api.storage, auth.cart
    ensures auth.Valid()
    ensures redirect == Some(LoginRoute)
    ensures auth.State() == AuthState(None, false) && auth.cart.items == []
    ensures auth.api.authToken == None
    ensures forall i :: 0 <= i < |Clients| ==>
      auth.api.defaults[i] == old(auth.api.defaults)[i] - {AuthorizationHeader}
    ensures auth.api.storage.entries == old(auth.api.storage.entries) - {AuthTokenKey}
    ensures loginRedirect == None
  {
    var _, r := auth.api.InterceptError(ApiError(Some(Unauthorized), message));
    redirect := r;
    auth.Logout();
    var reloaded := Rehydrate(InitialAuth, Partialize(auth.State()));
    loginRedirect := GuestOnlyRedirect(reloaded.isAuthenticated);
  }
}
