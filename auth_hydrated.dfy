/** The start-up reconciliation of the hook `useAuthHydrated`
    (src/hooks/useAuthHydrated.ts): once the persisted flag is back, the
    stored token and the flag are brought into line, and `isHydrated` tells
    the pages when that has happened. The two paths are not symmetric: the
    callback that runs when hydration finishes repairs in both directions,
    the check that runs when hydration had already finished only restores a
    missing flag. */
module AuthHydrated {
  import opened Wrappers
  import opened Browser
  import opened Api
  import opened AuthStore

  // ---------------------------------------------------------------------
  // The reconciliation as a state machine
  // ---------------------------------------------------------------------

  /** Is a truthy token stored, is the store's flag set, has the hook
      finished hydrating. */
  datatype Snapshot = Snapshot(tokenStored: bool, flag: bool, hydrated: bool)

  /** The callback given to `onFinishHydration`
      (src/hooks/useAuthHydrated.ts:10-27). */
  function FinishHydration(s: Snapshot): (r: Snapshot)
    ensures r.hydrated
    ensures r.tokenStored == r.flag
    ensures s.tokenStored == s.flag ==> r == s.(hydrated := true)
    ensures s.tokenStored ==> r.tokenStored && r.flag
    ensures !s.tokenStored ==> !r.tokenStored && !r.flag
  {
    if s.tokenStored && !s.flag then Snapshot(true, true, true)
    else if !s.tokenStored && s.flag then Snapshot(false, false, true)
    else s.(hydrated := true)
  }

  /** The branch taken when the store had already hydrated
      (src/hooks/useAuthHydrated.ts:30-42): it never logs out. */
  function CheckHydrated(s: Snapshot): (r: Snapshot)
    ensures r.hydrated
    ensures r.tokenStored == s.tokenStored
    ensures r.flag == (s.flag || s.tokenStored)
  {
    if s.tokenStored && !s.flag then Snapshot(true, true, true)
    else s.(hydrated := true)
  }

  /** The `isAuthenticated` the hook returns (src/hooks/useAuthHydrated.ts:50):
      the flag, or a stored token. */
  function Reported(s: Snapshot): bool {
    s.flag || s.tokenStored
  }

  /** After the finishing callback the reported value is the flag itself,
      and it says "authenticated" exactly when a token is stored. */
  lemma FinishedIsConsistent(s: Snapshot)
    ensures Reported(FinishHydration(s)) == FinishHydration(s).flag
    ensures Reported(FinishHydration(s)) == s.tokenStored
  {
  }

  /** The already-hydrated check never changes what the hook reports, and a
      flag left set without a token (as a 401 leaves it) survives it; only
      the finishing callback clears it. */
  lemma AlreadyHydratedAsymmetry(s: Snapshot)
    ensures Reported(CheckHydrated(s)) == Reported(s)
    ensures !s.tokenStored && s.flag ==>
      CheckHydrated(s) == s.(hydrated := true) && Reported(CheckHydrated(s)) &&
      !FinishHydration(s).flag && !Reported(FinishHydration(s))
  {
  }

  // ---------------------------------------------------------------------
  // The hook's state
  // ---------------------------------------------------------------------

  class Hydration {
    /** `useState(false)` (src/hooks/useAuthHydrated.ts:5). */
    var isHydrated: bool
    const auth: Auth

    ghost predicate Valid()
      reads this, auth, auth.api, auth.cart
    {
      auth.Valid()
    }

    constructor (auth: Auth)
      requires auth.Valid()
      ensures Valid() && this.auth == auth && !isHydrated
    {
      this.auth := auth;
      isHydrated := false;
    }

    function StoredToken(): Option<string>
      reads auth, auth.api, auth.api.storage
    {
      auth.api.storage.GetItem(AuthTokenKey)
    }

    function Snap(): Snapshot
      reads this, auth, auth.api, auth.api.storage
    {
      Snapshot(Truthy(StoredToken()), auth.isAuthenticated, isHydrated)
    }

    /** The hook's `isAuthenticated` (src/hooks/useAuthHydrated.ts:50). */
    function IsAuthenticated(): (b: bool)
      reads this, auth, auth.api, auth.api.storage
      ensures b == Reported(Snap())
    {
      auth.isAuthenticated || Truthy(StoredToken())
    }

    /** The callback run when hydration finishes
        (src/hooks/useAuthHydrated.ts:10-27): a stored token with the flag
        down is re-armed and the flag raised; the flag up with no stored
        token is a logout; otherwise nothing but `isHydrated` changes. */
    method OnFinishHydration()
      requires Valid()
      modifies this, auth, auth.api, auth.api.storage, auth.cart
      ensures Valid()
      ensures Snap() == FinishHydration(old(Snap()))
      ensures old(Truthy(StoredToken())) && !old(auth.isAuthenticated) ==>
        auth.api.authToken == old(StoredToken()) && auth.user == old(auth.user) &&
        (forall i :: 0 <= i < |Clients| ==>
          auth.api.defaults[i] == WithDefaultAuth(old(auth.api.defaults)[i], old(StoredToken()))) &&
        auth.cart.items == old(auth.cart.items) && auth.api.storage.entries == old(auth.api.storage.entries)
      ensures !old(Truthy(StoredToken())) && old(auth.isAuthenticated) ==>
        auth.State() == AuthState(None, false) && auth.api.authToken == None &&
        (forall i :: 0 <= i < |Clients| ==>
          auth.api.defaults[i] == old(auth.api.defaults)[i] - {AuthorizationHeader}) &&
        auth.api.storage.entries == old(auth.api.storage.entries) - {AuthTokenKey} &&
        auth.cart.items == []
      ensures old(Truthy(StoredToken())) == old(auth.isAuthenticated) ==>
        auth.State() == old(auth.State()) && auth.cart.items == old(auth.cart.items) &&
        auth.api.authToken == old(auth.api.authToken) && auth.api.defaults == old(auth.api.defaults) &&
        auth.api.storage.entries == old(auth.api.storage.entries)
    {
      var token := auth.api.storage.GetItem(AuthTokenKey);
      if Truthy(token) && !auth.isAuthenticated {
        auth.api.SetAuthToken(token);
        assert auth.api.storage.entries == old(auth.api.storage.entries);
        auth.isAuthenticated := true;
      } else if !Truthy(token) && auth.isAuthenticated {
        auth.Logout();
      }
      isHydrated := true;
    }

    /** The check made at mount when the store has already hydrated
        (src/hooks/useAuthHydrated.ts:30-42): only the missing-flag repair. */
    method CheckAlreadyHydrated()
      requires Valid()
      modifies this, auth, auth.api, auth.api.storage
      ensures Valid()
      ensures Snap() == CheckHydrated(old(Snap()))
      ensures auth.user == old(auth.user) && auth.cart.items == old(auth.cart.items)
      ensures auth.api.storage.entries == old(auth.api.storage.entries)
      ensures old(Truthy(StoredToken())) && !old(auth.isAuthenticated) ==>
        auth.api.authToken == old(StoredToken()) &&
        (forall i :: 0 <= i < |Clients| ==>
          auth.api.defaults[i] == WithDefaultAuth(old(auth.api.defaults)[i], old(StoredToken())))
      ensures !(old(Truthy(StoredToken())) && !old(auth.isAuthenticated)) ==>
        auth.api.authToken == old(auth.api.authToken) && auth.api.defaults == old(auth.api.defaults)
    {
      var token := auth.api.storage.GetItem(AuthTokenKey);
      if Truthy(token) && !auth.isAuthenticated {
        auth.api.SetAuthToken(token);
        assert auth.api.storage.entries == old(auth.api.storage.entries);
        auth.isAuthenticated := true;
      }
      isHydrated := true;
    }

    /** The effect body (src/hooks/useAuthHydrated.ts:8-45). When the store
        has already hydrated it is the check above. Otherwise it only
        subscribes, so nothing changes and the pages keep seeing
        `isHydrated == false` until the callback runs. */
    method Mount(hasHydrated: bool)
      requires Valid()
      modifies this, auth, auth.api, auth.api.storage
      ensures Valid()
      ensures auth.user == old(auth.user) && auth.cart.items == old(auth.cart.items)
      ensures auth.api.storage.entries == old(auth.api.storage.entries)
      ensures hasHydrated ==> Snap() == CheckHydrated(old(Snap()))
      ensures hasHydrated && old(Truthy(StoredToken())) && !old(auth.isAuthenticated) ==>
        auth.api.authToken == old(StoredToken()) &&
        (forall i :: 0 <= i < |Clients| ==>
          auth.api.defaults[i] == WithDefaultAuth(old(auth.api.defaults)[i], old(StoredToken())))
      ensures !(hasHydrated && old(Truthy(StoredToken())) && !old(auth.isAuthenticated)) ==>
        auth.api.authToken == old(auth.api.authToken) && auth.api.defaults == old(auth.api.defaults)
      ensures !hasHydrated ==> Snap() == old(Snap())
    {
      if hasHydrated {
        CheckAlreadyHydrated();
      }
    }
  }
}
