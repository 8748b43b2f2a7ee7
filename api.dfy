/** The token holder of src/lib/api.ts: the module variable `authToken`, the
    common default headers of the four service clients, the copy of the
    token kept in browser storage, and the two interceptors every client
    runs. The HTTP requests themselves are not modelled. */
module Api {
  import opened Wrappers
  import opened Types
  import opened Browser

  /** The four clients, in the order `setAuthToken` visits them
      (src/lib/api.ts:40). */
  datatype Client = CustomerApi | ProductsApi | OrdersApi | MessageBrokerApi

  const Clients: seq<Client> := [CustomerApi, ProductsApi, OrdersApi, MessageBrokerApi]

  const AuthorizationHeader := "Authorization"

  /** The value of the `Authorization` header for a token. */
  function Bearer(token: string): string {
    "Bearer " + token
  }

  /** An error a request ends with: the HTTP status when a response arrived. */
  datatype ApiError = ApiError(status: Option<int>, message: string)

  const Unauthorized := 401

  /** One client's common default headers after `setAuthToken(token)`
      (src/lib/api.ts:42-48): a truthy token sets `Authorization`, anything
      else deletes it; no other header is touched. */
  function WithDefaultAuth(headers: map<string, string>, token: Option<string>): (r: map<string, string>)
    ensures Truthy(token) ==> AuthorizationHeader in r && r[AuthorizationHeader] == Bearer(token.value)
    ensures !Truthy(token) ==> AuthorizationHeader !in r
    ensures forall k :: k != AuthorizationHeader ==> (k in r <==> k in headers)
    ensures forall k :: k != AuthorizationHeader && k in r ==> r[k] == headers[k]
  {
    if Truthy(token) then headers[AuthorizationHeader := Bearer(token.value)]
    else headers - {AuthorizationHeader}
  }

  /** Storage after `setAuthToken(token)` (src/lib/api.ts:51-57): a truthy
      token is written under `auth_token`, anything else removes that key. */
  function MirrorToken(entries: map<string, string>, token: Option<string>): (r: map<string, string>)
    ensures Lookup(r, AuthTokenKey) == (if Truthy(token) then token else None)
    ensures forall k :: k != AuthTokenKey ==> Lookup(r, k) == Lookup(entries, k)
  {
    if Truthy(token) then entries[AuthTokenKey := token.value]
    else entries - {AuthTokenKey}
  }

  /** What `getAuthToken` returns (src/lib/api.ts:60-72): the in-memory
      token when it is truthy, else the stored one when that is truthy,
      else nothing. */
  function ResolveToken(authToken: Option<string>, stored: Option<string>): (r: Option<string>)
    ensures r.Some? <==> Truthy(authToken) || Truthy(stored)
    ensures r.Some? ==> Truthy(r) && (r == authToken || r == stored)
    ensures Truthy(authToken) ==> r == authToken
  {
    if Truthy(authToken) then authToken
    else if Truthy(stored) then stored
    else None
  }

  /** The request interceptor's change to a request's headers
      (src/lib/api.ts:85-88): set `Authorization` when a token was found,
      leave the headers alone otherwise. */
  function AuthorizeHeaders(headers: map<string, string>, token: Option<string>): (r: map<string, string>)
    ensures Truthy(token) ==> r == headers[AuthorizationHeader := Bearer(token.value)]
    ensures !Truthy(token) ==> r == headers
  {
    if Truthy(token) then headers[AuthorizationHeader := Bearer(token.value)] else headers
  }

  /** Arming and then disarming, or arming twice, leaves the headers as the
      last call set them: `setAuthToken` is last-writer-wins. */
  lemma DefaultAuthLastWins(headers: map<string, string>, t1: Option<string>, t2: Option<string>)
    ensures WithDefaultAuth(WithDefaultAuth(headers, t1), t2) == WithDefaultAuth(headers, t2)
  {
  }

  /** After `setAuthToken(token)` the next `getAuthToken` yields the token
      when it is truthy and nothing otherwise: in particular
      `setAuthToken(null)` leaves no token behind in memory or in storage. */
  lemma SetThenResolve(entries: map<string, string>, token: Option<string>)
    ensures ResolveToken(token, Lookup(MirrorToken(entries, token), AuthTokenKey))
         == (if Truthy(token) then token else None)
  {
  }

  /** The token holder: the module state of src/lib/api.ts. */
  class TokenHolder {
    var authToken: Option<string>
    /** `api.defaults.headers.common` of each client, in `Clients` order,
        holding only the headers this code sets (`Authorization`); the
        headers axios itself puts there, such as `Accept`, are left out. */
    var defaults: seq<map<string, string>>
    const storage: Storage

    ghost predicate Valid()
      reads this
    {
      |defaults| == |Clients|
    }

    /** Module load (src/lib/api.ts:5-31, 34, 75-80): four clients whose
        modelled headers (only those this code sets) start empty, then a
        stored truthy token is armed. */
    constructor Load(storage: Storage)
      modifies storage
      ensures Valid() && this.storage == storage
      ensures var stored := old(storage.GetItem(AuthTokenKey));
        authToken == (if Truthy(stored) then stored else None) &&
        (forall i :: 0 <= i < |Clients| ==> defaults[i] == WithDefaultAuth(map[], stored))
      ensures storage.entries == old(storage.entries)
    {
      this.storage := storage;
      authToken := None;
      defaults := [map[], map[], map[], map[]];
      new;
      var token := storage.GetItem(AuthTokenKey);
      if Truthy(token) {
        SetAuthToken(token);
        assert storage.entries == old(storage.entries);
      }
    }

    /** `setAuthToken(token)` (src/lib/api.ts:36-58). */
    method SetAuthToken(token: Option<string>)
      requires Valid()
      modifies this, storage
      ensures Valid()
      ensures authToken == token
      ensures forall i :: 0 <= i < |Clients| ==> defaults[i] == WithDefaultAuth(old(defaults)[i], token)
      ensures storage.entries == MirrorToken(old(storage.entries), token)
    {
      authToken := token;
      var i := 0;
      while i < |Clients|
        invariant 0 <= i <= |Clients| == |defaults|
        invariant forall j :: 0 <= j < i ==> defaults[j] == WithDefaultAuth(old(defaults)[j], token)
        invariant forall j :: i <= j < |Clients| ==> defaults[j] == old(defaults)[j]
        invariant authToken == token && storage.entries == old(storage.entries)
      {
        if Truthy(token) {
          defaults := defaults[i := defaults[i][AuthorizationHeader := Bearer(token.value)]];
        } else {
          defaults := defaults[i := defaults[i] - {AuthorizationHeader}];
        }
        i := i + 1;
      }
      if Truthy(token) {
        storage.SetItem(AuthTokenKey, token.value);
      } else {
        storage.RemoveItem(AuthTokenKey);
      }
    }

    /** `getAuthToken()` (src/lib/api.ts:60-72): the in-memory token, or the
        stored one, which is then armed. */
    method GetAuthToken() returns (token: Option<string>)
      requires Valid()
      modifies this, storage
      ensures Valid()
      ensures token == ResolveToken(old(authToken), old(storage.GetItem(AuthTokenKey)))
      ensures Truthy(old(authToken)) || !Truthy(old(storage.GetItem(AuthTokenKey))) ==>
        authToken == old(authToken) && defaults == old(defaults) && storage.entries == old(storage.entries)
      ensures !Truthy(old(authToken)) && Truthy(old(storage.GetItem(AuthTokenKey))) ==>
        authToken == token &&
        (forall i :: 0 <= i < |Clients| ==> defaults[i] == WithDefaultAuth(old(defaults)[i], token)) &&
        storage.entries == old(storage.entries)
    {
      if Truthy(authToken) {
        return authToken;
      }
      var stored := storage.GetItem(AuthTokenKey);
      if Truthy(stored) {
        SetAuthToken(stored);
        assert storage.entries == old(storage.entries);
        return stored;
      }
      return None;
    }

    /** The request interceptor (src/lib/api.ts:83-102). */
    method InterceptRequest(headers: map<string, string>) returns (sent: map<string, string>)
      requires Valid()
      modifies this, storage
      ensures Valid()
      ensures sent == AuthorizeHeaders(headers, ResolveToken(old(authToken), old(storage.GetItem(AuthTokenKey))))
      ensures Truthy(old(authToken)) || !Truthy(old(storage.GetItem(AuthTokenKey))) ==>
        authToken == old(authToken) && defaults == old(defaults) && storage.entries == old(storage.entries)
      ensures !Truthy(old(authToken)) && Truthy(old(storage.GetItem(AuthTokenKey))) ==>
        authToken == old(storage.GetItem(AuthTokenKey)) &&
        (forall i :: 0 <= i < |Clients| ==> defaults[i] == WithDefaultAuth(old(defaults)[i], authToken)) &&
        storage.entries == old(storage.entries)
    {
      var token := GetAuthToken();
      if Truthy(token) {
        sent := headers[AuthorizationHeader := Bearer(token.value)];
      } else {
        sent := headers;
      }
    }

    /** The error interceptor (src/lib/api.ts:105-133): a 401 drops the
        token and sends the browser to the login page; every error is
        passed on to the caller as it came. */
    method InterceptError(error: ApiError) returns (rejected: ApiError, redirect: Option<Route>)
      requires Valid()
      modifies this, storage
      ensures Valid()
      ensures rejected == error
      ensures error.status == Some(Unauthorized) ==>
        redirect == Some(LoginRoute) && authToken == None &&
        (forall i :: 0 <= i < |Clients| ==> defaults[i] == old(defaults)[i] - {AuthorizationHeader}) &&
        storage.entries == old(storage.entries) - {AuthTokenKey}
      ensures error.status != Some(Unauthorized) ==>
        redirect == None && authToken == old(authToken) && defaults == old(defaults) &&
        storage.entries == old(storage.entries)
    {
      redirect := None;
      if error.status == Some(Unauthorized) {
        SetAuthToken(None);
        redirect := Some(LoginRoute);
      }
      rejected := error;
    }
  }
}
