/**
 * The session token holder of src/auth.tsx: the module-level `memoryToken`
 * slot that the request gateway reads, and the `AuthProvider` whose React
 * state (`accessToken`, `user`) is kept in step with it.
 */
module Auth {
  import opened Web

  /** The process-wide `memoryToken` slot; it starts as null. */
  class TokenStore {
    var memoryToken: Option<string>

    constructor ()
      ensures memoryToken == None
    {
      memoryToken := None;
    }

    /** `getMemoryToken()`: never fails and changes nothing. */
    function Get(): (token: Option<string>)
      reads this
      ensures token == memoryToken
    {
      memoryToken
    }

    /** `setMemoryToken(token)`: a read right after it returns `token`; nothing else changes. */
    method Set(token: Option<string>)
      modifies this
      ensures Get() == token
    {
      memoryToken := token;
    }
  }

  /** The value the provider publishes through its context. */
  datatype ContextValue = ContextValue(
    isAuthenticated: bool,
    accessToken: Option<string>,
    user: Option<string>)

  /**
   * What `initAuth` does with the outcome of its silent refresh: for an OK
   * response whose body is an object, the `accessToken` and `userEmail`
   * properties to store; for anything else (a failed fetch, a non-OK status,
   * a body that is not JSON or is null) nothing, because the exception is
   * caught and only logged.
   */
  function InitAuthUpdate(r: FetchResult): (update: Option<(Option<string>, Option<string>)>)
    ensures update.Some? <==> r.Fetched? && IsOk(r.response) && r.response.body.JsonObject?
    ensures update.Some? ==>
      var fields := r.response.body.fields;
      && (update.value.0.Some? <==> "accessToken" in fields)
      && (update.value.0.Some? ==> update.value.0.value == fields["accessToken"])
      && (update.value.1.Some? <==> "userEmail" in fields)
      && (update.value.1.Some? ==> update.value.1.value == fields["userEmail"])
  {
    match r
    case FetchFailed => None
    case Fetched(response) =>
      if !IsOk(response) then None
      else match response.body
        case Unparseable => None
        case JsonNull => None
        case JsonObject(_) =>
          Some((Field(response.body, "accessToken"), Field(response.body, "userEmail")))
  }

  class AuthProvider {
    const store: TokenStore
    var accessToken: Option<string>
    var user: Option<string>

    /** Both pieces of React state start as null; the shared slot is left as it is. */
    constructor (store: TokenStore)
      ensures this.store == store && accessToken == None && user == None
      ensures !IsAuthenticated()
    {
      this.store := store;
      accessToken := None;
      user := None;
    }

    /** `!!accessToken`. */
    predicate IsAuthenticated()
      reads this
      ensures IsAuthenticated() <==> accessToken.Some? && |accessToken.value| > 0
    {
      Truthy(accessToken)
    }

    /** The memo'd context value. */
    function Context(): (c: ContextValue)
      reads this
      ensures c.isAuthenticated == IsAuthenticated()
      ensures c.accessToken == accessToken && c.user == user
    {
      ContextValue(IsAuthenticated(), accessToken, user)
    }

    /** `setAccessToken(token)`: the shared slot and the React state receive the same value. */
    method SetAccessToken(token: Option<string>)
      modifies this, store
      ensures store.Get() == token && accessToken == token
      ensures store.Get() == accessToken
      ensures user == old(user)
    {
      store.Set(token);
      accessToken := token;
    }

    method SetUser(u: Option<string>)
      modifies this
      ensures user == u && accessToken == old(accessToken)
    {
      user := u;
    }

    /** `logout()`: token and user become null everywhere, so the provider is no longer authenticated. */
    method Logout()
      modifies this, store
      ensures accessToken == None && user == None && store.Get() == None
      ensures !IsAuthenticated()
    {
      SetAccessToken(None);
      SetUser(None);
    }

    /**
     * `initAuth()` once its silent refresh (`POST /auth/refresh`) has
     * settled with `r`: an OK object body sets both token and user from the
     * body; every other outcome leaves the provider and the slot untouched.
     */
    method InitAuth(r: FetchResult)
      modifies this, store
      ensures InitAuthUpdate(r).Some? ==>
        && accessToken == InitAuthUpdate(r).value.0
        && store.Get() == accessToken
        && user == InitAuthUpdate(r).value.1
      ensures InitAuthUpdate(r).None? ==>
        accessToken == old(accessToken) && user == old(user) && store.Get() == old(store.Get())
    {
      var update := InitAuthUpdate(r);
      if update.Some? {
        SetAccessToken(update.value.0);
        SetUser(update.value.1);
      }
    }
  }

  const UseAuthOutsideProvider: string := "useAuth must be used within an AuthProvider"

  /**
   * `useAuth()`: the context value when a provider is above the caller,
   * an error otherwise.
   */
  function UseAuth(context: Option<ContextValue>): (r: Result<ContextValue, Error>)
    ensures r.Ok? <==> context.Some?
    ensures r.Ok? ==> r.value == context.value
    ensures r.Err? ==> r.error == Thrown(UseAuthOutsideProvider)
  {
    match context
    case None => Err(Thrown(UseAuthOutsideProvider))
    case Some(c) => Ok(c)
  }
}
