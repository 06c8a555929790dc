# stream-frontend authentication core, in Dafny

A model of the client-side authentication core of stream-frontend:

- the request gateway of `src/api.ts` (`fetchWithAuth`, `processQueue`)
  with its module-level `isRefreshing` flag and `failedQueue` of waiters;
- the session token holder of `src/auth.tsx` (`memoryToken` with its getter
  and setter, and the `AuthProvider` state: `setAccessToken`, `logout`,
  `isAuthenticated`, what `initAuth` does with its refresh outcome, and
  `useAuth`'s check);
- the helpers of `src/utils/auth-utils.ts` (`validateEmail`,
  `isUserLoggedIn`).

Files:

- `Web.dfy` (module `Web`): the browser vocabulary. It holds nullable
  strings and JavaScript truthiness, header maps, and request options. A
  response body is modelled as unparseable, JSON `null`, or an object with
  string properties. It also holds the outcome of a `fetch` and the errors
  the code can throw.
- `AuthUtils.dfy` (module `AuthUtils`): `ValidateEmail` reads the regular
  expression `^[^\s@]+@[^\s@]+\.[^\s@]+$` literally. `\s` is ECMAScript's
  WhiteSpace and LineTerminator set. `ValidateEmailIff` proves the regex
  equal to a second description: exactly one '@', no whitespace, a
  non-empty local part, and a domain with an inner '.'.
- `Auth.dfy` (module `Auth`): class `TokenStore` is the `memoryToken` slot.
  Class `AuthProvider` keeps the provider's `accessToken` and `user` and
  writes through to the slot. `InitAuthUpdate` and `UseAuth` are the pure
  parts.
- `Api.dfy` (module `Api`): the gateway as a state machine. Each `await`
  of `fetchWithAuth` on a fetch is one event: a call starts and sends its
  first fetch (`Started`); that fetch settles (`Responded`); the
  initiator's refresh fetch settles (`Refreshed`); a retry fetch settles
  (`Retried`). The awaits on reading a body are folded into these events
  (see "Left out").
  `processQueue` is `Drained`. The ghost predicate `Consistent` is the
  coordinator invariant, and every event preserves it:
  - every queued id is a waiting call, and no id is queued twice;
  - every waiting call is in the queue;
  - at most one call holds the refresh;
  - `isRefreshing` is set exactly when some call holds the refresh.

  Class `Gateway` keeps the same state in fields. Its methods update those
  fields step by step, as the source does. Each method is proved to yield
  the transition's state and to keep `Valid()` (the invariant on the
  fields). `SettleWaiters` is the
  `forEach` of `processQueue`, written as a loop.
- `ApiProperties.dfy` (module `ApiProperties`): what the coordinator
  guarantees across events:
  - concurrent 401s share one refresh;
  - `processQueue` settles each waiter once and in order;
  - every retry after a refresh carries the new token;
  - a failed refresh rejects everyone;
  - the initiator's retry releases the flag;
  - a concrete sequence of events (`LateWaiterStranded`) leaves a waiter
    in the queue.

Behaviour kept as the code has it:

- The flag is cleared only in the `finally` block. That block runs after
  the initiator's own retry fetch has settled (src/api.ts:69, 79-81). A 401
  that arrives while that retry is in flight goes into the freshly emptied
  queue. When the retry succeeds, no refresh is running, and the waiter
  stays queued until some later refresh drains it (`LateWaiterStranded`).
- The `catch` at src/api.ts:74 also catches a rejected retry fetch of the
  initiator. `processQueue` then rejects whatever waiters have queued since
  the refresh. This is usually nobody, but it includes the late 401s above.
  The window still goes to `/login`, and the new token stays stored.
- A failed refresh leaves the stored token in place (src/api.ts:71-78);
  only the redirect ends the session.
- After a successful refresh the initiator sends its retry first
  (src/api.ts:69). `processQueue` only resolves the waiters' promises; their
  retry fetches run in `.then` continuations (src/api.ts:41-44), which start
  once the initiator has suspended at its fetch. So the waiters' retries
  follow the initiator's, in queue order.
- When the refresh body lacks `accessToken`, the initiator retries with
  `Bearer undefined`. The waiters retry with `Bearer null`, from
  `processQueue`'s default parameter. The stored token becomes null.
- Retries rebuild their headers from the caller's headers and add only
  `Authorization`; the JSON content type is not added again. A retry's
  result goes to the caller through `.json()` without a status check. A
  rejection of the initiator's `retryResponse.json()` is not caught, so it
  does not redirect.

## Model

| member | source | states |
|---|---|---|
| AuthUtils.IsUserLoggedIn | src/utils/auth-utils.ts:13 | `!!user` is true exactly for a non-null, non-empty string |
| AuthUtils.ValidateEmail | src/utils/auth-utils.ts:7-9 | the regex read literally as a total predicate (a run, '@', a run, '.', a run); an accepted string has at least five characters; `ValidateEmailIff` and `ValidateEmailShape` characterize it |
| AuthUtils.ValidateEmailShape | src/utils/auth-utils.ts:8 | an accepted address holds exactly one '@', no whitespace, and a non-empty part before the '@' |
| AuthUtils.ValidateEmailSound | src/utils/auth-utils.ts:8 | acceptance implies one '@', no whitespace, a non-empty local part and a domain with a '.' that has a character on each side |
| AuthUtils.ValidateEmailComplete | src/utils/auth-utils.ts:8 | those four conditions imply acceptance |
| AuthUtils.ValidateEmailIff | src/utils/auth-utils.ts:8 | the regex accepts exactly the strings meeting those four conditions |
| AuthUtils.ValidateEmailAcceptsExamples | src/utils/auth-utils.ts:8 | "a@b.c" and "a@b.c.d" are accepted |
| AuthUtils.ValidateEmailRejectsDomains | src/utils/auth-utils.ts:8 | "a@b", "a@.c" and "a@b." are rejected |
| AuthUtils.ValidateEmailRejectsShapes | src/utils/auth-utils.ts:8 | "@b.c", "a b@c.d" and "a@b@c.d" are rejected |
| Auth.TokenStore.constructor | src/auth.tsx:15 | `memoryToken` starts as null |
| Auth.TokenStore.Get | src/auth.tsx:16 | `getMemoryToken()` yields the slot's current value and changes nothing (a function); `TokenStore.Set` states the round trip |
| Auth.TokenStore.Set | src/auth.tsx:16-19 | the getter then returns the token just set; only the slot may change |
| Auth.AuthProvider.constructor | src/auth.tsx:22-24 | token and user start as null, so the provider is not authenticated |
| Auth.AuthProvider.IsAuthenticated | src/auth.tsx:24 | true exactly when `accessToken` is non-null and non-empty |
| Auth.AuthProvider.Context | src/auth.tsx:53-63 | the published value carries the current token, user and authentication flag |
| Auth.AuthProvider.SetAccessToken | src/auth.tsx:26-29 | the slot and the provider's token both become the new token and agree; the user is kept |
| Auth.AuthProvider.SetUser | src/auth.tsx:23 | the user becomes the new value; the token is kept |
| Auth.AuthProvider.Logout | src/auth.tsx:31-34 | token, user and slot become null, so the provider is not authenticated |
| Auth.InitAuthUpdate | src/auth.tsx:40-48 | an update exists exactly for an OK response with an object body; it holds the body's `accessToken` and `userEmail` |
| Auth.AuthProvider.InitAuth | src/auth.tsx:36-51 | an OK response sets token (slot too) and user from the body; a failed fetch, a non-OK status or an unreadable body changes nothing |
| Auth.UseAuth | src/auth.tsx:68-73 | succeeds exactly when a context is present, returns it unchanged, and otherwise fails with the provider message |
| Api.ApiUrl | src/api.ts:3 | the configured URL when it is truthy, `http://localhost:3000` otherwise |
| Api.Bearer | src/api.ts:24 | the credentials read back as the bearer token they were built from |
| Api.BuildHeaders | src/api.ts:20-26 | content type is always JSON; the header carries `Bearer <token>` when the token is truthy and otherwise the caller's own value (or none); other caller headers are kept and nothing else is added |
| Api.RetryHeaders | src/api.ts:42-43 | a retry carries `Bearer <token>` and otherwise only the caller's headers |
| Api.ErrorFor | src/api.ts:84-87 | a non-OK error is the body's truthy `message`, else "API request failed", or "An unknown error occurred" when the body does not parse; a JSON null body throws a TypeError; a thrown message is never empty |
| Api.ReadJson | src/api.ts:89 | `.json()` rejects exactly for an unparseable body and returns the body otherwise |
| Api.RetryOutcome | src/api.ts:44-46 | a waiter's retry throws the network failure or returns `.json()` of the retry, whatever its status |
| Api.RefreshOutcome | src/api.ts:53-73 | the refresh yields a token exactly for an OK object body; otherwise the network failure, "Refresh failed", the parse failure or the null-body TypeError |
| Api.Init | src/api.ts:5-6 | at load the flag is false, the queue empty and the state consistent |
| Api.RefreshRequest | src/api.ts:53-57 | the refresh fetch sends the cookie and no bearer credentials |
| Api.Retries | src/api.ts:41-44 | one retry per waiter, in queue order, each built from that waiter's own request |
| Api.SettleWaiters | src/api.ts:9-15 | the loop moves every waiter to the verdict's phase and collects the resolved waiters' retries in queue order |
| Api.Consistent | src/api.ts:5-6 | the coordinator invariant over `isRefreshing` and `failedQueue`: the queue holds distinct waiting calls, every waiting call is queued, at most one call holds the refresh, and the flag is set exactly when one does; every `...Consistent` lemma below preserves it |
| Api.Started | src/api.ts:19-32 | a call starts: its fetch is appended with the JSON content type and, for a truthy token, the bearer credentials; flag, queue and token are untouched; `StartedConsistent` keeps the invariant |
| Api.Responded | src/api.ts:34-89 | the first fetch settles: the call moves on, a 401 leaves the flag set, and a fetch is sent exactly when a 401 arrives with no refresh running; other responses change neither flag nor queue; see `RespondedConsistent`, `UnauthorizedWhileRefreshing`, `ConcurrentUnauthorizedShareOneRefresh` |
| Api.Drained | src/api.ts:8-17 | `processQueue`: the queue becomes empty, the calls keep their ids, and nothing is sent; `DrainedSettlesEachWaiter` and `DrainedConsistent` state the rest |
| Api.Refreshed | src/api.ts:59-81 | the refresh settles: on success the token is stored and the flag still held; on failure the flag is cleared, the window redirected and the token kept; the queue is empty either way; see `RefreshSuccessResolvesWaiters`, `RefreshSuccessRetriesInOrder`, `RefreshFailureRejectsEveryone` |
| Api.Retried | src/api.ts:69-81 | a retry settles: the call is settled; an initiator's retry clears the flag, and a waiter's changes neither flag nor queue; see `InitiatorRetryReleasesFlag` |
| Api.StartedConsistent | src/api.ts:19-32 | starting a call keeps the coordinator invariant |
| Api.RespondedConsistent | src/api.ts:34-57 | a first response (enqueue, acquire the refresh, throw or return) keeps the invariant |
| Api.DrainedConsistent | src/api.ts:8-17 | draining the queue leaves no waiter behind and keeps the invariant |
| Api.RefreshedConsistent | src/api.ts:59-81 | both refresh outcomes keep the invariant |
| Api.RetriedConsistent | src/api.ts:69-81 | a settled retry, including the initiator's `finally`, keeps the invariant |
| Api.Gateway.constructor | src/api.ts:3-6 | the fields start in the load state |
| Api.Gateway.FetchWithAuth | src/api.ts:19-32 | reading the token, building the headers and sending the first fetch give the `Started` state and keep the invariant |
| Api.Gateway.OnResponse | src/api.ts:34-89 | handling the first response gives the `Responded` state and keeps the invariant |
| Api.Gateway.ProcessQueue | src/api.ts:8-17 | the fields become the `Drained` state and keep the invariant; it returns the retries the resolved waiters will send, in queue order |
| Api.Gateway.OnRefreshResponse | src/api.ts:59-81 | settling the refresh gives the `Refreshed` state and keeps the invariant |
| Api.Gateway.RefreshSucceeded | src/api.ts:59-70 | storing the token, resolving the waiters, then sending the initiator's retry followed by the waiters' retries give the `Refreshed` state and keep the invariant |
| Api.Gateway.RefreshFailed | src/api.ts:71-81 | rejecting the waiters, redirecting and clearing the flag give the `Refreshed` state and keep the invariant |
| Api.Gateway.OnRetryResponse | src/api.ts:69-81 | handling a retry's result gives the `Retried` state and keeps the invariant |
| ApiProperties.UnauthorizedWhileRefreshing | src/api.ts:36-40 | during a refresh, each 401 appends exactly its own call to the end of the queue, in arrival order; the flag stays set, no fetch is sent, and other calls are untouched |
| ApiProperties.ConcurrentUnauthorizedShareOneRefresh | src/api.ts:35-57 | when no refresh runs, a burst of 401s sets the flag and sends exactly one refresh fetch; the first call holds it and the rest queue in order |
| ApiProperties.UnauthorizedAfterReleaseRefreshesAgain | src/api.ts:49-57 | once the flag is clear, a 401 sets it and sends a new refresh |
| ApiProperties.DrainedSettlesEachWaiter | src/api.ts:8-17 | `processQueue` gives every waiter the same verdict and sends nothing itself; the queue ends empty, and the token, the flag and every other call are unchanged |
| ApiProperties.RefreshSuccessResolvesWaiters | src/api.ts:59-64 | on success the token is stored and every waiter is resolved; the initiator moves on to its retry; the queue is empty, the flag is still held and other calls are untouched |
| ApiProperties.RefreshSuccessRetriesInOrder | src/api.ts:41-69 | on success the initiator's retry is sent first, then the waiters' retries in queue order, after everything sent before |
| ApiProperties.RefreshSuccessRetriesWithNewToken | src/api.ts:41-44 | every retry sent after a successful refresh carries the new bearer token |
| ApiProperties.RefreshFailureRejectsEveryone | src/api.ts:71-81 | on failure every waiter and the initiator throw the same error, the window is redirected, the flag is cleared, nothing waits, and the token and the fetch log are unchanged |
| ApiProperties.InitiatorRetryReleasesFlag | src/api.ts:69-81 | the initiator's retry clears the flag and leaves no holder; a failed retry fetch rejects the late waiters and redirects, and a successful one leaves the queue as it was |
| ApiProperties.LateWaiterStranded | src/api.ts:36-81 | a 401 that arrives during the initiator's retry is queued and is still queued, with no refresh running, once that retry succeeds |

## Left out

- `fetch`, `Response.json()`, `window.location.href`, `alert` and
  `console.error` are not modelled. A fetch outcome is an input event, a
  redirect is a flag, and the alert and the log have no effect here.
- Promise scheduling is not modelled: each awaited fetch is one atomic
  event, and any interleaving of events is allowed.
- The awaits on reading a body are folded into the event of the fetch whose
  body is read: `await refreshResponse.json()` (src/api.ts:60) into
  `Refreshed`, and `await response.json().catch(...)` (src/api.ts:85) into
  `Responded`. The same holds for the resolved waiters' `.then`
  continuations, which run in the `Refreshed` event. This folding is sound.
  While such a read is pending, the call itself touches no shared state
  (flag, queue, token). Whatever other calls do in that window, the model
  allows them to do just before the fetch settles, with the same effect.
  The waiters' continuations run before any further fetch can settle,
  because of JavaScript's run-to-completion order.
- React hooks are not modelled. Provider state is a pair of fields, the
  memoised context value is a function of them, and re-rendering is left
  out.
- `import.meta.env.VITE_API_URL` is a parameter of the gateway's
  constructor.
- Header names are stored lower-case and compared exactly, so
  the case-insensitivity of `Headers` and the array and `Headers` forms of
  `options.headers` are not modelled.
- JSON bodies are objects with string properties, JSON `null` or
  unparseable. Non-string property values and bodies that are bare
  primitives are not modelled.
- `undefined` and `null` are one value, except where the source turns them
  into text (`Bearer undefined` versus `Bearer null`).
- Auth.AuthProvider.InitAuth: the silent refresh request itself is not
  modelled, only what is done with its outcome.
- The outer `catch` of `fetchWithAuth` only rethrows, so it is not a
  separate step.
- The routes, components and router configuration are rendering or
  configuration and are not part of this model.
