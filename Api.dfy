/**
 * The authenticated request gateway of src/api.ts (`fetchWithAuth` and
 * `processQueue`) as an explicit state machine.
 *
 * Each `await` of the source becomes an event: a call starts and issues its
 * fetch (`Started`), that fetch settles (`Responded`), the refresh fetch of
 * the call that initiated it settles (`Refreshed`), and a retry fetch
 * settles (`Retried`). Between two events the code runs without
 * interruption, so each event is one atomic step. The pure functions below
 * are the specification; the class `Gateway` keeps the module-level state
 * (`isRefreshing`, `failedQueue`) in fields, updates it step by step as the
 * source does, and is proved to follow the specification.
 */
module Api {
  import opened Web
  import Auth

  /** Names one invocation of `fetchWithAuth`. */
  type CallId = nat

  const DefaultApiUrl: string := "http://localhost:3000"
  const RefreshPath: string := "/auth/refresh"
  const RefreshFailedMessage: string := "Refresh failed"
  const UnknownErrorMessage: string := "An unknown error occurred"
  const RequestFailedMessage: string := "API request failed"
  const MessageField: string := "message"
  const AccessTokenField: string := "accessToken"

  /** `import.meta.env.VITE_API_URL || 'http://localhost:3000'`. */
  function ApiUrl(env: Option<string>): (url: string)
    ensures Truthy(env) ==> url == env.value
    ensures !Truthy(env) ==> url == DefaultApiUrl
  {
    if Truthy(env) then env.value else DefaultApiUrl
  }

  // ---------------------------------------------------------------------
  // Headers
  // ---------------------------------------------------------------------

  /** Reads the token back out of an `Authorization` value (the "Bearer" scheme, one space). */
  function BearerToken(credentials: string): Option<string> {
    if |credentials| >= 7 && credentials[..7] == "Bearer " then Some(credentials[7..]) else None
  }

  /** `Bearer ${token}`: the credentials form of the bearer scheme. */
  function Bearer(token: string): (credentials: string)
    ensures BearerToken(credentials) == Some(token)
  {
    assert ("Bearer " + token)[..7] == "Bearer ";
    "Bearer " + token
  }

  /**
   * The headers of a call's first fetch: the caller's headers, the bearer
   * credentials when the stored token is truthy, and the JSON content type.
   */
  function BuildHeaders(given: Headers, token: Option<string>): (h: Headers)
    ensures ContentType in h && h[ContentType] == JsonMediaType
    ensures Truthy(token) ==> Authorization in h && BearerToken(h[Authorization]) == Some(token.value)
    ensures !Truthy(token) ==> (Authorization in h <==> Authorization in given)
    ensures !Truthy(token) && Authorization in given ==> h[Authorization] == given[Authorization]
    ensures forall k | k in given && k != Authorization && k != ContentType :: k in h && h[k] == given[k]
    ensures forall k | k in h :: k in given || k == Authorization || k == ContentType
  {
    var withAuth := if Truthy(token) then given[Authorization := Bearer(token.value)] else given;
    withAuth[ContentType := JsonMediaType]
  }

  /**
   * The headers of a retry: the caller's headers with the new bearer
   * credentials. The JSON content type is not added again.
   */
  function RetryHeaders(given: Headers, tokenText: string): (h: Headers)
    ensures Authorization in h && BearerToken(h[Authorization]) == Some(tokenText)
    ensures forall k | k in given && k != Authorization :: k in h && h[k] == given[k]
    ensures forall k | k in h :: k in given || k == Authorization
  {
    given[Authorization := Bearer(tokenText)]
  }

  /** `${accessToken}` in the initiator's retry: a body without the property prints "undefined". */
  function InitiatorTokenText(token: Option<string>): string {
    if token.Some? then token.value else "undefined"
  }

  /** A waiter receives `processQueue`'s `token = null` default, which prints "null". */
  function WaiterTokenText(token: Option<string>): string {
    if token.Some? then token.value else "null"
  }

  // ---------------------------------------------------------------------
  // Response handling
  // ---------------------------------------------------------------------

  /**
   * The error thrown for a non-OK response other than 401: the body's
   * `message` when it is truthy, "API request failed" when it is not, and
   * "An unknown error occurred" when the body does not parse (the `.catch`
   * substitutes an object carrying that message). A JSON `null` body makes
   * the property read itself throw.
   */
  function ErrorFor(body: Body): (e: Error)
    ensures body.Unparseable? ==> e == Thrown(UnknownErrorMessage)
    ensures body.JsonNull? ==> e == NullBody
    ensures body.JsonObject? && Truthy(Field(body, MessageField)) ==> e == Thrown(body.fields[MessageField])
    ensures body.JsonObject? && !Truthy(Field(body, MessageField)) ==> e == Thrown(RequestFailedMessage)
    ensures e.Thrown? ==> e.message != ""
  {
    var error := if body.Unparseable? then JsonObject(map[MessageField := UnknownErrorMessage]) else body;
    if error.JsonNull? then NullBody
    else
      var message := Field(error, MessageField);
      Thrown(if Truthy(message) then message.value else RequestFailedMessage)
  }

  /** What a call hands back to its caller: a value, or the error it throws. */
  datatype Outcome = Returned(value: Body) | Threw(error: Error)

  /** `response.json()` returned to the caller: a body that does not parse rejects. */
  function ReadJson(body: Body): (o: Outcome)
    ensures o.Threw? <==> body.Unparseable?
    ensures o.Threw? ==> o.error == BadJson
    ensures o.Returned? ==> o.value == body
  {
    if body.Unparseable? then Threw(BadJson) else Returned(body)
  }

  /** A retry's result goes to the caller through `.json()` with no status check. */
  function RetryOutcome(r: FetchResult): (o: Outcome)
    ensures r.FetchFailed? ==> o == Threw(NetworkFailure)
    ensures r.Fetched? ==> o == ReadJson(r.response.body)
  {
    match r
    case FetchFailed => Threw(NetworkFailure)
    case Fetched(response) => ReadJson(response.body)
  }

  /**
   * The refresh fetch settled with `r`: the new `accessToken` (absent when
   * the body lacks it), or the error that the `catch` receives: the rejected
   * fetch, 'Refresh failed' for a non-OK status, or the failure of reading
   * the body.
   */
  function RefreshOutcome(r: FetchResult): (o: Result<Option<string>, Error>)
    ensures o.Ok? <==> r.Fetched? && IsOk(r.response) && r.response.body.JsonObject?
    ensures o.Ok? ==> o.value == Field(r.response.body, AccessTokenField)
    ensures r.FetchFailed? ==> o == Err(NetworkFailure)
    ensures r.Fetched? && !IsOk(r.response) ==> o == Err(Thrown(RefreshFailedMessage))
    ensures r.Fetched? && IsOk(r.response) && r.response.body.Unparseable? ==> o == Err(BadJson)
    ensures r.Fetched? && IsOk(r.response) && r.response.body.JsonNull? ==> o == Err(NullBody)
  {
    match r
    case FetchFailed => Err(NetworkFailure)
    case Fetched(response) =>
      if !IsOk(response) then Err(Thrown(RefreshFailedMessage))
      else match response.body
        case Unparseable => Err(BadJson)
        case JsonNull => Err(NullBody)
        case JsonObject(_) => Ok(Field(response.body, AccessTokenField))
  }

  // ---------------------------------------------------------------------
  // The coordinator's state
  // ---------------------------------------------------------------------

  /** Where an invocation of `fetchWithAuth` is suspended, or how it ended. */
  datatype Phase =
    | Sending                    // awaiting its first fetch
    | Refreshing                 // it set the flag and awaits the refresh fetch
    | Queued                     // a waiter in `failedQueue`
    | Retrying(initiator: bool)  // awaiting its retry fetch
    | Settled(outcome: Outcome)  // returned or threw
  {
    /** The call that set `isRefreshing` and has not yet reached `finally`. */
    predicate IsInitiator() {
      Refreshing? || (Retrying? && initiator)
    }
  }

  datatype Call = Call(endpoint: string, options: Options, phase: Phase)

  /** The argument of `processQueue`: resolve with a token, or reject with an error. */
  datatype Verdict = Resolve(token: Option<string>) | Reject(error: Error)

  function VerdictPhase(v: Verdict): Phase {
    match v
    case Resolve(_) => Retrying(false)
    case Reject(e) => Settled(Threw(e))
  }

  /**
   * `token` is the shared `memoryToken`, `isRefreshing` and `failedQueue`
   * the module-level variables; `calls` are the invocations in progress
   * (the queue holds their continuations), `sent` every fetch issued, in
   * order, and `redirected` whether `/login` has been assigned to the
   * window's location.
   */
  datatype State = State(
    apiUrl: string,
    token: Option<string>,
    isRefreshing: bool,
    failedQueue: seq<CallId>,
    calls: map<CallId, Call>,
    sent: seq<Outgoing>,
    redirected: bool)

  /** Every queued id is a known call waiting in the queue, and no id is queued twice. */
  ghost predicate QueueHoldsWaiters(s: State) {
    && (forall i | 0 <= i < |s.failedQueue| ::
          s.failedQueue[i] in s.calls && s.calls[s.failedQueue[i]].phase == Queued)
    && (forall i, j | 0 <= i < j < |s.failedQueue| :: s.failedQueue[i] != s.failedQueue[j])
  }

  /** No waiter is lost: every call that is waiting sits in the queue. */
  ghost predicate WaitersQueued(s: State) {
    forall id | id in s.calls && s.calls[id].phase == Queued :: id in s.failedQueue
  }

  /** At most one call holds the refresh, and the flag says whether one does. */
  ghost predicate SingleInitiator(s: State) {
    && (forall a, b | a in s.calls && b in s.calls && s.calls[a].phase.IsInitiator() && s.calls[b].phase.IsInitiator() :: a == b)
    && (s.isRefreshing <==> exists id | id in s.calls :: s.calls[id].phase.IsInitiator())
  }

  ghost predicate Consistent(s: State) {
    QueueHoldsWaiters(s) && WaitersQueued(s) && SingleInitiator(s)
  }

  /** Module load: the flag is false and the queue empty. */
  function Init(apiUrl: string, token: Option<string>): (s: State)
    ensures Consistent(s) && !s.isRefreshing && s.failedQueue == [] && s.sent == []
  {
    State(apiUrl, token, false, [], map[], [], false)
  }

  // ---------------------------------------------------------------------
  // Fetches issued
  // ---------------------------------------------------------------------

  function FirstRequest(apiUrl: string, endpoint: string, options: Options, token: Option<string>): Outgoing {
    Outgoing(apiUrl + endpoint, options.(headers := BuildHeaders(options.headers, token)))
  }

  /** `POST /auth/refresh` with the session cookie and no bearer credentials. */
  function RefreshRequest(apiUrl: string): (o: Outgoing)
    ensures Authorization !in o.options.headers && o.options.credentials == Some("include")
  {
    Outgoing(apiUrl + RefreshPath, Options(Some("POST"), map[ContentType := JsonMediaType], Some("include"), None))
  }

  function RetryRequest(apiUrl: string, call: Call, tokenText: string): Outgoing {
    Outgoing(apiUrl + call.endpoint, call.options.(headers := RetryHeaders(call.options.headers, tokenText)))
  }

  // ---------------------------------------------------------------------
  // Transitions
  // ---------------------------------------------------------------------

  function WithPhase(calls: map<CallId, Call>, id: CallId, p: Phase): map<CallId, Call>
    requires id in calls
  {
    calls[id := calls[id].(phase := p)]
  }

  /**
   * A call starts: it reads the token, builds its headers and issues its
   * fetch. The new fetch goes to the end of the log with the JSON content
   * type and, when the stored token is truthy, that token as bearer
   * credentials; the flag, the queue and the token are untouched.
   */
  function Started(s: State, id: CallId, endpoint: string, options: Options): (s': State)
    requires id !in s.calls
    ensures s'.isRefreshing == s.isRefreshing && s'.failedQueue == s.failedQueue && s'.token == s.token
    ensures id in s'.calls && s'.calls[id].phase == Sending
    ensures |s'.sent| == |s.sent| + 1 && s'.sent[..|s.sent|] == s.sent
    ensures s'.sent[|s.sent|].url == s.apiUrl + endpoint
    ensures var h := s'.sent[|s.sent|].options.headers;
      && ContentType in h && h[ContentType] == JsonMediaType
      && (Truthy(s.token) ==> Authorization in h && BearerToken(h[Authorization]) == Some(s.token.value))
  {
    s.(calls := s.calls[id := Call(endpoint, options, Sending)],
       sent := s.sent + [FirstRequest(s.apiUrl, endpoint, options, s.token)])
  }

  /**
   * A call's first fetch settles. A 401 enqueues the call when a refresh
   * is running and otherwise sets the flag and issues the refresh; any
   * other non-OK status throws; an OK response returns its JSON.
   */
  function Responded(s: State, id: CallId, r: FetchResult): (s': State)
    requires id in s.calls && s.calls[id].phase == Sending
    ensures s'.token == s.token && s'.redirected == s.redirected
    ensures s'.calls.Keys == s.calls.Keys && s'.calls[id].phase != Sending
    ensures var unauthorized := r.Fetched? && r.response.status == Unauthorized;
      && (unauthorized ==> s'.isRefreshing)
      && (!unauthorized ==> s'.isRefreshing == s.isRefreshing && s'.failedQueue == s.failedQueue)
      && (s'.sent != s.sent <==> unauthorized && !s.isRefreshing)
  {
    match r
    case FetchFailed => s.(calls := WithPhase(s.calls, id, Settled(Threw(NetworkFailure))))
    case Fetched(response) =>
      if response.status == Unauthorized then
        if s.isRefreshing then
          s.(failedQueue := s.failedQueue + [id], calls := WithPhase(s.calls, id, Queued))
        else
          s.(isRefreshing := true,
             calls := WithPhase(s.calls, id, Refreshing),
             sent := s.sent + [RefreshRequest(s.apiUrl)])
      else if !IsOk(response) then
        s.(calls := WithPhase(s.calls, id, Settled(Threw(ErrorFor(response.body)))))
      else
        s.(calls := WithPhase(s.calls, id, Settled(ReadJson(response.body))))
  }

  /**
   * The calls after every id in `queue` has been settled by `v`: each
   * queued call moves to the verdict's phase and every other call is left
   * as it was.
   */
  function SettleAll(calls: map<CallId, Call>, queue: seq<CallId>, v: Verdict): (settled: map<CallId, Call>)
    ensures settled.Keys == calls.Keys
  {
    map id | id in calls :: if id in queue then calls[id].(phase := VerdictPhase(v)) else calls[id]
  }

  /**
   * The retry fetches the waiters of `queue` issue when they are resolved:
   * one per waiter, in queue order, each with the bearer credentials of
   * `tokenText`.
   */
  function Retries(apiUrl: string, calls: map<CallId, Call>, queue: seq<CallId>, tokenText: string): (requests: seq<Outgoing>)
    requires forall i | 0 <= i < |queue| :: queue[i] in calls
    ensures |requests| == |queue|
    ensures forall i | 0 <= i < |queue| :: requests[i] == RetryRequest(apiUrl, calls[queue[i]], tokenText)
    decreases |queue|
  {
    if queue == [] then []
    else Retries(apiUrl, calls, queue[..|queue| - 1], tokenText) + [RetryRequest(apiUrl, calls[queue[|queue| - 1]], tokenText)]
  }

  lemma SettleAllStep(calls: map<CallId, Call>, queue: seq<CallId>, i: nat, v: Verdict)
    requires i < |queue| && queue[i] in calls
    ensures SettleAll(calls, queue[..i], v)[queue[i] := calls[queue[i]].(phase := VerdictPhase(v))] ==
      SettleAll(calls, queue[..i + 1], v)
  {
    assert queue[..i + 1] == queue[..i] + [queue[i]];
  }

  /**
   * The `forEach` of `processQueue`: visits the waiters in queue order,
   * moving each to the verdict's phase and, when resolving, collecting the
   * retry fetch it issues.
   */
  method SettleWaiters(apiUrl: string, calls: map<CallId, Call>, queue: seq<CallId>, verdict: Verdict)
    returns (settled: map<CallId, Call>, retries: seq<Outgoing>)
    requires forall i | 0 <= i < |queue| :: queue[i] in calls
    ensures settled == SettleAll(calls, queue, verdict)
    ensures verdict.Reject? ==> retries == []
    ensures verdict.Resolve? ==> (|retries| == |queue| &&
      forall k | 0 <= k < |queue| :: retries[k] == RetryRequest(apiUrl, calls[queue[k]], WaiterTokenText(verdict.token)))
  {
    settled, retries := calls, [];
    var i := 0;
    while i < |queue|
      invariant 0 <= i <= |queue|
      invariant settled == SettleAll(calls, queue[..i], verdict)
      invariant verdict.Reject? ==> retries == []
      invariant verdict.Resolve? ==> (|retries| == i &&
        forall k | 0 <= k < i :: retries[k] == RetryRequest(apiUrl, calls[queue[k]], WaiterTokenText(verdict.token)))
    {
      var id := queue[i];
      SettleAllStep(calls, queue, i, verdict);
      if verdict.Resolve? {
        retries := retries + [RetryRequest(apiUrl, calls[id], WaiterTokenText(verdict.token))];
      }
      settled := settled[id := calls[id].(phase := VerdictPhase(verdict))];
      i := i + 1;
    }
    assert queue[..i] == queue;
  }

  /**
   * `processQueue`: settle every waiter with the verdict, then empty the
   * queue. It only settles promises: the retry fetches of resolved waiters
   * run in their continuations, after the current code has suspended (see
   * `Refreshed`), so nothing is sent here.
   */
  function Drained(s: State, v: Verdict): (s': State)
    requires forall i | 0 <= i < |s.failedQueue| :: s.failedQueue[i] in s.calls
    ensures s'.failedQueue == [] && s'.calls.Keys == s.calls.Keys
    ensures s'.sent == s.sent && s'.token == s.token && s'.isRefreshing == s.isRefreshing
  {
    s.(calls := SettleAll(s.calls, s.failedQueue, v), failedQueue := [])
  }

  /**
   * The refresh fetch of initiator `id` settles. On success the token is
   * stored, the waiters are resolved, and the initiator issues its own
   * retry while still holding the flag; the resolved waiters' `.then`
   * continuations run only once the initiator suspends at that fetch, so
   * their retries follow it, in queue order. On failure the waiters are
   * rejected, the window goes to `/login`, the flag is cleared and the
   * initiator throws the same error; the stored token is not touched.
   */
  function Refreshed(s: State, id: CallId, r: FetchResult): (s': State)
    requires Consistent(s) && id in s.calls && s.calls[id].phase == Refreshing
    ensures s'.failedQueue == []
    ensures RefreshOutcome(r).Ok? ==>
      s'.isRefreshing && s'.token == RefreshOutcome(r).value && s'.redirected == s.redirected
    ensures RefreshOutcome(r).Err? ==> !s'.isRefreshing && s'.redirected && s'.token == s.token
  {
    match RefreshOutcome(r)
    case Ok(accessToken) =>
      var drained := Drained(s.(token := accessToken), Resolve(accessToken));
      drained.(sent := s.sent + [RetryRequest(s.apiUrl, s.calls[id], InitiatorTokenText(accessToken))]
                      + Retries(s.apiUrl, s.calls, s.failedQueue, WaiterTokenText(accessToken)),
               calls := WithPhase(drained.calls, id, Retrying(true)))
    case Err(e) =>
      var drained := Drained(s, Reject(e));
      drained.(redirected := true, isRefreshing := false, calls := WithPhase(drained.calls, id, Settled(Threw(e))))
  }

  /**
   * A retry fetch settles. A waiter returns the retry's JSON or throws.
   * For the initiator the `finally` clears the flag; a failed retry fetch
   * is caught like a failed refresh: whatever waiters the queue holds by
   * then are rejected and the window goes to `/login`.
   */
  function Retried(s: State, id: CallId, r: FetchResult): (s': State)
    requires Consistent(s) && id in s.calls && s.calls[id].phase.Retrying?
    ensures s'.token == s.token && s'.sent == s.sent
    ensures id in s'.calls && s'.calls[id].phase.Settled?
    ensures s.calls[id].phase.initiator ==> !s'.isRefreshing
    ensures !s.calls[id].phase.initiator ==>
      s'.isRefreshing == s.isRefreshing && s'.failedQueue == s.failedQueue && s'.redirected == s.redirected
  {
    if !s.calls[id].phase.initiator then
      s.(calls := WithPhase(s.calls, id, Settled(RetryOutcome(r))))
    else if r.FetchFailed? then
      var drained := Drained(s, Reject(NetworkFailure));
      drained.(redirected := true, isRefreshing := false,
               calls := WithPhase(drained.calls, id, Settled(Threw(NetworkFailure))))
    else
      s.(isRefreshing := false, calls := WithPhase(s.calls, id, Settled(RetryOutcome(r))))
  }

  // ---------------------------------------------------------------------
  // Every transition keeps the coordinator consistent
  // ---------------------------------------------------------------------

  /** Consistency does not depend on the token, the fetch log or the redirect. */
  lemma ConsistentIgnoresEffects(s: State, token: Option<string>, sent: seq<Outgoing>, redirected: bool)
    requires Consistent(s)
    ensures Consistent(s.(token := token, sent := sent, redirected := redirected))
  {
  }

  /** A call that is neither queued before nor after, and keeps its initiator role, may change phase. */
  lemma SwapPhaseConsistent(s: State, id: CallId, p: Phase)
    requires Consistent(s) && id in s.calls
    requires s.calls[id].phase != Queued && p != Queued
    requires s.calls[id].phase.IsInitiator() == p.IsInitiator()
    ensures Consistent(s.(calls := WithPhase(s.calls, id, p)))
  {
    var s' := s.(calls := WithPhase(s.calls, id, p));
    assert id !in s.failedQueue;
    assert forall x | x in s'.calls && x != id :: s'.calls[x] == s.calls[x];
    if s.isRefreshing {
      var holder :| holder in s.calls && s.calls[holder].phase.IsInitiator();
      assert s'.calls[holder].phase.IsInitiator();
    }
  }

  /** A call that is not queued sets the flag and becomes the initiator. */
  lemma AcquireConsistent(s: State, id: CallId)
    requires Consistent(s) && id in s.calls && !s.isRefreshing
    requires s.calls[id].phase != Queued
    ensures Consistent(s.(isRefreshing := true, calls := WithPhase(s.calls, id, Refreshing)))
  {
    var s' := s.(isRefreshing := true, calls := WithPhase(s.calls, id, Refreshing));
    assert id !in s.failedQueue;
    assert forall x | x in s'.calls && x != id :: s'.calls[x] == s.calls[x];
    assert forall x | x in s.calls :: !s.calls[x].phase.IsInitiator();
  }

  /** The initiator reaches `finally`: the flag is cleared and the call leaves the initiator role. */
  lemma ReleaseConsistent(s: State, id: CallId, p: Phase)
    requires Consistent(s) && id in s.calls && s.calls[id].phase.IsInitiator()
    requires !p.IsInitiator() && p != Queued
    ensures Consistent(s.(isRefreshing := false, calls := WithPhase(s.calls, id, p)))
  {
    var s' := s.(isRefreshing := false, calls := WithPhase(s.calls, id, p));
    assert id !in s.failedQueue;
    assert forall x | x in s'.calls && x != id :: s'.calls[x] == s.calls[x];
    assert forall x | x in s.calls && s.calls[x].phase.IsInitiator() :: x == id;
  }

  /** A call that is not queued joins the end of the queue while a refresh runs. */
  lemma EnqueueConsistent(s: State, id: CallId)
    requires Consistent(s) && id in s.calls && s.isRefreshing
    requires s.calls[id].phase != Queued && !s.calls[id].phase.IsInitiator()
    ensures Consistent(s.(failedQueue := s.failedQueue + [id], calls := WithPhase(s.calls, id, Queued)))
  {
    var s' := s.(failedQueue := s.failedQueue + [id], calls := WithPhase(s.calls, id, Queued));
    assert id !in s.failedQueue;
    assert forall x | x in s'.calls && x != id :: s'.calls[x] == s.calls[x];
    var holder :| holder in s.calls && s.calls[holder].phase.IsInitiator();
    assert s'.calls[holder].phase.IsInitiator();
  }

  lemma StartedConsistent(s: State, id: CallId, endpoint: string, options: Options)
    requires Consistent(s) && id !in s.calls
    ensures Consistent(Started(s, id, endpoint, options))
  {
    var s' := Started(s, id, endpoint, options);
    assert forall x | x in s'.calls && x != id :: s'.calls[x] == s.calls[x];
    assert forall x | x in s.calls :: x in s'.calls;
  }

  lemma RespondedConsistent(s: State, id: CallId, r: FetchResult)
    requires Consistent(s) && id in s.calls && s.calls[id].phase == Sending
    ensures Consistent(Responded(s, id, r))
  {
    match r
    case FetchFailed =>
      SwapPhaseConsistent(s, id, Settled(Threw(NetworkFailure)));
    case Fetched(response) =>
      if response.status == Unauthorized {
        if s.isRefreshing {
          EnqueueConsistent(s, id);
        } else {
          AcquireConsistent(s, id);
          var s1 := s.(isRefreshing := true, calls := WithPhase(s.calls, id, Refreshing));
          ConsistentIgnoresEffects(s1, s1.token, s.sent + [RefreshRequest(s.apiUrl)], s1.redirected);
        }
      } else if !IsOk(response) {
        SwapPhaseConsistent(s, id, Settled(Threw(ErrorFor(response.body))));
      } else {
        SwapPhaseConsistent(s, id, Settled(ReadJson(response.body)));
      }
  }

  /** `processQueue` leaves no waiter behind and keeps the flag and the initiator. */
  lemma DrainedConsistent(s: State, v: Verdict)
    requires Consistent(s)
    ensures Consistent(Drained(s, v))
  {
    var s' := Drained(s, v);
    forall x | x in s'.calls
      ensures s'.calls[x].phase != Queued
      ensures s'.calls[x].phase.IsInitiator() <==> s.calls[x].phase.IsInitiator()
    {
      if x in s.failedQueue {
        assert s.calls[x].phase == Queued;
      }
    }
    if s.isRefreshing {
      var holder :| holder in s.calls && s.calls[holder].phase.IsInitiator();
      assert s'.calls[holder].phase.IsInitiator();
    }
  }

  lemma RefreshedConsistent(s: State, id: CallId, r: FetchResult)
    requires Consistent(s) && id in s.calls && s.calls[id].phase == Refreshing
    ensures Consistent(Refreshed(s, id, r))
  {
    assert id !in s.failedQueue;
    match RefreshOutcome(r)
    case Ok(accessToken) =>
      var s1 := s.(token := accessToken);
      ConsistentIgnoresEffects(s, accessToken, s.sent, s.redirected);
      DrainedConsistent(s1, Resolve(accessToken));
      var drained := Drained(s1, Resolve(accessToken));
      var sent' := s.sent + [RetryRequest(s.apiUrl, s.calls[id], InitiatorTokenText(accessToken))]
        + Retries(s.apiUrl, s.calls, s.failedQueue, WaiterTokenText(accessToken));
      ConsistentIgnoresEffects(drained, drained.token, sent', drained.redirected);
      SwapPhaseConsistent(drained.(sent := sent'), id, Retrying(true));
    case Err(e) =>
      DrainedConsistent(s, Reject(e));
      var drained := Drained(s, Reject(e));
      ConsistentIgnoresEffects(drained, drained.token, drained.sent, true);
      ReleaseConsistent(drained.(redirected := true), id, Settled(Threw(e)));
  }

  lemma RetriedConsistent(s: State, id: CallId, r: FetchResult)
    requires Consistent(s) && id in s.calls && s.calls[id].phase.Retrying?
    ensures Consistent(Retried(s, id, r))
  {
    if !s.calls[id].phase.initiator {
      SwapPhaseConsistent(s, id, Settled(RetryOutcome(r)));
    } else if r.FetchFailed? {
      DrainedConsistent(s, Reject(NetworkFailure));
      var drained := Drained(s, Reject(NetworkFailure));
      ConsistentIgnoresEffects(drained, drained.token, drained.sent, true);
      ReleaseConsistent(drained.(redirected := true), id, Settled(Threw(NetworkFailure)));
    } else {
      ReleaseConsistent(s, id, Settled(RetryOutcome(r)));
    }
  }

  // ---------------------------------------------------------------------
  // The gateway object
  // ---------------------------------------------------------------------

  class Gateway {
    const store: Auth.TokenStore
    const apiUrl: string
    var isRefreshing: bool
    var failedQueue: seq<CallId>
    var calls: map<CallId, Call>
    var sent: seq<Outgoing>
    var redirected: bool

    function Snapshot(): State
      reads this, store
    {
      State(apiUrl, store.memoryToken, isRefreshing, failedQueue, calls, sent, redirected)
    }

    ghost predicate Valid()
      reads this, store
    {
      Consistent(Snapshot())
    }

    /** Module load: `isRefreshing = false`, `failedQueue = []`. */
    constructor (store: Auth.TokenStore, env: Option<string>)
      ensures this.store == store
      ensures Snapshot() == Init(ApiUrl(env), store.memoryToken) && Valid()
    {
      this.store := store;
      apiUrl := ApiUrl(env);
      isRefreshing := false;
      failedQueue := [];
      calls := map[];
      sent := [];
      redirected := false;
    }

    /** `fetchWithAuth(endpoint, options)` up to its first `await fetch`. */
    method FetchWithAuth(id: CallId, endpoint: string, options: Options)
      requires Valid() && id !in calls
      modifies this
      ensures Snapshot() == Started(old(Snapshot()), id, endpoint, options) && Valid()
    {
      var token := store.Get();
      var headers := options.headers;
      if Truthy(token) {
        headers := headers[Authorization := Bearer(token.value)];
      }
      headers := headers[ContentType := JsonMediaType];
      sent := sent + [Outgoing(apiUrl + endpoint, options.(headers := headers))];
      calls := calls[id := Call(endpoint, options, Sending)];
      StartedConsistent(old(Snapshot()), id, endpoint, options);
    }

    /** The first fetch of call `id` settles with `r`. */
    method OnResponse(id: CallId, r: FetchResult)
      requires Valid() && id in calls && calls[id].phase == Sending
      modifies this
      ensures Snapshot() == Responded(old(Snapshot()), id, r) && Valid()
    {
      match r {
        case FetchFailed =>
          calls := calls[id := calls[id].(phase := Settled(Threw(NetworkFailure)))];
        case Fetched(response) =>
          if response.status == Unauthorized {
            if isRefreshing {
              failedQueue := failedQueue + [id];
              calls := calls[id := calls[id].(phase := Queued)];
            } else {
              isRefreshing := true;
              sent := sent + [RefreshRequest(apiUrl)];
              calls := calls[id := calls[id].(phase := Refreshing)];
            }
          } else if !IsOk(response) {
            var error := ErrorFor(response.body);
            calls := calls[id := calls[id].(phase := Settled(Threw(error)))];
          } else {
            calls := calls[id := calls[id].(phase := Settled(ReadJson(response.body)))];
          }
      }
      RespondedConsistent(old(Snapshot()), id, r);
    }

    /**
     * `processQueue(error, token)`: settle each waiter in order, then empty
     * the queue. Returns the retry fetches the resolved waiters' continuations
     * will send once the caller suspends.
     */
    method ProcessQueue(verdict: Verdict) returns (continuations: seq<Outgoing>)
      requires Valid()
      modifies this
      ensures Snapshot() == Drained(old(Snapshot()), verdict) && Valid()
      ensures continuations ==
        if verdict.Resolve? then Retries(apiUrl, old(calls), old(failedQueue), WaiterTokenText(verdict.token)) else []
    {
      var settled, retries := SettleWaiters(apiUrl, calls, failedQueue, verdict);
      assert verdict.Resolve? ==> retries == Retries(apiUrl, calls, failedQueue, WaiterTokenText(verdict.token));
      DrainedConsistent(Snapshot(), verdict);
      calls := settled;
      failedQueue := [];
      continuations := retries;
    }

    /** The refresh fetch issued by initiator `id` settles with `r`. */
    method OnRefreshResponse(id: CallId, r: FetchResult)
      requires Valid() && id in calls && calls[id].phase == Refreshing
      modifies this, store
      ensures Snapshot() == Refreshed(old(Snapshot()), id, r) && Valid()
    {
      if RefreshOutcome(r).Ok? {
        RefreshSucceeded(id, r);
      } else {
        RefreshFailed(id, r);
      }
    }

    /** The `try` block after an OK refresh: store the token, resolve the waiters, retry. */
    method RefreshSucceeded(id: CallId, r: FetchResult)
      requires Valid() && id in calls && calls[id].phase == Refreshing && RefreshOutcome(r).Ok?
      modifies this, store
      ensures Snapshot() == Refreshed(old(Snapshot()), id, r) && Valid()
    {
      ghost var before := Snapshot();
      assert id !in failedQueue;
      var accessToken := RefreshOutcome(r).value;
      store.Set(accessToken);
      ConsistentIgnoresEffects(before, accessToken, sent, redirected);
      var continuations := ProcessQueue(Resolve(accessToken));
      var call := calls[id];
      assert call == before.calls[id];
      sent := sent + [RetryRequest(apiUrl, call, InitiatorTokenText(accessToken))];
      sent := sent + continuations;
      calls := calls[id := call.(phase := Retrying(true))];
      RefreshedConsistent(before, id, r);
    }

    /** The `catch` and `finally` blocks after a failed refresh: reject the waiters, redirect, release. */
    method RefreshFailed(id: CallId, r: FetchResult)
      requires Valid() && id in calls && calls[id].phase == Refreshing && RefreshOutcome(r).Err?
      modifies this
      ensures Snapshot() == Refreshed(old(Snapshot()), id, r) && Valid()
    {
      ghost var before := Snapshot();
      assert id !in failedQueue;
      var error := RefreshOutcome(r).error;
      var _ := ProcessQueue(Reject(error));
      redirected := true;
      isRefreshing := false;
      calls := calls[id := calls[id].(phase := Settled(Threw(error)))];
      RefreshedConsistent(before, id, r);
    }

    /** The retry fetch of call `id` settles with `r`. */
    method OnRetryResponse(id: CallId, r: FetchResult)
      requires Valid() && id in calls && calls[id].phase.Retrying?
      modifies this
      ensures Snapshot() == Retried(old(Snapshot()), id, r) && Valid()
    {
      assert id !in failedQueue;
      if !calls[id].phase.initiator {
        calls := calls[id := calls[id].(phase := Settled(RetryOutcome(r)))];
      } else if r.FetchFailed? {
        var _ := ProcessQueue(Reject(NetworkFailure));
        redirected := true;
        isRefreshing := false;
        calls := calls[id := calls[id].(phase := Settled(Threw(NetworkFailure)))];
      } else {
        isRefreshing := false;
        calls := calls[id := calls[id].(phase := Settled(RetryOutcome(r)))];
      }
      RetriedConsistent(old(Snapshot()), id, r);
    }
  }
}
