/**
 * What the refresh coordinator of src/api.ts guarantees, stated over the
 * transitions of module Api: concurrent 401s share one refresh, a refresh
 * settles every waiter the same way, the flag is released by the initiator's
 * retry, and a 401 that arrives while the initiator's retry is in flight is
 * left waiting.
 */
module ApiProperties {
  import opened Web
  import opened Api

  /** Every id is a distinct call still awaiting its first fetch. */
  ghost predicate AllSending(s: State, ids: seq<CallId>) {
    && (forall i | 0 <= i < |ids| :: ids[i] in s.calls && s.calls[ids[i]].phase == Sending)
    && (forall i, j | 0 <= i < j < |ids| :: ids[i] != ids[j])
  }

  /** A first fetch's settling touches no call but its own. */
  lemma RespondedKeepsOthers(s: State, id: CallId, r: FetchResult)
    requires id in s.calls && s.calls[id].phase == Sending
    ensures Responded(s, id, r).calls.Keys == s.calls.Keys
    ensures forall x | x in s.calls && x != id :: Responded(s, id, r).calls[x] == s.calls[x]
    ensures Responded(s, id, r).apiUrl == s.apiUrl && Responded(s, id, r).token == s.token
  {
  }

  lemma AllSendingAfter(s: State, ids: seq<CallId>, r: FetchResult)
    requires |ids| > 0 && AllSending(s, ids)
    ensures AllSending(Responded(s, ids[0], r), ids[1..])
  {
    RespondedKeepsOthers(s, ids[0], r);
  }

  /** The calls of `ids`, in this order, each receive `r` for their first fetch. */
  ghost function RespondAll(s: State, ids: seq<CallId>, r: FetchResult): (s': State)
    requires AllSending(s, ids)
    ensures s'.calls.Keys == s.calls.Keys
    decreases |ids|
  {
    if ids == [] then s
    else
      AllSendingAfter(s, ids, r);
      RespondAll(Responded(s, ids[0], r), ids[1..], r)
  }

  /**
   * While a refresh runs, every 401 joins the end of the queue, in arrival
   * order; no fetch is issued and the flag stays set.
   */
  lemma {:induction false} UnauthorizedWhileRefreshing(s: State, ids: seq<CallId>, response: Response)
    requires AllSending(s, ids) && s.isRefreshing && response.status == Unauthorized
    decreases |ids|
    ensures var s' := RespondAll(s, ids, Fetched(response));
      && s'.isRefreshing
      && s'.token == s.token
      && s'.sent == s.sent
      && s'.failedQueue == s.failedQueue + ids
      && s'.calls.Keys == s.calls.Keys
      && (forall i | 0 <= i < |ids| :: s'.calls[ids[i]].phase == Queued)
      && (forall x | x in s.calls && x !in ids :: s'.calls[x] == s.calls[x])
  {
    if ids != [] {
      var s1 := Responded(s, ids[0], Fetched(response));
      AllSendingAfter(s, ids, Fetched(response));
      UnauthorizedWhileRefreshing(s1, ids[1..], response);
      var s' := RespondAll(s1, ids[1..], Fetched(response));
      assert s'.failedQueue == s.failedQueue + [ids[0]] + ids[1..];
      assert s.failedQueue + [ids[0]] + ids[1..] == s.failedQueue + ids;
      forall i | 0 <= i < |ids|
        ensures s'.calls[ids[i]].phase == Queued
      {
        if i > 0 {
          assert ids[i] == ids[1..][i - 1];
        }
      }
      forall x | x in s.calls && x !in ids
        ensures s'.calls[x] == s.calls[x]
      {
        assert x !in ids[1..];
      }
    }
  }

  /**
   * Calls whose first fetches all come back 401 while no refresh runs share
   * one refresh: the first of them issues the only refresh fetch and holds
   * the flag; all the others wait in the queue behind whoever was there.
   */
  lemma {:induction false} ConcurrentUnauthorizedShareOneRefresh(s: State, ids: seq<CallId>, response: Response)
    requires AllSending(s, ids) && |ids| > 0 && !s.isRefreshing && response.status == Unauthorized
    ensures var s' := RespondAll(s, ids, Fetched(response));
      && s'.isRefreshing
      && s'.sent == s.sent + [RefreshRequest(s.apiUrl)]
      && s'.calls[ids[0]].phase == Refreshing
      && s'.failedQueue == s.failedQueue + ids[1..]
      && (forall i | 1 <= i < |ids| :: s'.calls[ids[i]].phase == Queued)
  {
    var s1 := Responded(s, ids[0], Fetched(response));
    AllSendingAfter(s, ids, Fetched(response));
    UnauthorizedWhileRefreshing(s1, ids[1..], response);
    assert ids[0] !in ids[1..];
    forall i | 1 <= i < |ids|
      ensures RespondAll(s1, ids[1..], Fetched(response)).calls[ids[i]].phase == Queued
    {
      assert ids[i] == ids[1..][i - 1];
    }
  }

  /**
   * `processQueue` settles each waiter once, with the same verdict: on a
   * resolve every waiter moves on to its retry, and on a reject every
   * waiter throws the error. Nothing is fetched by `processQueue` itself.
   * The queue is empty afterwards; the token, the flag and every call not
   * in the queue are left as they were.
   */
  lemma DrainedSettlesEachWaiter(s: State, v: Verdict)
    requires forall i | 0 <= i < |s.failedQueue| :: s.failedQueue[i] in s.calls
    ensures var s' := Drained(s, v);
      && s'.failedQueue == []
      && s'.token == s.token && s'.isRefreshing == s.isRefreshing && s'.redirected == s.redirected
      && s'.calls.Keys == s.calls.Keys
      && (forall i | 0 <= i < |s.failedQueue| ::
            s'.calls[s.failedQueue[i]] == s.calls[s.failedQueue[i]].(phase := VerdictPhase(v)))
      && (forall x | x in s.calls && x !in s.failedQueue :: s'.calls[x] == s.calls[x])
      && s'.sent == s.sent
  {
  }

  /**
   * A successful refresh stores the new token and resolves every waiter;
   * the initiator moves on to its own retry. The queue is empty afterwards,
   * the flag is still held by the initiator, and no other call is touched.
   */
  lemma RefreshSuccessResolvesWaiters(s: State, id: CallId, r: FetchResult)
    requires Consistent(s) && id in s.calls && s.calls[id].phase == Refreshing
    requires RefreshOutcome(r).Ok?
    ensures var s' := Refreshed(s, id, r);
      && s'.token == RefreshOutcome(r).value
      && s'.failedQueue == []
      && s'.isRefreshing
      && s'.redirected == s.redirected
      && s'.calls[id].phase == Retrying(true)
      && (forall i | 0 <= i < |s.failedQueue| :: s'.calls[s.failedQueue[i]].phase == Retrying(false))
      && (forall x | x in s.calls && x != id && x !in s.failedQueue :: s'.calls[x] == s.calls[x])
  {
    var t := RefreshOutcome(r).value;
    assert id !in s.failedQueue;
    DrainedSettlesEachWaiter(s.(token := t), Resolve(t));
  }

  /**
   * After a successful refresh the initiator's own retry goes out first;
   * the waiters' retries follow, in queue order, once it has suspended.
   * Nothing sent before is changed.
   */
  lemma RefreshSuccessRetriesInOrder(s: State, id: CallId, r: FetchResult)
    requires Consistent(s) && id in s.calls && s.calls[id].phase == Refreshing
    requires RefreshOutcome(r).Ok?
    ensures var t := RefreshOutcome(r).value;
      Refreshed(s, id, r).sent ==
        s.sent + [RetryRequest(s.apiUrl, s.calls[id], InitiatorTokenText(t))]
        + Retries(s.apiUrl, s.calls, s.failedQueue, WaiterTokenText(t))
  {
  }

  /** A fetch that sends `token` in the bearer credentials. */
  predicate CarriesBearer(o: Outgoing, token: string) {
    Authorization in o.options.headers && BearerToken(o.options.headers[Authorization]) == Some(token)
  }

  lemma RetriesCarryBearer(apiUrl: string, calls: map<CallId, Call>, queue: seq<CallId>, token: string)
    requires forall i | 0 <= i < |queue| :: queue[i] in calls
    ensures forall k | 0 <= k < |queue| :: CarriesBearer(Retries(apiUrl, calls, queue, token)[k], token)
  {
  }

  /** Every retry sent after a successful refresh carries the new bearer token. */
  lemma RefreshSuccessRetriesWithNewToken(s: State, id: CallId, r: FetchResult)
    requires Consistent(s) && id in s.calls && s.calls[id].phase == Refreshing
    requires RefreshOutcome(r).Ok? && RefreshOutcome(r).value.Some?
    ensures var s' := Refreshed(s, id, r);
      forall k | |s.sent| <= k < |s'.sent| :: CarriesBearer(s'.sent[k], RefreshOutcome(r).value.value)
  {
    var t := RefreshOutcome(r).value.value;
    var retries := Retries(s.apiUrl, s.calls, s.failedQueue, t);
    var first := RetryRequest(s.apiUrl, s.calls[id], t);
    RefreshSuccessRetriesInOrder(s, id, r);
    RetriesCarryBearer(s.apiUrl, s.calls, s.failedQueue, t);
    assert CarriesBearer(first, t);
    AppendCarryBearer(s.sent, first, retries, t);
  }

  lemma AppendCarryBearer(before: seq<Outgoing>, first: Outgoing, retries: seq<Outgoing>, token: string)
    requires CarriesBearer(first, token)
    requires forall k | 0 <= k < |retries| :: CarriesBearer(retries[k], token)
    ensures var sent := before + [first] + retries;
      forall k | |before| <= k < |sent| :: CarriesBearer(sent[k], token)
  {
    var sent := before + [first] + retries;
    forall k | |before| <= k < |sent|
      ensures CarriesBearer(sent[k], token)
    {
      if k > |before| {
        assert sent[k] == retries[k - |before| - 1];
      }
    }
  }

  /**
   * A failed refresh rejects every waiter and the initiator with the same
   * error, sends the window to /login, clears the flag and leaves no call
   * waiting. The stored token is not touched and no fetch is issued.
   */
  lemma RefreshFailureRejectsEveryone(s: State, id: CallId, r: FetchResult)
    requires Consistent(s) && id in s.calls && s.calls[id].phase == Refreshing
    requires RefreshOutcome(r).Err?
    ensures var e := RefreshOutcome(r).error;
      var s' := Refreshed(s, id, r);
      && s'.token == s.token
      && s'.sent == s.sent
      && s'.redirected
      && !s'.isRefreshing
      && s'.failedQueue == []
      && s'.calls[id].phase == Settled(Threw(e))
      && (forall i | 0 <= i < |s.failedQueue| :: s'.calls[s.failedQueue[i]].phase == Settled(Threw(e)))
      && (forall x | x in s'.calls :: s'.calls[x].phase != Queued && !s'.calls[x].phase.IsInitiator())
  {
    var e := RefreshOutcome(r).error;
    var s' := Refreshed(s, id, r);
    assert id !in s.failedQueue;
    forall x | x in s'.calls
      ensures s'.calls[x].phase != Queued && !s'.calls[x].phase.IsInitiator()
    {
      if x != id && x !in s.failedQueue {
        assert s'.calls[x] == s.calls[x];
        assert s.calls[x].phase != Queued;
        assert !s.calls[x].phase.IsInitiator();
      }
    }
  }

  /**
   * The initiator's retry settling releases the flag: afterwards no call
   * holds the refresh. When the retry fetch itself fails, the waiters that
   * queued up meanwhile are rejected with that failure and the window goes
   * to /login; the new token stays stored. When it succeeds, the queue is
   * left as it was.
   */
  lemma InitiatorRetryReleasesFlag(s: State, id: CallId, r: FetchResult)
    requires Consistent(s) && id in s.calls && s.calls[id].phase == Retrying(true)
    ensures var s' := Retried(s, id, r);
      && !s'.isRefreshing
      && (forall x | x in s'.calls :: !s'.calls[x].phase.IsInitiator())
      && s'.token == s.token
      && s'.sent == s.sent
      && (r.FetchFailed? ==>
            && s'.redirected
            && s'.failedQueue == []
            && s'.calls[id].phase == Settled(Threw(NetworkFailure))
            && forall i | 0 <= i < |s.failedQueue| :: s'.calls[s.failedQueue[i]].phase == Settled(Threw(NetworkFailure)))
      && (r.Fetched? ==>
            && s'.redirected == s.redirected
            && s'.failedQueue == s.failedQueue
            && s'.calls[id].phase == Settled(RetryOutcome(r)))
  {
    RetriedConsistent(s, id, r);
  }

  /** Once the flag is clear, the next 401 starts a fresh refresh. */
  lemma UnauthorizedAfterReleaseRefreshesAgain(s: State, id: CallId, response: Response)
    requires id in s.calls && s.calls[id].phase == Sending && !s.isRefreshing
    requires response.status == Unauthorized
    ensures var s' := Responded(s, id, Fetched(response));
      && s'.isRefreshing
      && s'.calls[id].phase == Refreshing
      && s'.failedQueue == s.failedQueue
      && s'.sent == s.sent + [RefreshRequest(s.apiUrl)]
  {
  }

  /**
   * Two calls run together. Call 0 receives a 401 and refreshes; only after
   * the refresh succeeded does call 1 receive its 401, while call 0's retry
   * is still in flight and the flag still set. Call 1 is queued; call 0's
   * retry then succeeds and clears the flag. Call 1 is left in the queue
   * with no refresh running to settle it.
   */
  lemma LateWaiterStranded(apiUrl: string, options: Options)
    ensures
      var unauthorized := Fetched(Response(Unauthorized, JsonObject(map[])));
      var refreshed := Fetched(Response(200, JsonObject(map[AccessTokenField := "t"])));
      var ok := Fetched(Response(200, JsonObject(map[])));
      var s0 := Init(apiUrl, None);
      var s1 := Started(s0, 0, "/a", options);
      var s2 := Started(s1, 1, "/b", options);
      var s3 := Responded(s2, 0, unauthorized);
      Consistent(s3) && s3.calls[0].phase == Refreshing &&
      var s4 := Refreshed(s3, 0, refreshed);
      s4.calls[1].phase == Sending &&
      var s5 := Responded(s4, 1, unauthorized);
      Consistent(s5) && s5.calls[0].phase == Retrying(true) &&
      var s6 := Retried(s5, 0, ok);
      && Consistent(s6)
      && !s6.isRefreshing
      && s6.token == Some("t")
      && s6.failedQueue == [1]
      && s6.calls[1].phase == Queued
      && (forall x | x in s6.calls :: !s6.calls[x].phase.IsInitiator())
  {
    var unauthorized := Fetched(Response(Unauthorized, JsonObject(map[])));
    var refreshed := Fetched(Response(200, JsonObject(map[AccessTokenField := "t"])));
    var ok := Fetched(Response(200, JsonObject(map[])));
    var s0 := Init(apiUrl, None);
    StartedConsistent(s0, 0, "/a", options);
    var s1 := Started(s0, 0, "/a", options);
    StartedConsistent(s1, 1, "/b", options);
    var s2 := Started(s1, 1, "/b", options);
    RespondedConsistent(s2, 0, unauthorized);
    var s3 := Responded(s2, 0, unauthorized);
    assert s3.failedQueue == [];
    RefreshedConsistent(s3, 0, refreshed);
    var s4 := Refreshed(s3, 0, refreshed);
    assert s4.isRefreshing && s4.calls[1].phase == Sending;
    RespondedConsistent(s4, 1, unauthorized);
    var s5 := Responded(s4, 1, unauthorized);
    assert s5.failedQueue == [1];
    RetriedConsistent(s5, 0, ok);
    InitiatorRetryReleasesFlag(s5, 0, ok);
  }
}
