/** The authenticated request coordinator of src/services/api.ts: the token
    store over the browser's storage, the request interceptor that attaches a
    bearer credential, and the response-error handler that serialises token
    refreshes through the `isRefreshing` flag and the `failedQueue` of waiters.

    Each interceptor invocation and each outcome of the refresh call is one
    event.  The pure functions OnResponseError, OnRefreshSuccess and
    OnRefreshFailure say what an event does to the coordinator's state; the
    methods of ApiModule carry the events out field by field and are proved
    to agree with them; the lemmas state what the source promises about them,
    one event at a time and over whole event sequences. */
module Api {
  import opened Wrappers
  import opened ApiTypes

  const AccessTokenKey: string := "access_token"
  const RefreshTokenKey: string := "refresh_token"
  const LoginPath: string := "/login"
  const BearerPrefix: string := "Bearer "
  const Unauthorized: int := 401

  // ---------------------------------------------------------------------------
  // Token store: the two fixed keys of the browser's storage
  // ---------------------------------------------------------------------------

  /** `localStorage.getItem(key)`: the stored string, or null. */
  function Lookup(storage: map<string, string>, key: string): Option<string> {
    if key in storage then Some(storage[key]) else None
  }

  /** JavaScript truthiness of a `string | null`: present and not empty. */
  predicate Truthy(v: Option<string>) {
    v.Some? && v.value != ""
  }

  /** Every key other than the two token keys reads as before. */
  ghost predicate OtherKeysUnchanged(before: map<string, string>, after: map<string, string>) {
    forall k :: k != AccessTokenKey && k != RefreshTokenKey ==> Lookup(after, k) == Lookup(before, k)
  }

  /** The storage after `setTokens(accessToken, refreshToken)`. */
  function WithTokens(storage: map<string, string>, accessToken: string, refreshToken: string): (r: map<string, string>)
    ensures Lookup(r, AccessTokenKey) == Some(accessToken)
    ensures Lookup(r, RefreshTokenKey) == Some(refreshToken)
    ensures OtherKeysUnchanged(storage, r)
  {
    storage[AccessTokenKey := accessToken][RefreshTokenKey := refreshToken]
  }

  /** The storage after `clearTokens()`. */
  function WithoutTokens(storage: map<string, string>): (r: map<string, string>)
    ensures Lookup(r, AccessTokenKey) == None && Lookup(r, RefreshTokenKey) == None
    ensures OtherKeysUnchanged(storage, r)
  {
    storage - {AccessTokenKey, RefreshTokenKey}
  }

  /** Storing a pair and then clearing leaves no trace of the pair: the
      other keys read as before the pair was stored. */
  lemma ClearUndoesSet(storage: map<string, string>, accessToken: string, refreshToken: string)
    ensures WithoutTokens(WithTokens(storage, accessToken, refreshToken)) == WithoutTokens(storage)
  {
    var a := WithoutTokens(WithTokens(storage, accessToken, refreshToken));
    var b := WithoutTokens(storage);
    assert forall k :: k in a <==> k in b by {
      forall k ensures k in a <==> k in b {
        assert Lookup(a, k) == Lookup(b, k);
      }
    }
  }

  // ---------------------------------------------------------------------------
  // The bearer credential (section 2.1 of RFC 6750)
  // ---------------------------------------------------------------------------

  /** The `Authorization` header value `Bearer <token>`. */
  function BearerCredentials(token: string): string {
    BearerPrefix + token
  }

  /** The token a server reads back from an `Authorization` value of the
      `Bearer` form, if the value has that form. */
  function BearerToken(header: string): Option<string> {
    if |header| >= |BearerPrefix| && header[..|BearerPrefix|] == BearerPrefix
    then Some(header[|BearerPrefix|..])
    else None
  }

  /** The header carries exactly the stored token: reading it back gives the
      token, so two different tokens never produce the same header. */
  lemma BearerRoundTrip(token: string, other: string)
    ensures BearerToken(BearerCredentials(token)) == Some(token)
    ensures BearerCredentials(token) == BearerCredentials(other) ==> token == other
  {
    assert BearerCredentials(token)[..|BearerPrefix|] == BearerPrefix;
    assert BearerCredentials(token)[|BearerPrefix|..] == token;
    assert BearerCredentials(other)[|BearerPrefix|..] == other;
  }

  // ---------------------------------------------------------------------------
  // Requests and waiters
  // ---------------------------------------------------------------------------

  /** An outgoing request's configuration. The interceptors update its
      `Authorization` header and its `_retry` mark in place; its method,
      address and body never change. */
  class RequestConfig {
    const verb: string
    const url: string
    const data: Option<string>
    var authorization: Option<string>
    var retry: bool

    constructor (verb: string, url: string, data: Option<string>)
      ensures this.verb == verb && this.url == url && this.data == data
      ensures authorization.None? && !retry
    {
      this.verb := verb;
      this.url := url;
      this.data := data;
      authorization := None;
      retry := false;
    }
  }

  /** How a queued waiter's promise is settled: resolved with a token or
      rejected with an error. */
  datatype Settlement = Resolve(token: string) | Reject(error: RequestError)

  /** One settlement handed to the waiter of a queued request. */
  datatype Delivery = Delivery(waiter: RequestConfig, settlement: Settlement)

  /** The settlements `processQueue` hands out, in the order it visits the queue. */
  function Settle(queue: seq<RequestConfig>, settlement: Settlement): seq<Delivery> {
    if queue == [] then []
    else Settle(queue[..|queue| - 1], settlement) + [Delivery(queue[|queue| - 1], settlement)]
  }

  /** `processQueue` settles every waiter, in insertion order, all with the
      same settlement. */
  lemma {:induction false} SettleInOrder(queue: seq<RequestConfig>, settlement: Settlement)
    ensures |Settle(queue, settlement)| == |queue|
    ensures forall i :: 0 <= i < |queue| ==> Settle(queue, settlement)[i] == Delivery(queue[i], settlement)
  {
    if queue != [] {
      SettleInOrder(queue[..|queue| - 1], settlement);
    }
  }

  // ---------------------------------------------------------------------------
  // The coordinator's state and its events, as values
  // ---------------------------------------------------------------------------

  /** How one handler invocation ends, as its caller sees it. */
  datatype Outcome =
    | Rejected(error: RequestError)     // the returned promise rejects with this error
    | Queued                            // the request waits in `failedQueue`
    | Refreshing(refreshToken: string)  // the handler awaits POST /auth/refresh carrying this token
    | Retried(request: RequestConfig)   // the request is sent again through the client

  /** Everything the coordinator's events read or write: the browser's
      storage, the redirect target, the flag, the queue, the handler that is
      suspended on the refresh call, and the log of settlements handed out. */
  datatype Coordinator = Coordinator(
    storage: map<string, string>,
    location: Option<string>,
    isRefreshing: bool,
    failedQueue: seq<RequestConfig>,
    inFlight: Option<RequestConfig>,
    settled: seq<Delivery>)

  /** The coordinator's invariant: a refresh in flight has the flag set, and
      a cleared flag has an empty queue. The converse of the first part does
      not hold: the missing-refresh-token path sets the flag with no refresh
      in flight. */
  predicate Valid(s: Coordinator) {
    && (s.inFlight.Some? ==> s.isRefreshing)
    && (!s.isRefreshing ==> s.failedQueue == [])
  }

  /** The state a fresh page starts from: whatever storage holds, nothing else. */
  function Initial(storage: map<string, string>): Coordinator {
    Coordinator(storage, None, false, [], None, [])
  }

  /** What the response-error handler does: the new state, the request's new
      `_retry` mark and how the invocation ends. */
  datatype ErrorStep = ErrorStep(next: Coordinator, retry: bool, outcome: Outcome)

  /** The response-error handler invoked with `err` for `request`, whose
      `_retry` mark is `retry`, up to its first suspension. It queues
      exactly the unmarked 401s met while refreshing, and refreshes exactly
      the unmarked 401s met while idle with a refresh token stored; every
      other invocation is rejected with its own error. The mark is set only
      past the in-progress check, any unmarked 401 leaves the flag set, and
      no waiter is settled or dropped. */
  function OnResponseError(s: Coordinator, err: RequestError, request: RequestConfig, retry: bool): (r: ErrorStep)
    ensures r.outcome.Queued? <==> err.Status() == Some(Unauthorized) && !retry && s.isRefreshing
    ensures r.outcome.Refreshing? <==>
      err.Status() == Some(Unauthorized) && !retry && !s.isRefreshing && Truthy(Lookup(s.storage, RefreshTokenKey))
    ensures r.outcome.Rejected? ==> r.outcome.error == err
    ensures !r.outcome.Retried?
    ensures r.retry == (retry || (err.Status() == Some(Unauthorized) && !s.isRefreshing))
    ensures r.next.isRefreshing == (s.isRefreshing || (err.Status() == Some(Unauthorized) && !retry))
    ensures r.next.settled == s.settled
    ensures s.failedQueue <= r.next.failedQueue
  {
    if err.Status() == Some(Unauthorized) && !retry then
      if s.isRefreshing then
        ErrorStep(s.(failedQueue := s.failedQueue + [request]), retry, Queued)
      else
        var refreshToken := Lookup(s.storage, RefreshTokenKey);
        if !Truthy(refreshToken) then
          ErrorStep(s.(storage := WithoutTokens(s.storage), location := Some(LoginPath), isRefreshing := true),
                    true, Rejected(err))
        else
          ErrorStep(s.(isRefreshing := true, inFlight := Some(request)), true, Refreshing(refreshToken.value))
    else
      ErrorStep(s, retry, Rejected(err))
  }

  /** The suspended handler resumed by a successful refresh returning the pair
      (accessToken, refreshToken): the new pair is stored, the queue is
      emptied into the settlements, and nothing is in flight any more. */
  function OnRefreshSuccess(s: Coordinator, accessToken: string, refreshToken: string): (r: Coordinator)
    ensures Lookup(r.storage, AccessTokenKey) == Some(accessToken)
    ensures Lookup(r.storage, RefreshTokenKey) == Some(refreshToken)
    ensures r.failedQueue == [] && !r.isRefreshing && r.inFlight.None?
    ensures s.settled <= r.settled && r.location == s.location
  {
    s.(storage := WithTokens(s.storage, accessToken, refreshToken),
       settled := s.settled + Settle(s.failedQueue, Resolve(accessToken)),
       failedQueue := [],
       isRefreshing := false,
       inFlight := None)
  }

  /** The suspended handler resumed by a failed refresh: both tokens are
      gone, the client is sent to /login, the queue is emptied into the
      settlements, and nothing is in flight any more. */
  function OnRefreshFailure(s: Coordinator, error: RequestError): (r: Coordinator)
    ensures Lookup(r.storage, AccessTokenKey).None? && Lookup(r.storage, RefreshTokenKey).None?
    ensures r.location == Some(LoginPath)
    ensures r.failedQueue == [] && !r.isRefreshing && r.inFlight.None?
    ensures s.settled <= r.settled
  {
    s.(settled := s.settled + Settle(s.failedQueue, Reject(error)),
       failedQueue := [],
       storage := WithoutTokens(s.storage),
       location := Some(LoginPath),
       isRefreshing := false,
       inFlight := None)
  }

  // ---------------------------------------------------------------------------
  // One event at a time
  // ---------------------------------------------------------------------------

  /** A non-401 error, or a 401 on a request already marked `_retry`, is
      rejected with that same error and changes nothing. */
  lemma OtherErrorsPassThrough(s: Coordinator, err: RequestError, request: RequestConfig, retry: bool)
    requires err.Status() != Some(Unauthorized) || retry
    ensures OnResponseError(s, err, request, retry) == ErrorStep(s, retry, Rejected(err))
  {
  }

  /** A 401 on an unmarked request while a refresh is under way appends
      exactly that request to the queue, starts no refresh, and leaves the
      request unmarked. */
  lemma QueuedWhileRefreshing(s: Coordinator, err: RequestError, request: RequestConfig)
    requires err.Status() == Some(Unauthorized) && s.isRefreshing
    ensures var step := OnResponseError(s, err, request, false);
      && step.outcome == Queued
      && step.next.failedQueue == s.failedQueue + [request]
      && step.next.(failedQueue := s.failedQueue) == s
      && !step.retry
  {
  }

  /** A 401 on an unmarked request while idle, with no usable refresh token
      stored: the request is marked, both tokens are cleared, the client is
      sent to /login and the original error is returned, without a refresh
      call, and the flag is left set with nothing in flight. */
  lemma MissingRefreshTokenPath(s: Coordinator, err: RequestError, request: RequestConfig)
    requires err.Status() == Some(Unauthorized) && !s.isRefreshing
    requires !Truthy(Lookup(s.storage, RefreshTokenKey))
    ensures var step := OnResponseError(s, err, request, false);
      && step.outcome == Rejected(err)
      && step.retry
      && Lookup(step.next.storage, AccessTokenKey).None?
      && Lookup(step.next.storage, RefreshTokenKey).None?
      && step.next.location == Some(LoginPath)
      && step.next.isRefreshing
      && step.next.inFlight == s.inFlight
      && step.next.failedQueue == s.failedQueue
      && step.next.settled == s.settled
  {
  }

  /** A refresh call is issued only from a state with no refresh in flight
      and the flag cleared; it carries the stored refresh token, and the
      request that triggered it becomes the one in flight. */
  lemma RefreshStartsOnlyWhenIdle(s: Coordinator, err: RequestError, request: RequestConfig, retry: bool)
    requires Valid(s)
    requires OnResponseError(s, err, request, retry).outcome.Refreshing?
    ensures var step := OnResponseError(s, err, request, retry);
      && !s.isRefreshing && s.inFlight.None?
      && err.Status() == Some(Unauthorized) && !retry && step.retry
      && Lookup(s.storage, RefreshTokenKey) == Some(step.outcome.refreshToken)
      && step.outcome.refreshToken != ""
      && step.next == s.(isRefreshing := true, inFlight := Some(request))
  {
  }

  /** A successful refresh leaves exactly the new pair in storage, hands the
      new access token to every waiter in queue order, empties the queue and
      clears the flag. */
  lemma RefreshSuccessSettlesAll(s: Coordinator, accessToken: string, refreshToken: string)
    ensures var t := OnRefreshSuccess(s, accessToken, refreshToken);
      && Lookup(t.storage, AccessTokenKey) == Some(accessToken)
      && Lookup(t.storage, RefreshTokenKey) == Some(refreshToken)
      && OtherKeysUnchanged(s.storage, t.storage)
      && |t.settled| == |s.settled| + |s.failedQueue|
      && t.settled[..|s.settled|] == s.settled
      && (forall i :: 0 <= i < |s.failedQueue| ==>
            t.settled[|s.settled| + i] == Delivery(s.failedQueue[i], Resolve(accessToken)))
      && t.failedQueue == [] && !t.isRefreshing && t.inFlight.None?
      && t.location == s.location
  {
    SettleInOrder(s.failedQueue, Resolve(accessToken));
  }

  /** A failed refresh rejects every waiter with the refresh error (not the
      original 401), in queue order, clears both tokens, sends the client to
      /login, empties the queue and clears the flag. */
  lemma RefreshFailureRejectsAll(s: Coordinator, error: RequestError)
    ensures var t := OnRefreshFailure(s, error);
      && Lookup(t.storage, AccessTokenKey).None?
      && Lookup(t.storage, RefreshTokenKey).None?
      && OtherKeysUnchanged(s.storage, t.storage)
      && t.location == Some(LoginPath)
      && |t.settled| == |s.settled| + |s.failedQueue|
      && t.settled[..|s.settled|] == s.settled
      && (forall i :: 0 <= i < |s.failedQueue| ==>
            t.settled[|s.settled| + i] == Delivery(s.failedQueue[i], Reject(error)))
      && t.failedQueue == [] && !t.isRefreshing && t.inFlight.None?
  {
    SettleInOrder(s.failedQueue, Reject(error));
  }

  // ---------------------------------------------------------------------------
  // Event sequences
  // ---------------------------------------------------------------------------

  /** The events that move the coordinator: a response error reaching the
      handler, or the outcome of the refresh call that is in flight. */
  datatype Event =
    | ResponseError(err: RequestError, request: RequestConfig, retry: bool)
    | RefreshSucceeded(accessToken: string, refreshToken: string)
    | RefreshFailed(error: RequestError)

  /** A refresh outcome can only arrive while a refresh call is in flight. */
  predicate Enabled(s: Coordinator, e: Event) {
    e.ResponseError? || s.inFlight.Some?
  }

  function Step(s: Coordinator, e: Event): Coordinator {
    match e
    case ResponseError(err, request, retry) => OnResponseError(s, err, request, retry).next
    case RefreshSucceeded(accessToken, refreshToken) => OnRefreshSuccess(s, accessToken, refreshToken)
    case RefreshFailed(error) => OnRefreshFailure(s, error)
  }

  /** The state after the events, applied in order. */
  function Run(s: Coordinator, events: seq<Event>): Coordinator
    decreases |events|
  {
    if events == [] then s else Run(Step(s, events[0]), events[1..])
  }

  /** Every event of the sequence can occur when its turn comes. */
  predicate Feasible(s: Coordinator, events: seq<Event>)
    decreases |events|
  {
    events == [] || (Enabled(s, events[0]) && Feasible(Step(s, events[0]), events[1..]))
  }

  /** The number of calls to the refresh endpoint the events make. */
  function RefreshCalls(s: Coordinator, events: seq<Event>): nat
    decreases |events|
  {
    if events == [] then 0
    else
      var e := events[0];
      var started := e.ResponseError? && OnResponseError(s, e.err, e.request, e.retry).outcome.Refreshing?;
      (if started then 1 else 0) + RefreshCalls(Step(s, e), events[1..])
  }

  /** The requests of those events that are a 401 on a request not yet
      marked `_retry`, in order: the ones the handler queues while a refresh
      is under way. A 401 on a marked request is not counted. */
  function UnmarkedUnauthorized(events: seq<Event>): seq<RequestConfig>
    decreases |events|
  {
    if events == [] then []
    else
      var e := events[0];
      Queues(e) + UnmarkedUnauthorized(events[1..])
  }

  ghost predicate AllResponseErrors(events: seq<Event>) {
    forall i :: 0 <= i < |events| ==> events[i].ResponseError?
  }

  /** Every event keeps the coordinator's invariant. */
  lemma {:induction false} RunPreservesValid(s: Coordinator, events: seq<Event>)
    requires Valid(s) && Feasible(s, events)
    ensures Valid(Run(s, events))
    decreases |events|
  {
    if events != [] {
      RunPreservesValid(Step(s, events[0]), events[1..]);
    }
  }

  /** The requests a single response error contributes to `UnmarkedUnauthorized`. */
  function Queues(e: Event): seq<RequestConfig> {
    if e.ResponseError? && e.err.Status() == Some(Unauthorized) && !e.retry then [e.request] else []
  }

  /** One response error while the flag is set: it starts no refresh and
      appends its own contribution to the queue, nothing else. */
  lemma StepWhileRefreshing(s: Coordinator, e: Event)
    requires s.isRefreshing && e.ResponseError?
    ensures Step(s, e) == s.(failedQueue := s.failedQueue + Queues(e))
    ensures !OnResponseError(s, e.err, e.request, e.retry).outcome.Refreshing?
  {
  }

  /** While the flag is set, response errors never start a refresh: every 401
      on an unmarked request joins the queue in arrival order, and storage,
      redirect, flag, the refresh in flight and the settlements stay as they
      were. */
  lemma {:induction false} RefreshingAbsorbsErrors(s: Coordinator, events: seq<Event>)
    requires s.isRefreshing && AllResponseErrors(events)
    ensures var t := Run(s, events);
      && t == s.(failedQueue := s.failedQueue + UnmarkedUnauthorized(events))
      && RefreshCalls(s, events) == 0
    decreases |events|
  {
    if events != [] {
      var e := events[0];
      var rest := events[1..];
      StepWhileRefreshing(s, e);
      var s' := Step(s, e);
      assert AllResponseErrors(rest) by {
        forall i | 0 <= i < |rest| ensures rest[i].ResponseError? {
          assert rest[i] == events[i + 1];
        }
      }
      RefreshingAbsorbsErrors(s', rest);
      assert UnmarkedUnauthorized(events) == Queues(e) + UnmarkedUnauthorized(rest);
      assert s.failedQueue + Queues(e) + UnmarkedUnauthorized(rest) == s.failedQueue + UnmarkedUnauthorized(events);
    }
  }

  /** However many requests meet a 401 in the same window, exactly one
      refresh call is made: the first starts it and every later one is
      queued behind it, in arrival order. */
  lemma OneRefreshPerWindow(s: Coordinator, first: Event, rest: seq<Event>)
    requires !s.isRefreshing && s.failedQueue == []
    requires Truthy(Lookup(s.storage, RefreshTokenKey))
    requires first.ResponseError? && first.err.Status() == Some(Unauthorized) && !first.retry
    requires AllResponseErrors(rest)
    ensures RefreshCalls(s, [first] + rest) == 1
    ensures Run(s, [first] + rest).inFlight == Some(first.request)
    ensures Run(s, [first] + rest).failedQueue == UnmarkedUnauthorized(rest)
  {
    var events := [first] + rest;
    assert events[0] == first && events[1..] == rest;
    var s' := Step(s, first);
    assert s'.isRefreshing && s'.failedQueue == [];
    RefreshingAbsorbsErrors(s', rest);
  }

  /** Once the missing-refresh-token path has run, the coordinator does not
      recover until the navigation to /login replaces the page: no refresh
      can be in flight again, so the only events that can occur are response
      errors; the flag stays set, every later 401 on an unmarked request is
      queued, and no waiter is settled. */
  lemma {:induction false} StalledForever(s: Coordinator, events: seq<Event>)
    requires s.isRefreshing && s.inFlight.None?
    requires Feasible(s, events)
    ensures AllResponseErrors(events)
    ensures var t := Run(s, events);
      && t.isRefreshing && t.inFlight.None?
      && t.settled == s.settled
      && t.failedQueue == s.failedQueue + UnmarkedUnauthorized(events)
      && RefreshCalls(s, events) == 0
    decreases |events|
  {
    if events != [] {
      var s' := Step(s, events[0]);
      assert events[0].ResponseError?;
      StalledForever(s', events[1..]);
      forall i | 0 <= i < |events| ensures events[i].ResponseError? {
        if i > 0 { assert events[i] == events[1..][i - 1]; }
      }
      RefreshingAbsorbsErrors(s, events);
    }
  }

  /** From an idle state with no usable refresh token, the first 401 on an
      unmarked request leaves the coordinator stalled, whatever happens
      afterwards until the navigation to /login replaces the page. */
  lemma MissingRefreshTokenNeverRecovers(s: Coordinator, err: RequestError, request: RequestConfig, later: seq<Event>)
    requires !s.isRefreshing && s.inFlight.None? && err.Status() == Some(Unauthorized)
    requires !Truthy(Lookup(s.storage, RefreshTokenKey))
    requires Feasible(s, [ResponseError(err, request, false)] + later)
    ensures var t := Run(s, [ResponseError(err, request, false)] + later);
      && t.isRefreshing && t.inFlight.None? && t.settled == s.settled
    ensures RefreshCalls(s, [ResponseError(err, request, false)] + later) == 0
  {
    var events := [ResponseError(err, request, false)] + later;
    assert events[0] == ResponseError(err, request, false) && events[1..] == later;
    StalledForever(Step(s, events[0]), later);
  }

  /** Queued requests are never marked `_retry`, so a request that waited
      behind a refresh and then meets a 401 again starts a second refresh,
      whereas the request that started the first refresh is rejected on its
      second 401. Requests a and b both meet a 401 while a usable refresh
      token is stored; the refresh succeeds with (t, r), r usable; then both
      are retried and meet a 401 again. */
  lemma QueuedRequestRefreshesAgain(s: Coordinator, err: RequestError, a: RequestConfig, b: RequestConfig, t: string, r: string)
    requires !s.isRefreshing && s.failedQueue == [] && s.inFlight.None?
    requires Truthy(Lookup(s.storage, RefreshTokenKey)) && r != ""
    requires err.Status() == Some(Unauthorized)
    ensures var stepA := OnResponseError(s, err, a, false);
      var stepB := OnResponseError(stepA.next, err, b, false);
      var s3 := OnRefreshSuccess(stepB.next, t, r);
      && stepA.outcome.Refreshing? && stepA.retry
      && stepB.outcome == Queued && !stepB.retry
      && s3.settled == s.settled + [Delivery(b, Resolve(t))]
      && OnResponseError(s3, err, a, stepA.retry).outcome == Rejected(err)
      && OnResponseError(s3, err, b, stepB.retry).outcome == Refreshing(r)
  {
    var stepA := OnResponseError(s, err, a, false);
    var stepB := OnResponseError(stepA.next, err, b, false);
    assert stepB.next.failedQueue == [b];
    assert Settle([b], Resolve(t)) == [Delivery(b, Resolve(t))] by {
      assert [b][..0] == [];
    }
  }

  // ---------------------------------------------------------------------------
  // The module's state, updated in place
  // ---------------------------------------------------------------------------

  /** The module-level state of src/services/api.ts together with the parts
      of the browser it writes: `localStorage` and `window.location`. */
  class ApiModule {
    var storage: map<string, string>
    var location: Option<string>
    var isRefreshing: bool
    var failedQueue: seq<RequestConfig>
    var inFlight: Option<RequestConfig>
    var settled: seq<Delivery>

    constructor (storage: map<string, string>)
      ensures State() == Initial(storage)
    {
      this.storage := storage;
      location := None;
      isRefreshing := false;
      failedQueue := [];
      inFlight := None;
      settled := [];
    }

    /** The fields as one value. */
    function State(): Coordinator
      reads this
    {
      Coordinator(storage, location, isRefreshing, failedQueue, inFlight, settled)
    }

    /** `getAccessToken()`: the stored access token, or null when none is stored. */
    function GetAccessToken(): (r: Option<string>)
      reads this
      ensures r.Some? <==> AccessTokenKey in storage
      ensures r.Some? ==> r.value == storage[AccessTokenKey]
    {
      Lookup(storage, AccessTokenKey)
    }

    /** `getRefreshToken()`: the stored refresh token, or null when none is stored. */
    function GetRefreshToken(): (r: Option<string>)
      reads this
      ensures r.Some? <==> RefreshTokenKey in storage
      ensures r.Some? ==> r.value == storage[RefreshTokenKey]
    {
      Lookup(storage, RefreshTokenKey)
    }

    /** `setTokens(accessToken, refreshToken)` */
    method SetTokens(accessToken: string, refreshToken: string)
      modifies this
      ensures State() == old(State()).(storage := WithTokens(old(storage), accessToken, refreshToken))
      ensures GetAccessToken() == Some(accessToken) && GetRefreshToken() == Some(refreshToken)
      ensures OtherKeysUnchanged(old(storage), storage)
    {
      storage := storage[AccessTokenKey := accessToken];
      storage := storage[RefreshTokenKey := refreshToken];
    }

    /** `clearTokens()` */
    method ClearTokens()
      modifies this
      ensures State() == old(State()).(storage := WithoutTokens(old(storage)))
      ensures GetAccessToken().None? && GetRefreshToken().None?
      ensures OtherKeysUnchanged(old(storage), storage)
    {
      storage := storage - {AccessTokenKey};
      storage := storage - {RefreshTokenKey};
    }

    /** The request interceptor: `Authorization: Bearer <token>` when a
        non-empty access token is stored; otherwise the request is untouched. */
    method AttachAuthorization(request: RequestConfig)
      modifies request
      ensures Truthy(GetAccessToken()) ==> request.authorization == Some(BearerCredentials(GetAccessToken().value))
      ensures !Truthy(GetAccessToken()) ==> request.authorization == old(request.authorization)
      ensures request.retry == old(request.retry)
    {
      var token := GetAccessToken();
      if Truthy(token) {
        request.authorization := Some(BearerCredentials(token.value));
      }
    }

    /** `processQueue`: settle every waiter with `settlement`, in order, then
        empty the queue. */
    method ProcessQueue(settlement: Settlement)
      modifies this
      ensures State() == old(State()).(settled := old(settled) + Settle(old(failedQueue), settlement), failedQueue := [])
    {
      var i := 0;
      while i < |failedQueue|
        invariant 0 <= i <= |failedQueue|
        invariant State() == old(State()).(settled := old(settled) + Settle(failedQueue[..i], settlement))
      {
        assert failedQueue[..i + 1][..i] == failedQueue[..i];
        settled := settled + [Delivery(failedQueue[i], settlement)];
        i := i + 1;
      }
      assert failedQueue[..i] == failedQueue;
      failedQueue := [];
    }

    /** The response-error handler, up to its first suspension. */
    method HandleResponseError(err: RequestError, request: RequestConfig) returns (outcome: Outcome)
      modifies this, request
      ensures var step := OnResponseError(old(State()), err, request, old(request.retry));
        State() == step.next && request.retry == step.retry && outcome == step.outcome
      ensures request.authorization == old(request.authorization)
    {
      if err.Status() == Some(Unauthorized) && !request.retry {
        if isRefreshing {
          failedQueue := failedQueue + [request];
          return Queued;
        }
        request.retry := true;
        isRefreshing := true;
        var refreshToken := GetRefreshToken();
        if !Truthy(refreshToken) {
          ClearTokens();
          location := Some(LoginPath);
          return Rejected(err);
        }
        inFlight := Some(request);
        return Refreshing(refreshToken.value);
      }
      return Rejected(err);
    }

    /** The suspended handler after the refresh call returned the pair
        (accessToken, refreshToken): store it, release the waiters, and retry
        the original request with the new access token. */
    method HandleRefreshSuccess(accessToken: string, refreshToken: string) returns (outcome: Outcome)
      requires inFlight.Some?
      modifies this, inFlight.value
      ensures State() == OnRefreshSuccess(old(State()), accessToken, refreshToken)
      ensures outcome == Retried(old(inFlight.value))
      ensures old(inFlight.value).authorization == Some(BearerCredentials(accessToken))
      ensures old(inFlight.value).retry == old(inFlight.value.retry)
    {
      var request := inFlight.value;
      SetTokens(accessToken, refreshToken);
      ProcessQueue(Resolve(accessToken));
      request.authorization := Some(BearerCredentials(accessToken));
      outcome := Retried(request);
      isRefreshing := false;
      inFlight := None;
    }

    /** The suspended handler after the refresh call failed with `error`. */
    method HandleRefreshFailure(error: RequestError) returns (outcome: Outcome)
      requires inFlight.Some?
      modifies this
      ensures State() == OnRefreshFailure(old(State()), error)
      ensures outcome == Rejected(error)
    {
      ProcessQueue(Reject(error));
      ClearTokens();
      location := Some(LoginPath);
      outcome := Rejected(error);
      isRefreshing := false;
      inFlight := None;
    }
  }

  /** The continuation of a queued request when its waiter settles: on a
      token, set `Authorization: Bearer <token>` and send the request again;
      on an error, reject with it. The `_retry` mark is left as it was. */
  method ResumeWaiter(request: RequestConfig, settlement: Settlement) returns (outcome: Outcome)
    modifies request
    ensures settlement.Resolve? ==>
      request.authorization == Some(BearerCredentials(settlement.token)) && outcome == Retried(request)
    ensures settlement.Reject? ==>
      request.authorization == old(request.authorization) && outcome == Rejected(settlement.error)
    ensures request.retry == old(request.retry)
  {
    match settlement
    case Resolve(token) =>
      request.authorization := Some(BearerCredentials(token));
      outcome := Retried(request);
    case Reject(error) =>
      outcome := Rejected(error);
  }
}
