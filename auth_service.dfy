/**
 * The axios interceptors of `AuthService`: the bearer header on every request, and on a 401 the
 * single-flight refresh gate (`isRefreshing`) with its queue of waiting requests (`subscribers`).
 * The asynchronous handler is cut at its one `await` into events that run atomically:
 * `HandleResponseError` (a 401 arrives), `CompleteRefresh` (the refresh POST is answered) and
 * `ResumeHandler` (the handler continues after its `await`, through `finally`).
 */
module AuthService {
  import opened Wrappers
  import opened Browser
  import opened Http

  const AccessKey := "access_token"
  const RefreshKey := "refresh_token"

  /** The refresh endpoint `POST api/token/refresh/` (line 23). */
  const RefreshUrl := "https://mpfback-twitterclone.onrender.com/api/token/refresh/"

  /**
   * The refresh endpoint's answer to a refresh token: a new pair; a 401; or any other failure
   * (another error status, or no response at all).
   */
  datatype RefreshOutcome = Refreshed(pair: TokenPair) | RefreshUnauthorized | RefreshFailed

  /** A failed request as the error handler sees it: its status and whether it was already marked `_retry`. */
  datatype Arrival = Arrival(status: int, retried: bool)

  /** Only a 401 on a request not yet retried enters the refresh path. */
  predicate Enters(a: Arrival)
  {
    a.status == 401 && !a.retried
  }

  /** Whether the gate is claimed after `arrivals`, when it was `refreshing` before them and no refresh settled. */
  predicate ClaimedAfter(arrivals: seq<Arrival>, refreshing: bool)
  {
    refreshing || exists k :: 0 <= k < |arrivals| && Enters(arrivals[k])
  }

  /**
   * The handler's decisions for failed requests arriving one after another while no refresh
   * settles: each is decided by `Decide` against the gate as the earlier ones left it.
   */
  function Dispatch(arrivals: seq<Arrival>, refreshing: bool): (steps: seq<ErrorStep>)
    ensures |steps| == |arrivals|
    decreases |arrivals|
  {
    if arrivals == [] then []
    else
      var step := Decide(arrivals[0].status, arrivals[0].retried, refreshing);
      [step] + Dispatch(arrivals[1..], refreshing || step == RefreshStarted)
  }

  /** The gate an arrival meets is claimed exactly when it was claimed before, or an earlier arrival entered the refresh path. */
  lemma {:induction false} DispatchAt(arrivals: seq<Arrival>, refreshing: bool, k: nat)
    requires k < |arrivals|
    ensures Dispatch(arrivals, refreshing)[k] ==
            Decide(arrivals[k].status, arrivals[k].retried, ClaimedAfter(arrivals[..k], refreshing))
    decreases k
  {
    if k > 0 {
      var rest := arrivals[1..];
      var after := refreshing || Enters(arrivals[0]);
      assert Dispatch(arrivals, refreshing) == [Decide(arrivals[0].status, arrivals[0].retried, refreshing)] + Dispatch(rest, after);
      DispatchAt(rest, after, k - 1);
      assert ClaimedAfter(rest[..k - 1], after) == ClaimedAfter(arrivals[..k], refreshing) by {
        var before, earlier := arrivals[..k], rest[..k - 1];
        assert before[0] == arrivals[0];
        if exists j :: 0 <= j < |before| && Enters(before[j]) {
          var j :| 0 <= j < |before| && Enters(before[j]);
          if j > 0 { assert earlier[j - 1] == before[j]; }
        }
        if exists j :: 0 <= j < |earlier| && Enters(earlier[j]) {
          var j :| 0 <= j < |earlier| && Enters(earlier[j]);
          assert before[j + 1] == earlier[j];
        }
      }
    }
  }

  /**
   * Single flight: among failed requests arriving while no refresh settles, only a 401 on a
   * request not yet retried escapes rejection; the first of them starts the refresh when the gate
   * was free, every later one queues, and so at most one refresh starts.
   */
  lemma SingleFlight(arrivals: seq<Arrival>, refreshing: bool)
    ensures var steps := Dispatch(arrivals, refreshing);
            && (forall k :: 0 <= k < |steps| ==> (steps[k] == Rejected <==> !Enters(arrivals[k])))
            && (forall k :: 0 <= k < |steps| ==>
                  (steps[k] == RefreshStarted <==>
                     !refreshing && Enters(arrivals[k]) && forall j :: 0 <= j < k ==> !Enters(arrivals[j])))
            && (forall j, k :: 0 <= j < k < |steps| && steps[j] == RefreshStarted ==> steps[k] != RefreshStarted)
  {
    var steps := Dispatch(arrivals, refreshing);
    forall k | 0 <= k < |steps|
      ensures steps[k] == Rejected <==> !Enters(arrivals[k])
      ensures steps[k] == RefreshStarted <==>
                !refreshing && Enters(arrivals[k]) && forall j :: 0 <= j < k ==> !Enters(arrivals[j])
    {
      DispatchAt(arrivals, refreshing, k);
      var before := arrivals[..k];
      assert forall j :: 0 <= j < k ==> before[j] == arrivals[j];
    }
  }

  /** One more arrival is decided against the gate as the earlier arrivals left it. */
  lemma DispatchSnoc(arrivals: seq<Arrival>, a: Arrival, refreshing: bool)
    ensures Dispatch(arrivals + [a], refreshing) ==
            Dispatch(arrivals, refreshing) + [Decide(a.status, a.retried, ClaimedAfter(arrivals, refreshing))]
  {
    var longer := arrivals + [a];
    forall k | 0 <= k < |longer|
      ensures Dispatch(longer, refreshing)[k] ==
              (Dispatch(arrivals, refreshing) + [Decide(a.status, a.retried, ClaimedAfter(arrivals, refreshing))])[k]
    {
      DispatchAt(longer, refreshing, k);
      assert longer[..k] == if k < |arrivals| then arrivals[..k] else arrivals;
      if k < |arrivals| { DispatchAt(arrivals, refreshing, k); }
    }
  }

  /** How `getAccessToken()` settles: with a token, with null (no refresh token stored), or by throwing. */
  datatype AccessResult = Token(token: string) | NoToken | Threw

  /**
   * Where the awaited `getAccessToken()` stands: its refresh POST not yet answered; stalled for
   * good, because the POST was answered 401 and its own error handler queued it behind the
   * claimed gate; or settled with a result.
   */
  datatype Progress = Awaiting | Stalled | Settled(result: AccessResult)

  /**
   * The one request whose handler awaits `getAccessToken()`, what that call read from
   * `'refresh_token'` when the handler claimed the gate, and how far the call has come.
   */
  datatype Flight = Flight(request: RequestConfig, stored: Option<string>, progress: Progress)

  /** What the error handler does with a failed request. */
  datatype ErrorStep = Rejected | Queued | RefreshStarted

  /** The decision of the response-error handler, from the status, `_retry` and `isRefreshing`. */
  function Decide(status: int, retried: bool, refreshing: bool): (step: ErrorStep)
    ensures step == Rejected <==> status != 401 || retried
    ensures step == RefreshStarted <==> status == 401 && !retried && !refreshing
    ensures step == Queued ==> refreshing
  {
    if status == 401 && !retried then (if refreshing then Queued else RefreshStarted) else Rejected
  }

  /**
   * How `getAccessToken()` ends, given what it read from `'refresh_token'` and the endpoint's
   * answer to it: `None` when it never settles.
   */
  function AccessFor(stored: Option<string>, answer: string -> RefreshOutcome): (r: Option<AccessResult>)
    ensures r == Some(NoToken) <==> !Truthy(stored)
    ensures r == None <==> Truthy(stored) && answer(stored.value) == RefreshUnauthorized
    ensures r == Some(Threw) <==> Truthy(stored) && answer(stored.value) == RefreshFailed
    ensures r.Some? && r.value.Token? ==>
              Truthy(stored) && answer(stored.value).Refreshed? && answer(stored.value).pair.access == r.value.token
  {
    if !Truthy(stored) then Some(NoToken)
    else match answer(stored.value)
      case Refreshed(pair) => Some(Token(pair.access))
      case RefreshUnauthorized => None
      case RefreshFailed => Some(Threw)
  }

  /** The storage slots after `getAccessToken()`: both slots written on a successful refresh, nothing otherwise. */
  function StoredAfter(items: map<string, string>, stored: Option<string>, answer: string -> RefreshOutcome)
    : (r: map<string, string>)
    ensures !(AccessFor(stored, answer).Some? && AccessFor(stored, answer).value.Token?) ==> r == items
    ensures AccessFor(stored, answer).Some? && AccessFor(stored, answer).value.Token? ==>
              r == items[AccessKey := AccessFor(stored, answer).value.token][RefreshKey := answer(stored.value).pair.refresh]
  {
    if Truthy(stored) && answer(stored.value).Refreshed? then
      var pair := answer(stored.value).pair;
      items[AccessKey := pair.access][RefreshKey := pair.refresh]
    else items
  }

  /** Headers of a request whose subscriber callback ran with `token`. */
  function WithBearer(headers: map<string, string>, token: string): (r: map<string, string>)
    ensures Authorization in r && r[Authorization] == Bearer(token)
    ensures r.Keys == headers.Keys + {Authorization}
    ensures forall k :: k in headers && k != Authorization ==> r[k] == headers[k]
  {
    headers[Authorization := Bearer(token)]
  }

  /** Once the gate is claimed, no failed request starts a refresh: each is rejected or queued. */
  lemma {:induction false} ClaimedGateStartsNothing(arrivals: seq<Arrival>)
    ensures forall k :: 0 <= k < |arrivals| ==> Dispatch(arrivals, true)[k] != RefreshStarted
    ensures forall k :: 0 <= k < |arrivals| && Enters(arrivals[k]) ==> Dispatch(arrivals, true)[k] == Queued
  {
    SingleFlight(arrivals, true);
  }

  class RefreshGate {
    var isRefreshing: bool
    var subscribers: seq<RequestConfig>
    var flight: Option<Flight>
    const storage: LocalStorage

    /** The flag is set exactly while one handler awaits its refresh. */
    ghost predicate Valid()
      reads this
    {
      isRefreshing <==> flight.Some?
    }

    ghost function Tracked(): set<RequestConfig>
      reads this
    {
      (set r | r in subscribers) + (if flight.Some? then {flight.value.request} else {})
    }

    /** Every deferred request, and the one whose handler refreshes, is marked `_retry`. */
    ghost predicate QueuedAreMarked()
      reads this, Tracked()
    {
      && (forall r :: r in subscribers ==> r.retry)
      && (flight.Some? ==> flight.value.request.retry)
    }

    /** The module's initial state: not refreshing, no subscribers. */
    constructor (storage: LocalStorage)
      ensures Valid() && QueuedAreMarked()
      ensures this.storage == storage && !isRefreshing && subscribers == [] && flight == None
    {
      this.storage := storage;
      isRefreshing := false;
      subscribers := [];
      flight := None;
    }

    /** The request interceptor: `Authorization` set from the `'access_token'` slot when it is truthy. */
    method InterceptRequest(config: RequestConfig) returns (out: RequestConfig)
      modifies config
      ensures out == config
      ensures config.headers == BearerAttached(old(config.headers), storage.GetItem(AccessKey))
      ensures config.retry == old(config.retry)
    {
      var accessToken := storage.GetItem(AccessKey);
      if Truthy(accessToken) {
        config.headers := config.headers[Authorization := Bearer(accessToken.value)];
      }
      out := config;
    }

    /** `subscribeTokenRefresh`: one waiter appended at the end. */
    method SubscribeTokenRefresh(request: RequestConfig)
      requires Valid()
      modifies this
      ensures Valid()
      ensures subscribers == old(subscribers) + [request]
      ensures isRefreshing == old(isRefreshing) && flight == old(flight)
      ensures old(QueuedAreMarked()) && request.retry ==> QueuedAreMarked()
    {
      subscribers := subscribers + [request];
    }

    /**
     * `onAccessTokenFetched(token)`: every waiter's callback runs once, in queue order, setting
     * its request's header to `Bearer token` and replaying it; the queue is then empty.
     */
    method OnAccessTokenFetched(token: string) returns (fired: seq<RequestConfig>)
      requires Valid()
      modifies this, set r | r in subscribers
      ensures Valid()
      ensures fired == old(subscribers) && subscribers == []
      ensures isRefreshing == old(isRefreshing) && flight == old(flight)
      ensures forall r :: r in old(subscribers) ==> r.headers == WithBearer(old(r.headers), token)
      ensures forall r :: r in old(subscribers) ==> r.retry == old(r.retry)
      ensures old(QueuedAreMarked()) ==> QueuedAreMarked()
    {
      fired := subscribers;
      var i := 0;
      while i < |fired|
        invariant 0 <= i <= |fired|
        invariant subscribers == fired
        invariant isRefreshing == old(isRefreshing) && flight == old(flight)
        invariant forall k :: 0 <= k < i ==> fired[k].headers == WithBearer(old(fired[k].headers), token)
        invariant forall k :: i <= k < |fired| ==>
                    fired[k].headers == old(fired[k].headers) || fired[k].headers == WithBearer(old(fired[k].headers), token)
        invariant forall k :: 0 <= k < |fired| ==> fired[k].retry == old(fired[k].retry)
      {
        fired[i].headers := WithBearer(fired[i].headers, token);
        i := i + 1;
      }
      subscribers := [];
    }

    /**
     * `getAccessToken()` after its read of `'refresh_token'` (line 29) gave `stored`; it runs only
     * under the handler that claimed the gate. Without a truthy token it resolves null and touches
     * nothing. Otherwise it POSTs the token through this same axios instance: a new pair writes
     * both slots and drains the waiters before the call returns the access token; any failure
     * other than a 401 throws, leaving the waiters queued; a 401 reaches this gate's own error
     * handler, which marks the refresh request and, the gate being claimed, queues it, so the call
     * never settles.
     */
    method GetAccessToken(stored: Option<string>, answer: string -> RefreshOutcome)
      returns (settled: Option<AccessResult>, fired: seq<RequestConfig>)
      requires Valid() && isRefreshing
      modifies this, storage, set r | r in subscribers
      ensures Valid() && isRefreshing && flight == old(flight)
      ensures settled == AccessFor(stored, answer)
      ensures storage.items == StoredAfter(old(storage.items), stored, answer)
      ensures fired == (if settled.Some? && settled.value.Token? then old(subscribers) else [])
      ensures settled.Some? ==> subscribers == (if settled.value.Token? then [] else old(subscribers))
      ensures settled.None? ==>
                && |subscribers| == |old(subscribers)| + 1
                && subscribers[..|old(subscribers)|] == old(subscribers)
                && fresh(subscribers[|old(subscribers)|])
                && subscribers[|old(subscribers)|].verb == Some("post")
                && subscribers[|old(subscribers)|].url == RefreshUrl
                && subscribers[|old(subscribers)|].retry
      ensures forall r :: r in old(subscribers) ==>
                r.headers == (if settled.Some? && settled.value.Token? then WithBearer(old(r.headers), settled.value.token)
                              else old(r.headers))
      ensures forall r :: r in old(subscribers) ==> r.retry == old(r.retry)
      ensures old(QueuedAreMarked()) ==> QueuedAreMarked()
    {
      if Truthy(stored) {
        match answer(stored.value)
        case Refreshed(pair) =>
          storage.SetItem(AccessKey, pair.access);
          storage.SetItem(RefreshKey, pair.refresh);
          fired := OnAccessTokenFetched(pair.access);
          settled := Some(Token(pair.access));
        case RefreshUnauthorized =>
          var post := new RequestConfig(Some("post"), RefreshUrl, map[]);
          post := InterceptRequest(post);
          var step := HandleResponseError(post, 401);
          settled := None;
          fired := [];
        case RefreshFailed =>
          settled := Some(Threw);
          fired := [];
      } else {
        settled := Some(NoToken);
        fired := [];
      }
    }

    /**
     * A request's 401 reaches the error handler (`error.response` present). Only a 401 on a
     * request not yet marked `_retry` enters the refresh path; it is marked first. The first such
     * request claims the gate and starts the refresh; while the gate is claimed the others queue.
     */
    method HandleResponseError(request: RequestConfig, status: int) returns (step: ErrorStep)
      requires Valid()
      modifies this, request
      ensures Valid()
      ensures step == Decide(status, old(request.retry), old(isRefreshing))
      ensures request.retry == (old(request.retry) || status == 401)
      ensures request.headers == old(request.headers)
      ensures subscribers == (if step == Queued then old(subscribers) + [request] else old(subscribers))
      ensures isRefreshing == (old(isRefreshing) || step == RefreshStarted)
      ensures flight == (if step == RefreshStarted then Some(Flight(request, Lookup(storage.items, RefreshKey), Awaiting))
                         else old(flight))
      ensures old(QueuedAreMarked()) ==> QueuedAreMarked()
    {
      if status == 401 && !request.retry {
        request.retry := true;
        if !isRefreshing {
          isRefreshing := true;
          flight := Some(Flight(request, storage.GetItem(RefreshKey), Awaiting));
          step := RefreshStarted;
        } else {
          SubscribeTokenRefresh(request);
          step := Queued;
        }
      } else {
        step := Rejected;
      }
    }

    /**
     * The refresh POST of the claiming handler is answered: `getAccessToken()` runs on from the
     * token it read when the gate was claimed. The gate stays claimed; when the call settles,
     * its result is recorded for the handler, and otherwise the flight is stalled for good.
     */
    method CompleteRefresh(answer: string -> RefreshOutcome) returns (settled: Option<AccessResult>, fired: seq<RequestConfig>)
      requires Valid() && flight.Some? && flight.value.progress == Awaiting
      modifies this, storage, set r | r in subscribers
      ensures Valid() && isRefreshing
      ensures settled == AccessFor(old(flight.value.stored), answer)
      ensures flight == Some(old(flight.value).(progress := if settled.Some? then Settled(settled.value) else Stalled))
      ensures storage.items == StoredAfter(old(storage.items), old(flight.value.stored), answer)
      ensures fired == (if settled.Some? && settled.value.Token? then old(subscribers) else [])
      ensures settled.Some? ==> subscribers == (if settled.value.Token? then [] else old(subscribers))
      ensures settled.None? ==>
                && |subscribers| == |old(subscribers)| + 1
                && subscribers[..|old(subscribers)|] == old(subscribers)
                && fresh(subscribers[|old(subscribers)|])
                && subscribers[|old(subscribers)|].verb == Some("post")
                && subscribers[|old(subscribers)|].url == RefreshUrl
                && subscribers[|old(subscribers)|].retry
      ensures forall r :: r in old(subscribers) ==>
                r.headers == (if settled.Some? && settled.value.Token? then WithBearer(old(r.headers), settled.value.token)
                              else old(r.headers))
      ensures forall r :: r in old(subscribers) ==> r.retry == old(r.retry)
      ensures old(QueuedAreMarked()) ==> QueuedAreMarked()
    {
      var current := flight.value;
      settled, fired := GetAccessToken(current.stored, answer);
      flight := Some(current.(progress := if settled.Some? then Settled(settled.value) else Stalled));
    }

    /**
     * The claiming handler continues after its `await`. With a truthy token it sets its own
     * header, drains waiters that queued since, and replays its request; with null, an empty
     * token or an exception it rejects the original error. `finally` releases the gate in every case.
     */
    method ResumeHandler() returns (replayed: seq<RequestConfig>, rejected: bool)
      requires Valid() && flight.Some? && flight.value.progress.Settled?
      modifies this, flight.value.request, set r | r in subscribers
      ensures Valid() && !isRefreshing && flight == None
      ensures var request := old(flight.value.request);
              var result := old(flight.value.progress.result);
              if result.Token? && result.token != "" then
                && !rejected
                && replayed == old(subscribers) + [request]
                && subscribers == []
                && request.headers == WithBearer(old(request.headers), result.token)
                && (forall r :: r in old(subscribers) ==> r.headers == WithBearer(old(r.headers), result.token))
              else
                && rejected
                && replayed == []
                && subscribers == old(subscribers)
                && request.headers == old(request.headers)
                && (forall r :: r in old(subscribers) ==> r.headers == old(r.headers))
      ensures forall r :: r in old(subscribers) ==> r.retry == old(r.retry)
      ensures old(flight.value.request).retry == old(flight.value.request.retry)
      ensures old(QueuedAreMarked()) ==> QueuedAreMarked()
    {
      var request := flight.value.request;
      var result := flight.value.progress.result;
      if result.Token? && result.token != "" {
        request.headers := WithBearer(request.headers, result.token);
        var fired := OnAccessTokenFetched(result.token);
        replayed := fired + [request];
        rejected := false;
      } else {
        replayed := [];
        rejected := true;
      }
      isRefreshing := false;
      flight := None;
    }
  }
}
