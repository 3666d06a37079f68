/**
 * Whole interleavings of the refresh gate, run on fresh objects: what callers observe when
 * several requests are rejected with 401 while one refresh is in flight.
 */
module RefreshScenarios {
  import opened Wrappers
  import opened Browser
  import opened Http
  import opened AuthService

  /** `n` unmarked requests rejected with 401. */
  function Unauthorized(n: nat): (arrivals: seq<Arrival>)
    ensures |arrivals| == n && forall k :: 0 <= k < n ==> Enters(arrivals[k])
  {
    seq(n, _ => Arrival(401, false))
  }

  /** The next of a run of 401s starts the refresh when it is the first, and queues otherwise. */
  lemma UnauthorizedDecisions(m: nat)
    ensures Dispatch(Unauthorized(m + 1), false) ==
            Dispatch(Unauthorized(m), false) + [if m == 0 then RefreshStarted else Queued]
  {
    var earlier := Unauthorized(m);
    if m > 0 { assert Enters(earlier[0]); }
    assert Unauthorized(m + 1) == earlier + [Arrival(401, false)];
    DispatchSnoc(earlier, Arrival(401, false), false);
  }

  /**
   * The first phase of `SimultaneousUnauthorized`: on a fresh gate whose storage holds only
   * `storedRefresh`, `n` fresh requests receive a 401 one after another before anything settles.
   */
  method PileUp(n: nat, storedRefresh: string)
    returns (gate: RefreshGate, storage: LocalStorage, steps: seq<ErrorStep>, requests: seq<RequestConfig>)
    requires n >= 1
    ensures fresh(gate) && fresh(storage)
    ensures |steps| == n && |requests| == n
    ensures steps == Dispatch(Unauthorized(n), false)
    ensures steps[0] == RefreshStarted && forall k :: 1 <= k < n ==> steps[k] == Queued
    ensures gate.Valid() && gate.isRefreshing && gate.flight == Some(Flight(requests[0], Some(storedRefresh), Awaiting))
    ensures gate.subscribers == requests[1..]
    ensures gate.storage == storage && storage.items == map[RefreshKey := storedRefresh]
    ensures forall k :: 0 <= k < n ==> fresh(requests[k]) && requests[k].headers == map[] && requests[k].retry
    ensures forall k :: 1 <= k < n ==> requests[k] != requests[0]
  {
    storage := new LocalStorage(map[RefreshKey := storedRefresh]);
    gate := new RefreshGate(storage);
    var first := new RequestConfig(Some("get"), "/api/posts/", map[]);
    var step := gate.HandleResponseError(first, 401);
    steps := [step];
    requests := [first];
    UnauthorizedDecisions(0);
    while |requests| < n
      invariant 1 <= |requests| <= n && |steps| == |requests|
      invariant steps == Dispatch(Unauthorized(|steps|), false)
      invariant fresh(gate) && fresh(storage)
      invariant gate.Valid() && gate.isRefreshing && gate.flight == Some(Flight(first, Some(storedRefresh), Awaiting))
      invariant gate.subscribers == requests[1..]
      invariant requests[0] == first && steps[0] == RefreshStarted
      invariant forall k :: 1 <= k < |steps| ==> steps[k] == Queued
      invariant forall k :: 0 <= k < |requests| ==> requests[k].headers == map[] && requests[k].retry
      invariant gate.storage == storage && storage.items == map[RefreshKey := storedRefresh]
      invariant forall k :: 0 <= k < |requests| ==> fresh(requests[k])
      invariant forall k :: 1 <= k < |requests| ==> requests[k] != first
    {
      var r := new RequestConfig(Some("get"), "/api/posts/", map[]);
      step := gate.HandleResponseError(r, 401);
      UnauthorizedDecisions(|steps|);
      steps := steps + [step];
      requests := requests + [r];
    }
  }

  /**
   * `n` requests each receive a 401 before the refresh settles; the refresh endpoint answers
   * `outcome` to the stored refresh token `storedRefresh`. Only the first request starts a
   * refresh; the others queue. On success every request is replayed with the one new token,
   * the waiters first, in arrival order. With nothing stored, or a failure other than 401, no
   * waiter is called, all stay queued, the first request is rejected, the gate is released and
   * storage is untouched. A 401 answer queues the refresh POST itself behind the waiters: nothing
   * is replayed or rejected, and the gate stays claimed.
   */
  method SimultaneousUnauthorized(n: nat, storedRefresh: string, outcome: RefreshOutcome)
    returns (steps: seq<ErrorStep>, requests: seq<RequestConfig>, replayed: seq<RequestConfig>,
             stillQueued: seq<RequestConfig>, firstRejected: bool, refreshingAfter: bool,
             stored: map<string, string>)
    requires n >= 1
    ensures |steps| == n && |requests| == n
    ensures steps == Dispatch(Unauthorized(n), false)
    ensures steps[0] == RefreshStarted
    ensures forall k :: 1 <= k < n ==> steps[k] == Queued
    ensures forall k :: 0 <= k < n ==> requests[k].retry
    ensures refreshingAfter <==> storedRefresh != "" && outcome == RefreshUnauthorized
    ensures storedRefresh != "" && outcome.Refreshed? ==>
              && stored == map[RefreshKey := outcome.pair.refresh, AccessKey := outcome.pair.access]
              && stillQueued == []
              && (forall k :: 1 <= k < n ==> requests[k].headers == map[Authorization := Bearer(outcome.pair.access)])
              && (outcome.pair.access != "" ==>
                    && !firstRejected
                    && replayed == requests[1..] + [requests[0]]
                    && requests[0].headers == map[Authorization := Bearer(outcome.pair.access)])
              && (outcome.pair.access == "" ==>
                    && firstRejected
                    && replayed == requests[1..]
                    && requests[0].headers == map[])
    ensures storedRefresh == "" || outcome == RefreshFailed ==>
              && stored == map[RefreshKey := storedRefresh]
              && replayed == []
              && stillQueued == requests[1..]
              && firstRejected
              && (forall k :: 0 <= k < n ==> requests[k].headers == map[])
    ensures storedRefresh != "" && outcome == RefreshUnauthorized ==>
              && stored == map[RefreshKey := storedRefresh]
              && replayed == []
              && !firstRejected
              && |stillQueued| == n && stillQueued[..n - 1] == requests[1..]
              && stillQueued[n - 1] !in requests && stillQueued[n - 1].url == RefreshUrl
              && (forall k :: 0 <= k < n ==> requests[k].headers == map[])
  {
    var gate, storage;
    gate, storage, steps, requests := PileUp(n, storedRefresh);
    var settled, fired := gate.CompleteRefresh((token: string) => outcome);
    var resumed := [];
    firstRejected := false;
    if settled.Some? {
      resumed, firstRejected := gate.ResumeHandler();
    }
    replayed := fired + resumed;
    stillQueued := gate.subscribers;
    refreshingAfter := gate.isRefreshing;
    stored := storage.items;
    if storedRefresh != "" && outcome.Refreshed? {
      assert stored == map[RefreshKey := outcome.pair.refresh, AccessKey := outcome.pair.access];
    }
  }

  /**
   * The refresh POST answered 401 stalls the gate for good: the POST waits in the queue, the
   * handler that claimed the gate never resumes, and every later 401 queues behind it.
   */
  method RefreshAnswered401(later: nat)
    returns (gate: RefreshGate, post: RequestConfig, laterSteps: seq<ErrorStep>)
    ensures gate.isRefreshing && gate.flight.Some? && gate.flight.value.progress == Stalled
    ensures post.verb == Some("post") && post.url == RefreshUrl && post.retry
    ensures |laterSteps| == later && forall k :: 0 <= k < later ==> laterSteps[k] == Queued
    ensures |gate.subscribers| == later + 1 && gate.subscribers[0] == post
  {
    var storage := new LocalStorage(map[RefreshKey := "expired"]);
    gate := new RefreshGate(storage);
    var first := new RequestConfig(Some("get"), "/api/posts/", map[]);
    var started := gate.HandleResponseError(first, 401);
    var settled, fired := gate.CompleteRefresh((token: string) => RefreshUnauthorized);
    post := gate.subscribers[0];
    laterSteps := [];
    while |laterSteps| < later
      invariant |laterSteps| <= later
      invariant gate.Valid() && gate.isRefreshing && gate.flight.Some? && gate.flight.value.progress == Stalled
      invariant |gate.subscribers| == |laterSteps| + 1 && gate.subscribers[0] == post
      invariant post.verb == Some("post") && post.url == RefreshUrl && post.retry
      invariant forall k :: 0 <= k < |laterSteps| ==> laterSteps[k] == Queued
    {
      var r := new RequestConfig(Some("get"), "/api/feed/", map[]);
      var step := gate.HandleResponseError(r, 401);
      laterSteps := laterSteps + [step];
    }
  }

  /**
   * A request that was refreshed and replayed, and then receives a 401 again, is rejected:
   * its `_retry` mark keeps it out of a second refresh.
   */
  method ReplayedRequestIsNotRetried(pair: TokenPair)
    returns (request: RequestConfig, first: ErrorStep, replayed: seq<RequestConfig>, second: ErrorStep,
             refreshingAfter: bool)
    requires pair.access != ""
    ensures first == RefreshStarted && second == Rejected && !refreshingAfter
    ensures replayed == [request] && request.retry
    ensures request.headers == map[Authorization := Bearer(pair.access)]
  {
    var storage := new LocalStorage(map[RefreshKey := "stored"]);
    var gate := new RefreshGate(storage);
    request := new RequestConfig(Some("post"), "/api/posts/", map[]);
    first := gate.HandleResponseError(request, 401);
    var settled, fired := gate.CompleteRefresh((token: string) => Refreshed(pair));
    var rejected;
    replayed, rejected := gate.ResumeHandler();
    second := gate.HandleResponseError(request, 401);
    refreshingAfter := gate.isRefreshing;
  }

  /**
   * A 401 that arrives after `getAccessToken()` has drained the queue but before the claiming
   * handler resumes still finds the gate claimed and queues; the handler's own call of
   * `onAccessTokenFetched` then replays it, before the claiming request.
   */
  method LateWaiterIsDrainedOnResume(pair: TokenPair)
    returns (earlyFired: seq<RequestConfig>, late: ErrorStep, replayed: seq<RequestConfig>,
             a: RequestConfig, b: RequestConfig)
    requires pair.access != ""
    ensures earlyFired == [] && late == Queued
    ensures replayed == [b, a]
    ensures a.headers == map[Authorization := Bearer(pair.access)]
    ensures b.headers == map[Authorization := Bearer(pair.access)]
  {
    var storage := new LocalStorage(map[RefreshKey := "stored"]);
    var gate := new RefreshGate(storage);
    a := new RequestConfig(Some("get"), "/api/feed/", map[]);
    b := new RequestConfig(Some("get"), "/api/users/me/", map[]);
    var started := gate.HandleResponseError(a, 401);
    var settled;
    settled, earlyFired := gate.CompleteRefresh((token: string) => Refreshed(pair));
    late := gate.HandleResponseError(b, 401);
    var rejected;
    replayed, rejected := gate.ResumeHandler();
  }
}
