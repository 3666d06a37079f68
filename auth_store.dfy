/**
 * The `auth` store: the credential pair held in memory and in the `'access'`/`'refresh'`
 * storage slots, the signed-in user, the unread-notification state, and the module-level
 * polling handle `notificationInterval`.
 */
module Auth {
  import opened Wrappers
  import opened Browser
  import opened Http

  const AccessSlot := "access"
  const RefreshSlot := "refresh"

  /** What decoding the middle segment of a JWT gives: unreadable, or a payload with or without `exp`. */
  datatype Claims = Malformed | Payload(exp: Option<int>)

  /** `Math.floor(Date.now() / 1000)`; Dafny's division by a positive divisor rounds down. */
  function CurrentSecond(nowMs: int): int
  {
    nowMs / 1000
  }

  lemma CurrentSecondBounds(nowMs: int)
    ensures CurrentSecond(nowMs) * 1000 <= nowMs < CurrentSecond(nowMs) * 1000 + 1000
  {
  }

  /** A claim `exp` lies before the current second exactly when the whole second after `exp` has begun. */
  lemma BeforeCurrentSecond(exp: int, nowMs: int)
    ensures exp < CurrentSecond(nowMs) <==> (exp + 1) * 1000 <= nowMs
  {
    CurrentSecondBounds(nowMs);
  }

  /**
   * `isTokenExpired`: the empty token and an unreadable payload count as expired; a payload
   * without `exp` does not (the comparison `undefined < now` is false).
   */
  function IsTokenExpired(decode: string -> Claims, token: string, nowMs: int): (expired: bool)
    ensures token == "" ==> expired
    ensures decode(token).Malformed? ==> expired
    ensures token != "" && decode(token) == Payload(None) ==> !expired
    ensures token != "" && decode(token).Payload? && decode(token).exp.Some? ==>
              (expired <==> (decode(token).exp.value + 1) * 1000 <= nowMs)
  {
    if token == "" then true
    else match decode(token)
      case Malformed => true
      case Payload(exp) =>
        BeforeCurrentSecond(if exp.Some? then exp.value else 0, nowMs);
        exp.Some? && exp.value < CurrentSecond(nowMs)
  }

  /** A token whose `exp` is the current second is still valid; one second earlier it is expired. */
  lemma ExpiryBoundary(decode: string -> Claims, token: string, nowMs: int)
    requires token != "" && decode(token).Payload?
    ensures decode(token).exp == Some(CurrentSecond(nowMs)) ==> !IsTokenExpired(decode, token, nowMs)
    ensures decode(token).exp == Some(CurrentSecond(nowMs) - 1) ==> IsTokenExpired(decode, token, nowMs)
  {
  }

  datatype User = User(id: int, name: string, username: string, email: string, postsCount: int,
                       followersCount: int, followingCount: int, avatar: string)

  datatype Sender = Sender(username: string)
  datatype Notification = Notification(id: int, recipient: string, sender: Sender, message: string,
                                       createdAt: string, isRead: bool, post: Option<int>)

  /**
   * The part of the store's world the credential actions change: the in-memory pair, the
   * user, the polling handle, the timers the scheduler is running for it, the next timer id
   * `setInterval` hands out, and the storage slots.
   */
  datatype Snapshot = Snapshot(accessToken: string, refreshToken: string, user: Option<User>,
                               interval: Option<nat>, running: set<nat>, nextTimer: nat,
                               items: map<string, string>)

  /** The scheduler runs exactly the timer the handle names, and ids handed out are positive (truthy). */
  ghost predicate TimersConsistent(s: Snapshot)
  {
    && s.nextTimer >= 1
    && s.running == (if s.interval.Some? then {s.interval.value} else {})
    && (s.interval.Some? ==> 1 <= s.interval.value < s.nextTimer)
  }

  /** `setTokens(access, refresh)`. */
  function WithTokens(s: Snapshot, access: string, refresh: string): (r: Snapshot)
    ensures r.accessToken == access && r.refreshToken == refresh
    ensures Lookup(r.items, AccessSlot) == Some(access) && Lookup(r.items, RefreshSlot) == Some(refresh)
    ensures forall k :: k != AccessSlot && k != RefreshSlot ==> Lookup(r.items, k) == Lookup(s.items, k)
    ensures r.user == s.user && r.interval == s.interval && r.running == s.running && r.nextTimer == s.nextTimer
  {
    s.(accessToken := access, refreshToken := refresh,
       items := s.items[AccessSlot := access][RefreshSlot := refresh])
  }

  /** `clearTokens()`. */
  function TokensCleared(s: Snapshot): (r: Snapshot)
    ensures r.accessToken == "" && r.refreshToken == "" && r.user == None
    ensures r.items.Keys == s.items.Keys - {AccessSlot, RefreshSlot}
    ensures forall k :: k in r.items ==> r.items[k] == s.items[k]
    ensures r.interval == s.interval && r.running == s.running && r.nextTimer == s.nextTimer
  {
    s.(accessToken := "", refreshToken := "", user := None, items := s.items - {AccessSlot, RefreshSlot})
  }

  /** `startNotificationPolling()`: a no-op when a handle exists, otherwise one new timer. */
  function PollingStarted(s: Snapshot): (r: Snapshot)
    ensures r.interval.Some?
    ensures s.interval.Some? ==> r == s
    ensures s.interval.None? ==> r.running == s.running + {s.nextTimer} && r.interval == Some(s.nextTimer)
    ensures r.accessToken == s.accessToken && r.refreshToken == s.refreshToken
    ensures r.user == s.user && r.items == s.items
  {
    if s.interval.Some? then s
    else s.(interval := Some(s.nextTimer), running := s.running + {s.nextTimer}, nextTimer := s.nextTimer + 1)
  }

  /** `stopNotificationPolling()`: clears the running timer and the handle; a no-op without a handle. */
  function PollingStopped(s: Snapshot): (r: Snapshot)
    ensures r.interval.None?
    ensures s.interval.None? ==> r == s
    ensures s.interval.Some? ==> r.running == s.running - {s.interval.value}
    ensures r.accessToken == s.accessToken && r.refreshToken == s.refreshToken
    ensures r.user == s.user && r.items == s.items
  {
    if s.interval.Some? then s.(interval := None, running := s.running - {s.interval.value}) else s
  }

  /** `logout()`: `clearTokens()` then `stopNotificationPolling()`. */
  function LoggedOut(s: Snapshot): (r: Snapshot)
    ensures r.accessToken == "" && r.refreshToken == "" && r.user == None && r.interval == None
    ensures AccessSlot !in r.items && RefreshSlot !in r.items
    ensures TimersConsistent(s) ==> TimersConsistent(r) && r.running == {}
  {
    PollingStopped(TokensCleared(s))
  }

  /** The successful branch of `refreshAccessToken()`: only the access token, in memory and in `'access'`. */
  function WithAccess(s: Snapshot, access: string): (r: Snapshot)
    ensures r.accessToken == access && Lookup(r.items, AccessSlot) == Some(access)
    ensures r.refreshToken == s.refreshToken && Lookup(r.items, RefreshSlot) == Lookup(s.items, RefreshSlot)
    ensures r.user == s.user && r.interval == s.interval && r.running == s.running
  {
    s.(accessToken := access, items := s.items[AccessSlot := access])
  }

  /** `refreshAccessToken()` given the endpoint's answer: the new access token, or a logout. */
  function AfterRefresh(s: Snapshot, answer: Response<string>): (r: Snapshot)
    ensures answer.Ok? ==> r.accessToken == answer.data && Lookup(r.items, AccessSlot) == Some(answer.data)
    ensures answer.Ok? ==> r.refreshToken == s.refreshToken && r.user == s.user && r.interval == s.interval
    ensures !answer.Ok? ==> r.accessToken == "" && r.refreshToken == "" && r.user == None && r.interval == None
    ensures !answer.Ok? ==> AccessSlot !in r.items && RefreshSlot !in r.items
  {
    if answer.Ok? then WithAccess(s, answer.data) else LoggedOut(s)
  }

  /** `fetchUserData()`: the user becomes the profile body on an ok answer; errors are swallowed. */
  function WithProfile(s: Snapshot, answer: Response<User>): (r: Snapshot)
    ensures answer.Ok? ==> r.user == Some(answer.data)
    ensures !answer.Ok? ==> r == s
    ensures r.accessToken == s.accessToken && r.refreshToken == s.refreshToken && r.items == s.items
    ensures r.interval == s.interval && r.running == s.running && r.nextTimer == s.nextTimer
  {
    if answer.Ok? then s.(user := Some(answer.data)) else s
  }

  /** The first two lines of `initializeAuth()`: both tokens re-read from storage, missing ones as ''. */
  function Restored(s: Snapshot): (r: Snapshot)
    ensures r.accessToken == (if AccessSlot in s.items then s.items[AccessSlot] else "")
    ensures r.refreshToken == (if RefreshSlot in s.items then s.items[RefreshSlot] else "")
    ensures r.items == s.items && r.user == s.user
    ensures r.interval == s.interval && r.running == s.running && r.nextTimer == s.nextTimer
  {
    s.(accessToken := ItemOrEmpty(s.items, AccessSlot), refreshToken := ItemOrEmpty(s.items, RefreshSlot))
  }

  /** Whether `initializeAuth()` calls `refreshAccessToken()` on the restored state. */
  predicate NeedsRefresh(decode: string -> Claims, restored: Snapshot, nowMs: int)
  {
    restored.accessToken != "" && IsTokenExpired(decode, restored.accessToken, nowMs)
  }

  /**
   * The state `initializeAuth()` reaches: restore, refresh when the restored access token is
   * present and expired (clock reading `nowMs`), then fetch the profile and start polling when
   * the access token is not expired (clock reading `laterMs`, taken after the refresh).
   */
  function Initialized(s: Snapshot, decode: string -> Claims, nowMs: int,
                       refreshEndpoint: string -> Response<string>, laterMs: int,
                       profile: string -> Response<User>): (r: Snapshot)
    ensures r.refreshToken == Restored(s).refreshToken || r == LoggedOut(Restored(s))
    ensures r.interval.Some? ==> s.interval.Some? || !IsTokenExpired(decode, r.accessToken, laterMs)
    ensures !NeedsRefresh(decode, Restored(s), nowMs) ==> r.accessToken == Restored(s).accessToken
  {
    var restored := Restored(s);
    var refreshed := if NeedsRefresh(decode, restored, nowMs)
                     then AfterRefresh(restored, refreshEndpoint(restored.refreshToken))
                     else restored;
    if !IsTokenExpired(decode, refreshed.accessToken, laterMs)
    then PollingStarted(WithProfile(refreshed, profile(refreshed.accessToken)))
    else refreshed
  }

  /**
   * A notification field after `fetchUnreadNotifications()`, `fetchNotifications()` or
   * `readNotification()`: replaced by the answer only when authenticated and the call succeeds.
   */
  function Refetched<T>(current: T, authenticated: bool, answer: Response<T>): (r: T)
    ensures !authenticated ==> r == current
    ensures authenticated && answer.Ok? ==> r == answer.data
    ensures !answer.Ok? ==> r == current
  {
    if authenticated && answer.Ok? then answer.data else current
  }

  datatype LoginError = InvalidCredentials | TransportFailure
  datatype LoginResult = LoggedIn | LoginFailed(error: LoginError)

  // Properties of the specification functions

  /** Logging out twice ends where logging out once does. */
  lemma LogoutIdempotent(s: Snapshot)
    ensures LoggedOut(LoggedOut(s)) == LoggedOut(s)
  {
  }

  /** Starting polling twice creates no second timer; stopping twice is stopping once. */
  lemma PollingIdempotent(s: Snapshot)
    ensures PollingStarted(PollingStarted(s)) == PollingStarted(s)
    ensures PollingStopped(PollingStopped(s)) == PollingStopped(s)
  {
  }

  /** Starting and stopping keep the scheduler running at most the one timer the handle names. */
  lemma PollingKeepsOneTimer(s: Snapshot)
    requires TimersConsistent(s)
    ensures TimersConsistent(PollingStarted(s)) && |PollingStarted(s).running| == 1
    ensures TimersConsistent(PollingStopped(s)) && PollingStopped(s).running == {}
  {
  }

  /** A successful refresh changes the access token only; a failed one ends logged out. */
  lemma RefreshOutcomes(s: Snapshot, answer: Response<string>)
    ensures answer.Ok? ==> AfterRefresh(s, answer).accessToken == answer.data
    ensures answer.Ok? ==> AfterRefresh(s, answer).refreshToken == s.refreshToken
    ensures answer.Ok? ==> Lookup(AfterRefresh(s, answer).items, RefreshSlot) == Lookup(s.items, RefreshSlot)
    ensures !answer.Ok? ==> AfterRefresh(s, answer) == LoggedOut(s)
  {
  }

  /**
   * `initializeAuth()` asks the refresh endpoint only when the restored access token is present
   * and expired: otherwise no answer of the endpoint changes the outcome.
   */
  lemma InitializeRefreshesOnlyWhenExpired(s: Snapshot, decode: string -> Claims, nowMs: int,
                                          e1: string -> Response<string>, e2: string -> Response<string>,
                                          laterMs: int, profile: string -> Response<User>)
    requires !NeedsRefresh(decode, Restored(s), nowMs)
    ensures Initialized(s, decode, nowMs, e1, laterMs, profile) == Initialized(s, decode, nowMs, e2, laterMs, profile)
  {
  }

  /**
   * Starting with no handle, polling runs after `initializeAuth()` exactly when the access token
   * left by the refresh step is not expired; an empty restored token starts nothing.
   */
  lemma InitializePollsOnlyWhenValid(s: Snapshot, decode: string -> Claims, nowMs: int,
                                     refreshEndpoint: string -> Response<string>, laterMs: int,
                                     profile: string -> Response<User>)
    requires s.interval.None?
    ensures var restored := Restored(s);
            var refreshed := if NeedsRefresh(decode, restored, nowMs)
                             then AfterRefresh(restored, refreshEndpoint(restored.refreshToken))
                             else restored;
            (Initialized(s, decode, nowMs, refreshEndpoint, laterMs, profile).interval.Some? <==>
             !IsTokenExpired(decode, refreshed.accessToken, laterMs))
    ensures ItemOrEmpty(s.items, AccessSlot) == "" ==>
              Initialized(s, decode, nowMs, refreshEndpoint, laterMs, profile) == Restored(s)
  {
  }

  /** A failed refresh at start-up ends logged out, with no polling. */
  lemma InitializeFailedRefresh(s: Snapshot, decode: string -> Claims, nowMs: int,
                                refreshEndpoint: string -> Response<string>, laterMs: int,
                                profile: string -> Response<User>)
    requires NeedsRefresh(decode, Restored(s), nowMs)
    requires !refreshEndpoint(Restored(s).refreshToken).Ok?
    ensures Initialized(s, decode, nowMs, refreshEndpoint, laterMs, profile) == LoggedOut(Restored(s))
  {
  }

  class AuthStore {
    var accessToken: string
    var refreshToken: string
    var user: Option<User>
    var unreadNotifications: int
    var notifications: seq<Notification>
    /** The module-level `notificationInterval` handle. */
    var notificationInterval: Option<nat>
    /** The timers the scheduler runs for this store, and the next id `setInterval` returns. */
    var runningTimers: set<nat>
    var nextTimerId: nat
    const storage: LocalStorage
    /** The `atob`/`JSON.parse` decoding of a token's payload. */
    const decode: string -> Claims

    function View(): Snapshot
      reads this, storage
    {
      Snapshot(accessToken, refreshToken, user, notificationInterval, runningTimers, nextTimerId, storage.items)
    }

    ghost predicate Valid()
      reads this, storage
    {
      TimersConsistent(View())
    }

    /** The store's `state()`: both tokens read from storage, missing ones as ''; no user, no polling. */
    constructor (storage: LocalStorage, decode: string -> Claims)
      ensures Valid()
      ensures this.storage == storage && this.decode == decode && storage.items == old(storage.items)
      ensures accessToken == ItemOrEmpty(storage.items, AccessSlot)
      ensures refreshToken == ItemOrEmpty(storage.items, RefreshSlot)
      ensures user == None && unreadNotifications == 0 && notifications == []
      ensures notificationInterval == None && runningTimers == {}
    {
      this.storage := storage;
      this.decode := decode;
      accessToken := ItemOrEmpty(storage.items, AccessSlot);
      refreshToken := ItemOrEmpty(storage.items, RefreshSlot);
      user := None;
      unreadNotifications := 0;
      notifications := [];
      notificationInterval := None;
      runningTimers := {};
      nextTimerId := 1;
    }

    /** The `isAuthenticated` getter. */
    function IsAuthenticated(nowMs: int): (authenticated: bool)
      reads this
      ensures authenticated <==> !IsTokenExpired(decode, accessToken, nowMs)
      ensures authenticated ==> accessToken != ""
    {
      accessToken != "" && !IsTokenExpired(decode, accessToken, nowMs)
    }

    method SetTokens(access: string, refresh: string)
      requires Valid()
      modifies this, storage
      ensures Valid()
      ensures View() == WithTokens(old(View()), access, refresh)
      ensures unreadNotifications == old(unreadNotifications) && notifications == old(notifications)
    {
      accessToken := access;
      refreshToken := refresh;
      storage.SetItem(AccessSlot, access);
      storage.SetItem(RefreshSlot, refresh);
    }

    method ClearTokens()
      requires Valid()
      modifies this, storage
      ensures Valid()
      ensures View() == TokensCleared(old(View()))
      ensures unreadNotifications == old(unreadNotifications) && notifications == old(notifications)
    {
      accessToken := "";
      refreshToken := "";
      storage.RemoveItem(AccessSlot);
      storage.RemoveItem(RefreshSlot);
      user := None;
    }

    /** `fetchUnreadNotifications()`; the GET carries `Bearer accessToken`, and `answer` is the server's reply to it. */
    method FetchUnreadNotifications(nowMs: int, answer: string -> Response<int>)
      modifies this
      ensures View() == old(View()) && notifications == old(notifications)
      ensures unreadNotifications == Refetched(old(unreadNotifications), old(IsAuthenticated(nowMs)), answer(accessToken))
    {
      if IsAuthenticated(nowMs) {
        var response := answer(accessToken);
        if response.Ok? {
          unreadNotifications := response.data;
        }
      }
    }

    /** `fetchNotifications()`. */
    method FetchNotifications(nowMs: int, answer: string -> Response<seq<Notification>>)
      modifies this
      ensures View() == old(View()) && unreadNotifications == old(unreadNotifications)
      ensures notifications == Refetched(old(notifications), old(IsAuthenticated(nowMs)), answer(accessToken))
    {
      if IsAuthenticated(nowMs) {
        var response := answer(accessToken);
        if response.Ok? {
          notifications := response.data;
        }
      }
    }

    /**
     * `readNotification(id)`. The source passes its header object as the POST body, so the
     * request carries no bearer header and the reply depends on the id alone. The POST goes
     * through the `api` instance, whose response interceptor logs the store out on a 401 to
     * any request that is not a GET before the action's `catch` swallows the error.
     */
    method ReadNotification(notificationId: int, nowMs: int, answer: int -> Response<seq<Notification>>)
      requires Valid()
      modifies this, storage
      ensures Valid()
      ensures View() == if old(IsAuthenticated(nowMs)) && answer(notificationId) == NotOk(401)
                        then LoggedOut(old(View())) else old(View())
      ensures unreadNotifications == old(unreadNotifications)
      ensures notifications == Refetched(old(notifications), old(IsAuthenticated(nowMs)), answer(notificationId))
    {
      if IsAuthenticated(nowMs) {
        var response := answer(notificationId);
        if response.Ok? {
          notifications := response.data;
        } else if response.NotOk? && response.status == 401 {
          Logout();
        }
      }
    }

    method StartNotificationPolling()
      requires Valid()
      modifies this
      ensures Valid()
      ensures View() == PollingStarted(old(View()))
      ensures unreadNotifications == old(unreadNotifications) && notifications == old(notifications)
    {
      if notificationInterval.Some? {
        return;
      }
      var handle := nextTimerId;
      nextTimerId := nextTimerId + 1;
      runningTimers := runningTimers + {handle};
      notificationInterval := Some(handle);
    }

    method StopNotificationPolling()
      requires Valid()
      modifies this
      ensures Valid()
      ensures View() == PollingStopped(old(View()))
      ensures unreadNotifications == old(unreadNotifications) && notifications == old(notifications)
    {
      if notificationInterval.Some? {
        runningTimers := runningTimers - {notificationInterval.value};
        notificationInterval := None;
      }
    }

    /** `fetchUserData()`; the GET carries `Bearer accessToken`. */
    method FetchUserData(profile: string -> Response<User>)
      requires Valid()
      modifies this
      ensures Valid()
      ensures View() == WithProfile(old(View()), profile(old(accessToken)))
      ensures unreadNotifications == old(unreadNotifications) && notifications == old(notifications)
    {
      var response := profile(accessToken);
      if response.Ok? {
        user := Some(response.data);
      }
    }

    method Logout()
      requires Valid()
      modifies this, storage
      ensures Valid()
      ensures View() == LoggedOut(old(View()))
      ensures unreadNotifications == old(unreadNotifications) && notifications == old(notifications)
    {
      ClearTokens();
      StopNotificationPolling();
    }

    /**
     * `login(username, password)`: on an ok answer store the pair, fetch the profile and the
     * unread count, and start polling; on a non-ok answer or a network error throw, changing nothing.
     */
    method Login(username: string, password: string, endpoint: (string, string) -> Response<TokenPair>,
                 profile: string -> Response<User>, unread: string -> Response<int>, nowMs: int)
      returns (result: LoginResult)
      requires Valid()
      modifies this, storage
      ensures Valid()
      ensures notifications == old(notifications)
      ensures match endpoint(username, password)
        case Ok(pair) =>
          && result == LoggedIn
          && View() == PollingStarted(WithProfile(WithTokens(old(View()), pair.access, pair.refresh), profile(pair.access)))
          && unreadNotifications == Refetched(old(unreadNotifications), !IsTokenExpired(decode, pair.access, nowMs), unread(pair.access))
        case NotOk(_) =>
          result == LoginFailed(InvalidCredentials) && View() == old(View()) && unreadNotifications == old(unreadNotifications)
        case NetworkError =>
          result == LoginFailed(TransportFailure) && View() == old(View()) && unreadNotifications == old(unreadNotifications)
    {
      var response := endpoint(username, password);
      match response
      case Ok(pair) =>
        SetTokens(pair.access, pair.refresh);
        FetchUserData(profile);
        FetchUnreadNotifications(nowMs, unread);
        StartNotificationPolling();
        result := LoggedIn;
      case NotOk(_) =>
        result := LoginFailed(InvalidCredentials);
      case NetworkError =>
        result := LoginFailed(TransportFailure);
    }

    /** `refreshAccessToken()`: the POST sends the in-memory refresh token. */
    method RefreshAccessToken(endpoint: string -> Response<string>)
      requires Valid()
      modifies this, storage
      ensures Valid()
      ensures View() == AfterRefresh(old(View()), endpoint(old(refreshToken)))
      ensures unreadNotifications == old(unreadNotifications) && notifications == old(notifications)
    {
      var response := endpoint(refreshToken);
      if response.Ok? {
        accessToken := response.data;
        storage.SetItem(AccessSlot, response.data);
      } else {
        Logout();
      }
    }

    /** `initializeAuth()`, with the clock read once before and once after the refresh step. */
    method InitializeAuth(nowMs: int, refreshEndpoint: string -> Response<string>, laterMs: int,
                          profile: string -> Response<User>)
      requires Valid()
      modifies this, storage
      ensures Valid()
      ensures View() == Initialized(old(View()), decode, nowMs, refreshEndpoint, laterMs, profile)
      ensures unreadNotifications == old(unreadNotifications) && notifications == old(notifications)
    {
      var access := storage.GetItem(AccessSlot);
      var refresh := storage.GetItem(RefreshSlot);
      accessToken := if Truthy(access) then access.value else "";
      refreshToken := if Truthy(refresh) then refresh.value else "";
      ghost var restored := View();
      if accessToken != "" && IsTokenExpired(decode, accessToken, nowMs) {
        RefreshAccessToken(refreshEndpoint);
      }
      if !IsTokenExpired(decode, accessToken, laterMs) {
        FetchUserData(profile);
        StartNotificationPolling();
      }
    }
  }
}
