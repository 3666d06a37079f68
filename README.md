# Client-side credential handling, modelled in Dafny

This project models the credential handling of a Vue/Pinia web client that talks to a
token-based API. The client keeps a short-lived access token and a longer-lived refresh
token. It decides whether a JWT has expired and attaches `Authorization: Bearer <token>` to
outgoing requests. When a request is rejected with 401 it refreshes the access token once,
while other rejected requests wait, and then replays them. The `auth` store logs in, logs
out, restores the session at start-up and polls for unread notifications.

Modules: one per source file, three small shared ones, and one module of scenarios:

- `Wrappers`: `Option`, which stands for JavaScript's `null`/`undefined`.
- `Browser`: `localStorage` as a class holding a `map<string, string>`. It is shared by
  every module. `getItem` gives an `Option`, and `Truthy` is JavaScript truthiness of the result.
- `Http`: the request config as a class. It has a mutable `headers` map and a mutable `_retry`
  flag (`retry`). The module also defines `Bearer` and `BearerAttached`, the header rule
  shared by both request interceptors.
- `Auth` (`src/stores/auth.ts`): `IsTokenExpired`; the store as the class `AuthStore`;
  and the value `Snapshot`, the state the credential actions change. Each action's
  `ensures` ties `View()` after the call to a specification function of `View()` before it
  (`WithTokens`, `TokensCleared`, `PollingStarted`, `PollingStopped`, `LoggedOut`,
  `AfterRefresh`, `WithProfile`, `Initialized`). Lemmas relate those functions to each other.
- `AuthService` (`src/services/AuthService.ts`): the module-level `isRefreshing` flag and the
  `subscribers` queue, as the class `RefreshGate`. The async error handler is cut at its one
  `await` into three sequential events:
  - `HandleResponseError`: a 401 arrives;
  - `CompleteRefresh`: the refresh POST inside `getAccessToken()` is answered;
  - `ResumeHandler`: the claiming handler continues, through `finally`.

  There is no suspension point between the test of `isRefreshing` and setting it, so each
  event runs atomically.
  Every operation of the gate keeps `QueuedAreMarked`: each waiting request, and the one
  whose handler refreshes, carries `_retry`. `SubscribeTokenRefresh` keeps it only for a
  request that is already marked, as its only caller ensures.
  The pure function `Dispatch` gives the handler's decisions for a run of failed requests
  while no refresh settles. `SingleFlight` proves that at most one of them starts a refresh.
- `RefreshScenarios` (scenarios, not a source file): whole interleavings run on fresh objects. For example, N requests
  get a 401 while one refresh is in flight.
- `Api` (`src/services/api.ts`): the logout rule for 401 errors, and the interceptor that
  applies it to the store.
- `AxiosInstance` (`src/axios.ts`): the request interceptor that reads `'accessToken'`.
- `App` (`src/stores/app.ts`): the public-route predicate.

Inputs from outside the program are parameters:
- the clock is `Date.now()` in milliseconds;
- `atob`/`JSON.parse` of a token's payload is a function `decode: string -> Claims`;
- each network call is a function from what it sends to the answer it gets. For example,
  `endpoint(username, password)` for login and `answer(refreshToken)` for a refresh.

Storage is one map, and every module reads it under its own keys: `'access'`/`'refresh'`
for the store, `'access_token'`/`'refresh_token'` for the gate, `'accessToken'` for the
shared axios instance. The model keeps these keys apart, as the code does. So a token
that the gate refreshes is never seen by the store, and the reverse.

The model follows the code where it does less than one might expect: it does not fail its
waiters when a refresh fails, and it treats a payload without `exp` as valid. In detail:

- A payload that decodes but has no `exp` is **not** expired: `undefined < now` is false
  (`Auth.IsTokenExpired`).
- The refresh POST goes through the same axios instance as every other request, so a 401
  answer to it reaches the gate's own error handler. Because the gate is claimed, the handler
  marks the refresh request and **queues** it. `getAccessToken()` then never settles, and the
  `finally` that releases the gate never runs. The gate stays claimed for good, and every later
  401 on that instance queues behind it (`RefreshScenarios.RefreshAnswered401`).
- When the gate's refresh throws or yields null, the queued waiters are **not** called and
  stay queued. They are drained only by a later successful refresh. Waiters are only ever
  called with a token (`RefreshScenarios.SimultaneousUnauthorized`).
- If the refresh returns an empty access token, the waiters are still called, with
  `Bearer `, and the claiming request is rejected.
- `refreshAccessToken` in the store replaces the access token only, never the pair.
- Nothing guards a refresh that completes after a logout.
- Only **non-GET** requests that receive a 401 force a logout. A missing config or method
  counts as non-GET.

## Model

| member | source | states |
|---|---|---|
| `Auth.IsTokenExpired` | src/stores/auth.ts:34-42 | The empty token and an unreadable payload are expired. A payload without `exp` is not expired. Otherwise the token is expired iff the whole second after `exp` has begun, i.e. `(exp + 1) * 1000 <= now` in milliseconds. |
| `Auth.CurrentSecondBounds` | src/stores/auth.ts:38 | The current second is the floor of the clock in milliseconds divided by 1000. |
| `Auth.BeforeCurrentSecond` | src/stores/auth.ts:38-39 | `exp < floor(now / 1000)` holds iff `(exp + 1) * 1000 <= now`. |
| `Auth.ExpiryBoundary` | src/stores/auth.ts:39 | An `exp` equal to the current second is not expired; one second earlier is expired. |
| `Auth.AuthStore.IsAuthenticated` | src/stores/auth.ts:58-60 | Authenticated iff the access token is not expired; an empty token is never authenticated. |
| `Auth.AuthStore.constructor` | src/stores/auth.ts:49-55 | Both tokens come from `'access'`/`'refresh'`, with a missing slot read as ''. No user, no notifications, no polling handle. |
| `Auth.WithTokens` | src/stores/auth.ts:65-70 | Memory and the `'access'`/`'refresh'` slots hold the given pair. Every other slot, the user and the polling state are unchanged. |
| `Auth.AuthStore.SetTokens` | src/stores/auth.ts:65-70 | The new state is `WithTokens` of the old one; notification state is unchanged. |
| `Auth.TokensCleared` | src/stores/auth.ts:72-78 | Both tokens are '', both slots are removed and no other slot changes. The user is null and the polling state is unchanged. |
| `Auth.AuthStore.ClearTokens` | src/stores/auth.ts:72-78 | The new state is `TokensCleared` of the old one. |
| `Auth.Refetched` | src/stores/auth.ts:80-133 | The unread count and the notification list are replaced by the answer only when authenticated and the call succeeds; otherwise they are kept. |
| `Auth.AuthStore.FetchUnreadNotifications` | src/stores/auth.ts:80-95 | The count becomes the server's answer to the bearer token only when the store is authenticated and the answer is ok. The credential state is unchanged. |
| `Auth.AuthStore.FetchNotifications` | src/stores/auth.ts:99-114 | The list becomes the answer only when authenticated and ok; the credential state is unchanged. |
| `Auth.AuthStore.ReadNotification` | src/stores/auth.ts:118-133 | The same guard for the list. The answer depends on the notification id alone, because the header object is sent as the body. The POST goes through `api`, so a 401 answer to an authenticated call ends in `LoggedOut` of the old state (src/services/api.ts:16-20). Any other answer leaves the credential state unchanged. |
| `Auth.PollingStarted` | src/stores/auth.ts:137-143 | A handle always exists afterwards. With a handle already present nothing changes. Otherwise exactly one new timer joins the running ones. Tokens, user and storage are unchanged. |
| `Auth.AuthStore.StartNotificationPolling` | src/stores/auth.ts:137-143 | The new state is `PollingStarted` of the old one, and the timers stay consistent with the handle. |
| `Auth.PollingStopped` | src/stores/auth.ts:144-148 | No handle afterwards, and its timer is cleared. Without a handle nothing changes. |
| `Auth.AuthStore.StopNotificationPolling` | src/stores/auth.ts:144-148 | The new state is `PollingStopped` of the old one. |
| `Auth.PollingIdempotent` | src/stores/auth.ts:137-148 | Starting twice equals starting once, so there is no second timer. Stopping twice equals stopping once. |
| `Auth.PollingKeepsOneTimer` | src/stores/auth.ts:137-148 | When handle and timers agree, starting leaves exactly one running timer and stopping leaves none. |
| `Auth.LoggedOut` | src/stores/auth.ts:224-228 | Empty tokens, no user, no handle, no stored `'access'`/`'refresh'`, and no running timer. |
| `Auth.LogoutIdempotent` | src/stores/auth.ts:224-228 | Logging out twice yields the same state as once. |
| `Auth.AuthStore.Logout` | src/stores/auth.ts:224-228 | The new state is `LoggedOut` of the old one. |
| `Auth.WithProfile` | src/stores/auth.ts:212-220 | On an ok answer the user becomes its body. Otherwise nothing changes. Tokens, storage and polling are never touched. |
| `Auth.AuthStore.FetchUserData` | src/stores/auth.ts:203-220 | The user becomes the profile answer for the current access token when it is ok; errors change nothing. |
| `Auth.AuthStore.Login` | src/stores/auth.ts:152-172 | A non-ok answer fails with `InvalidCredentials` and a network error with `TransportFailure`; both leave the whole state unchanged. An ok answer stores the pair, applies the profile answer and the unread fetch, and leaves polling active. |
| `Auth.WithAccess` | src/stores/auth.ts:189-192 | Only the access token changes, in memory and in `'access'`. The refresh token and the `'refresh'` slot are kept. |
| `Auth.AfterRefresh` | src/stores/auth.ts:189-198 | On an ok answer the access token and its `'access'` slot become the answer. The refresh token, the user and the handle are kept. On any other answer both tokens are '', both slots are removed, and the user and handle are gone. |
| `Auth.AuthStore.RefreshAccessToken` | src/stores/auth.ts:179-199 | The new state is `AfterRefresh` of the endpoint's answer to the in-memory refresh token. |
| `Auth.RefreshOutcomes` | src/stores/auth.ts:179-199 | An ok refresh replaces the access token and leaves the refresh token and its slot unchanged. A non-ok answer or an exception ends in `LoggedOut`. |
| `Auth.Restored` | src/stores/auth.ts:231-235 | Each token is its slot's stored value, or '' when the slot is missing. Storage, user and polling are unchanged. |
| `Auth.Initialized` | src/stores/auth.ts:230-244 | Start-up keeps the restored refresh token unless it ends in `LoggedOut` of the restored state. Polling runs afterwards only if it ran before or the final access token is not expired. Without a refresh the access token is the restored one. |
| `Auth.AuthStore.InitializeAuth` | src/stores/auth.ts:230-244 | The new state is `Initialized`: restore, refresh if expired, then the profile fetch and polling if the token is still valid. |
| `Auth.InitializeRefreshesOnlyWhenExpired` | src/stores/auth.ts:237-239 | Unless the restored access token is non-empty and expired, no answer of the refresh endpoint affects the result, so no refresh is attempted. |
| `Auth.InitializePollsOnlyWhenValid` | src/stores/auth.ts:241-244 | Starting with no handle, polling is active afterwards iff the token left by the refresh step is not expired. An empty restored token changes nothing beyond the restore. |
| `Auth.InitializeFailedRefresh` | src/stores/auth.ts:237-239 | A failed start-up refresh ends in the logged-out state. |
| `AuthService.RefreshGate.constructor` | src/services/AuthService.ts:5-6 | Not refreshing, empty queue. |
| `AuthService.RefreshGate.InterceptRequest` | src/services/AuthService.ts:54-61 | The same config is returned. Its headers are `BearerAttached` to the `'access_token'` slot, and `_retry` is kept. |
| `AuthService.RefreshGate.SubscribeTokenRefresh` | src/services/AuthService.ts:13-15 | Exactly one waiter is appended at the end; the existing entries keep their order. |
| `AuthService.WithBearer` | src/services/AuthService.ts:85-97 | `Authorization` is `Bearer token`, whatever it was before. Every other header is kept, and no header is added besides `Authorization`. |
| `AuthService.RefreshGate.OnAccessTokenFetched` | src/services/AuthService.ts:8-11 | Every queued request is fired once, in queue order, each with `Authorization: Bearer token`. The queue is left empty. |
| `AuthService.AccessFor` | src/services/AuthService.ts:28-50 | From the value read from `'refresh_token'`: null iff it is not truthy. The call never settles iff the endpoint answers that token with 401. It throws iff the endpoint fails otherwise. A token result is the endpoint's new access token. |
| `AuthService.StoredAfter` | src/services/AuthService.ts:33-38 | Both slots are written on success only; otherwise storage is unchanged. |
| `AuthService.RefreshGate.GetAccessToken` | src/services/AuthService.ts:22-50 | The result is `AccessFor` of the value read, and the storage is `StoredAfter`. On success the waiters are drained with the new access token. On a 401 answer, a fresh marked POST to the refresh URL is appended to the queue and nothing settles. Otherwise the waiters and their headers are untouched. The gate stays claimed. |
| `AuthService.Decide` | src/services/AuthService.ts:74-103 | Rejected iff the status is not 401 or `_retry` is set. A refresh starts iff it is a 401 on an unmarked request with the gate free. A request queues only while the gate is claimed. |
| `AuthService.Dispatch` | src/services/AuthService.ts:74-100 | One decision per failed request that arrives while no refresh settles. |
| `AuthService.DispatchAt` | src/services/AuthService.ts:74-100 | Each arrival is decided by `Decide` against the gate as the earlier arrivals left it. That gate is claimed iff it was claimed before or an earlier arrival was an unmarked 401. |
| `AuthService.SingleFlight` | src/services/AuthService.ts:74-100 | Exactly the unmarked 401s escape rejection. One of them starts a refresh iff the gate was free and it is the first unmarked 401. So at most one refresh starts, and every later unmarked 401 queues. |
| `AuthService.DispatchSnoc` | src/services/AuthService.ts:74-100 | One more arrival extends the decisions by one `Decide` against the gate the earlier arrivals left. |
| `AuthService.ClaimedGateStartsNothing` | src/services/AuthService.ts:74-100 | While the gate is claimed, no failed request starts a refresh, and every unmarked 401 queues. |
| `AuthService.RefreshGate.HandleResponseError` | src/services/AuthService.ts:71-103 | The result is `Decide`. `_retry` is set before any refresh or enqueue. A queued request is appended. The first claims the gate, recording what `getAccessToken()` reads from `'refresh_token'` at once (line 29). Headers and storage are unchanged, and queued requests stay marked. |
| `AuthService.RefreshGate.CompleteRefresh` | src/services/AuthService.ts:81-82 | The refresh goes on as `GetAccessToken` does, from the value recorded at claim time. The result is recorded for the handler. If the call does not settle, the flight is `Stalled`, and no operation of the gate frees it. The gate stays claimed. |
| `AuthService.RefreshGate.ResumeHandler` | src/services/AuthService.ts:82-103 | Only once the refresh has settled. With a truthy token: the handler's header is set, late waiters are drained, then its own request is replayed. Otherwise: rejected, nothing drained. `isRefreshing` is false in every case. |
| `RefreshScenarios.PileUp` | src/services/AuthService.ts:74-87 | N fresh requests get a 401 before anything settles. Their decisions are `Dispatch` of N unmarked 401s on a free gate. The first holds the gate, the rest are queued in order, all are marked and no header changes. |
| `RefreshScenarios.SimultaneousUnauthorized` | src/services/AuthService.ts:74-100 | The gate's decisions are those of `Dispatch`: of N simultaneous 401s only the first starts a refresh. On success all N are replayed with the same new token, waiters in arrival order. With nothing stored or a non-401 failure, nobody is replayed, the waiters stay queued, the first request is rejected, the gate is freed and storage is untouched. A 401 answer queues the refresh POST after the waiters, settles nothing, and leaves the gate claimed. |
| `RefreshScenarios.RefreshAnswered401` | src/services/AuthService.ts:22-33 | After a 401 answer to the refresh POST, the flight is `Stalled`, and the POST, marked, heads the queue. Every later 401 queues and the gate stays claimed. |
| `RefreshScenarios.Unauthorized` | src/services/AuthService.ts:74 | N requests, each an unmarked 401, all of which enter the refresh path. |
| `RefreshScenarios.UnauthorizedDecisions` | src/services/AuthService.ts:74-87 | In a run of unmarked 401s, the first starts the refresh and each later one queues. |
| `RefreshScenarios.ReplayedRequestIsNotRetried` | src/services/AuthService.ts:74-76 | After a refresh, the one replayed request is the claiming request itself, carrying `Bearer` with the new token and still marked. A second 401 on it is rejected without a refresh, and the gate ends free. |
| `RefreshScenarios.LateWaiterIsDrainedOnResume` | src/services/AuthService.ts:84-87 | A 401 arriving between the drain in `getAccessToken` and the handler's resumption is replayed by the handler's own drain, before the claiming request. |
| `Api.MethodOf` | src/services/api.ts:16 | `originalRequest?.method` is absent without a config, and otherwise the config's method. |
| `Api.ShouldLogout` | src/services/api.ts:16 | Logout implies a response with status 401. A GET never logs out. A 401 with no config or method logs out. |
| `Api.LogoutIff` | src/services/api.ts:16 | Logout iff there is a response, its status is 401, and the method is not exactly `'get'`. |
| `Api.SparedErrors` | src/services/api.ts:16 | A GET with a 401 and an error without a response never log out. |
| `Api.MissingMethodLogsOut` | src/services/api.ts:16 | A 401 on a request with no config or no method logs out. |
| `Api.PostLogsOutOnlyOn401` | src/services/api.ts:16-20 | A response to a POST, such as `readNotification`'s, logs out iff its status is 401. |
| `Api.Intercept` | src/services/api.ts:10-25 | Every outcome is handed on unchanged. The store ends in `LoggedOut` exactly for errors `ShouldLogout` accepts, and is untouched otherwise. |
| `Http.BearerAttached` | src/axios.ts:9-10 | With a truthy token `Authorization` becomes `Bearer token`, overwriting any old value. Without one the headers are unchanged. No other header changes. |
| `AxiosInstance.InterceptRequest` | src/axios.ts:7-13 | The same config is returned. Its headers are `BearerAttached` to the `'accessToken'` slot, and nothing else changes. |
| `AxiosInstance.StoredTokenOverwrites` | src/axios.ts:9-10 | A non-empty stored token replaces any existing `Authorization`. |
| `AxiosInstance.NoTokenKeepsHeaders` | src/axios.ts:9 | An absent or empty stored token leaves the headers unchanged. |
| `App.IsPublicRoute` | src/stores/app.ts:11-13 | A route named `'NotFound'` is public. Any other public route has one of the four listed paths exactly. |
| `App.ListedPathsArePublic` | src/stores/app.ts:8-12 | `/login`, `/register`, `/welcome` and `/password` are public under any name. |
| `App.ExactPathsOnly` | src/stores/app.ts:12 | `/login/` and `/welcome/x` are not public unless the route is named `'NotFound'`. |
| `App.OnlyPathAndNameMatter` | src/stores/app.ts:11-13 | Routes with the same path and name agree. |

## Left out

- Network calls (`fetch`, `axios.post`, and the replay `axios(originalRequest)`) are not performed. Their answers are function parameters, and replays are the returned lists of requests.
- `atob`, `JSON.parse` and `token.split('.')` are the `decode` parameter, and `Date.now()` is a clock parameter in milliseconds. `IsTokenExpired`: a non-integer or non-numeric `exp` is not modelled; `exp` is an integer or absent.
- Navigation (`router.push`), `useRoute` and `console` logging are left out; they change no modelled state.
- `Auth.AuthStore.IsAuthenticated`: the `isAuthenticated` getter is a cached Pinia `computed` whose only reactive dependency is `accessToken`; `Date.now()` inside `isTokenExpired` is not tracked. The model reads the clock `nowMs` on every call. So `nowMs` stands for the clock at the getter's first read since `accessToken` last changed, and the guards of `FetchUnreadNotifications`, `FetchNotifications` and `ReadNotification` are right only under that reading. Once cached as true after the token expires, as on a polling tick, the source still sees `true`; the model does not capture this caching.
- `setInterval`/`clearInterval` are modelled only as a handle, a set of running timer ids and the next id. The periodic and the immediate `fetchUnreadNotifications()` calls made by polling are separate `FetchUnreadNotifications` events.
- The store's async actions (`login`, `refreshAccessToken`, `initializeAuth`) each run atomically, with their awaited answers as parameters. Interleavings between store actions are not modelled, for example a refresh that completes after a logout.
- `AuthService.RefreshGate.HandleResponseError`: takes the status of a present `error.response` and a present config. Line 74 dereferences both without a check.
- The response's `data` field being read again from what `refresh` already unwrapped (src/services/AuthService.ts:23, 34) is not modelled; the refresh answer is a token pair.
- The exported `login` and `refresh` wrappers of `AuthService` (src/services/AuthService.ts:18-25) are POSTs through the gated axios instance. `refresh` is modelled inside `GetAccessToken`, including a 401 answer that re-enters the handler. `login` appears only as an answer; a 401 to it passes through `HandleResponseError` like any other request.
- `AuthService.RefreshGate.CompleteRefresh`: a `RefreshFailed` answer that has no response at all makes the handler throw at line 74 (`error.response.status` of undefined). The model folds this into the same rejection as a non-401 status.
- The gate's identity success handler and its request-error handler (src/services/AuthService.ts:62-64, 68-70) pass values on unchanged and are not separate members.
- A replay passes the request interceptor again, which rewrites `Authorization` from `'access_token'`. This second pass is not modelled.
- `Api.ShouldLogout` takes `config.method` as given: axios's lower-casing of method names is outside this model.
- Route names that are symbols are not modelled; a name is a string or absent.
- The body shapes of the notification endpoints (`unreadNotifications`, `results`) are abstracted to a count and a list.
- src/services/PostService.ts is not part of this model; it builds a `Token <t>` header and sends one POST.
