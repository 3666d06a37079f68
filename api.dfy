/**
 * The `api` axios instance's response interceptor: successes pass through; an error is always
 * rejected again, after a forced logout when it is a 401 on a request whose method is not `'get'`.
 */
module Api {
  import opened Wrappers
  import opened Http
  import opened Auth

  /** An axios error: `error.response` (absent on a network failure) and `error.config` (possibly null). */
  datatype HttpError = HttpError(response: Option<HttpResponse>, config: RequestConfig?)

  /** How a request through the instance settles. */
  datatype Settled = Fulfilled(response: HttpResponse) | Failed(error: HttpError)

  /** `originalRequest?.method`: undefined both without a config and without a method. */
  function MethodOf(config: RequestConfig?): (verb: Option<string>)
    ensures config == null ==> verb.None?
    ensures config != null ==> verb == config.verb
  {
    if config == null then None else config.verb
  }

  /**
   * The guard `error.response && error.response.status === 401 && originalRequest?.method !== 'get'`:
   * only non-GET requests force a logout.
   */
  function ShouldLogout(error: HttpError): (logout: bool)
    ensures logout ==> error.response.Some? && error.response.value.status == 401
    ensures MethodOf(error.config) == Some("get") ==> !logout
    ensures error.response.Some? && error.response.value.status == 401 && MethodOf(error.config).None? ==> logout
  {
    error.response.Some? && error.response.value.status == 401 && MethodOf(error.config) != Some("get")
  }

  /** Logout happens exactly for a 401 response on a request whose method is not literally `'get'`. */
  lemma LogoutIff(error: HttpError)
    ensures ShouldLogout(error) <==>
              (error.response.Some? && error.response.value.status == 401 &&
               (error.config == null || error.config.verb != Some("get")))
  {
  }

  /** A GET that receives a 401 never logs out; neither does an error without a response. */
  lemma SparedErrors(error: HttpError)
    ensures error.config != null && error.config.verb == Some("get") ==> !ShouldLogout(error)
    ensures error.response.None? ==> !ShouldLogout(error)
  {
  }

  /** A 401 whose request has no config, or a config without a method, counts as non-GET. */
  lemma MissingMethodLogsOut(status: int, config: RequestConfig?)
    requires status == 401 && (config == null || config.verb.None?)
    ensures ShouldLogout(HttpError(Some(HttpResponse(status)), config))
  {
  }

  /**
   * The POST of `readNotification` (src/stores/auth.ts:119-121) goes through this instance, so a
   * 401 in answer to it logs out and any other status does not.
   */
  lemma PostLogsOutOnlyOn401(status: int, config: RequestConfig)
    requires config.verb == Some("post")
    ensures ShouldLogout(HttpError(Some(HttpResponse(status)), config)) <==> status == 401
  {
  }

  /**
   * Both handlers of the interceptor. The outcome is handed on unchanged; the store is logged
   * out exactly when the outcome is an error `ShouldLogout` accepts, and otherwise untouched.
   */
  method Intercept(store: AuthStore, settled: Settled) returns (out: Settled)
    requires store.Valid()
    modifies store, store.storage
    ensures store.Valid()
    ensures out == settled
    ensures store.View() == if settled.Failed? && ShouldLogout(settled.error)
                            then LoggedOut(old(store.View())) else old(store.View())
    ensures store.unreadNotifications == old(store.unreadNotifications)
    ensures store.notifications == old(store.notifications)
  {
    if settled.Failed? && ShouldLogout(settled.error) {
      store.Logout();
    }
    out := settled;
  }
}
