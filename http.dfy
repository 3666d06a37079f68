/** Requests, responses and the bearer header shared by the three interceptors. */
module Http {
  import opened Wrappers
  import opened Browser

  const Authorization := "Authorization"

  /** The header value `Bearer ${token}`. */
  function Bearer(token: string): string
  {
    "Bearer " + token
  }

  /**
   * The headers left by a request interceptor of the form
   * `if (token) config.headers.Authorization = Bearer(token)`, where `token` is what
   * `localStorage.getItem` returned.
   */
  function BearerAttached(headers: map<string, string>, token: Option<string>): (r: map<string, string>)
    ensures Truthy(token) ==> Authorization in r && r[Authorization] == Bearer(token.value)
    ensures !Truthy(token) ==> r == headers
    ensures r.Keys == headers.Keys + (if Truthy(token) then {Authorization} else {})
    ensures forall k :: k in headers && k != Authorization ==> r[k] == headers[k]
  {
    if Truthy(token) then headers[Authorization := Bearer(token.value)] else headers
  }

  /** The `{ access, refresh }` body of the token endpoints. */
  datatype TokenPair = TokenPair(access: string, refresh: string)

  /** How a `fetch` call ends: an ok response with its body, a non-ok status, or a rejected promise. */
  datatype Response<T> = Ok(data: T) | NotOk(status: int) | NetworkError

  /** The `response` part of an axios error. */
  datatype HttpResponse = HttpResponse(status: int)

  /**
   * An axios request config. The interceptors mutate `headers` and the ad-hoc `_retry`
   * flag in place; `verb` (`config.method`) and url are what a replay re-issues unchanged.
   */
  class RequestConfig {
    const verb: Option<string>  // `config.method`
    const url: string
    var headers: map<string, string>
    var retry: bool

    constructor (verb: Option<string>, url: string, headers: map<string, string>)
      ensures this.verb == verb && this.url == url && this.headers == headers
      ensures !retry
    {
      this.verb := verb;
      this.url := url;
      this.headers := headers;
      retry := false;
    }
  }
}
