/** The shared axios instance whose request interceptor attaches the token kept under `'accessToken'`. */
module AxiosInstance {
  import opened Wrappers
  import opened Browser
  import opened Http

  const TokenSlot := "accessToken"

  /**
   * The request interceptor: reads `'accessToken'` and, when it is truthy, overwrites
   * `headers.Authorization` with its bearer form; the same config object is returned and
   * nothing else in it changes.
   */
  method InterceptRequest(storage: LocalStorage, config: RequestConfig) returns (out: RequestConfig)
    modifies config
    ensures out == config
    ensures config.headers == BearerAttached(old(config.headers), storage.GetItem(TokenSlot))
    ensures config.retry == old(config.retry)
  {
    var token := storage.GetItem(TokenSlot);
    if Truthy(token) {
      config.headers := config.headers[Authorization := Bearer(token.value)];
    }
    out := config;
  }

  /** With a non-empty stored token, any previous `Authorization` value is replaced. */
  lemma StoredTokenOverwrites(items: map<string, string>, headers: map<string, string>)
    requires TokenSlot in items && items[TokenSlot] != ""
    ensures BearerAttached(headers, Lookup(items, TokenSlot))[Authorization] == Bearer(items[TokenSlot])
  {
  }

  /** Without a token, or with an empty one, the headers are left as they were. */
  lemma NoTokenKeepsHeaders(items: map<string, string>, headers: map<string, string>)
    requires TokenSlot !in items || items[TokenSlot] == ""
    ensures BearerAttached(headers, Lookup(items, TokenSlot)) == headers
  {
  }
}
