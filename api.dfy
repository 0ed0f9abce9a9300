/** The shared HTTP client's two interceptors. The request interceptor
    attaches the stored access token as a bearer header; the response
    interceptor passes successes through and, for failures, tags payload-size
    errors, forgets the access token on 401 and rejects every time. */
module Api {
  import opened Wrappers
  import Text

  const BaseUrl := "https://adcc-b4f3.onrender.com"
  const TokenKey := "accessToken"
  const AuthorizationHeader := "Authorization"

  /** `localStorage.getItem(key)`, with `null` as `None`. */
  function Lookup(items: map<string, string>, key: string): (r: Option<string>)
    ensures r.Some? <==> key in items
    ensures r.Some? ==> r.value == items[key]
  {
    if key in items then Some(items[key]) else None
  }

  /** The browser's key-value store, as far as the client uses it. */
  class LocalStorage {
    var items: map<string, string>

    constructor (initial: map<string, string>)
      ensures items == initial
    {
      items := initial;
    }

    method GetItem(key: string) returns (r: Option<string>)
      ensures r == Lookup(items, key)
    {
      r := Lookup(items, key);
    }

    /** Removing an absent key changes nothing. */
    method RemoveItem(key: string)
      modifies this
      ensures items == old(items) - {key}
    {
      items := items - {key};
    }
  }

  /** A stored token counts only when it is a non-empty string (`if (token)`). */
  predicate HasToken(token: Option<string>) {
    token.Some? && token.value != ""
  }

  /** The headers after the request interceptor, given the stored token. */
  function WithAuthorization(headers: map<string, string>, token: Option<string>): (h: map<string, string>)
    ensures HasToken(token) ==> AuthorizationHeader in h && h[AuthorizationHeader] == "Bearer " + token.value
    ensures !HasToken(token) ==> h == headers
    ensures forall k :: k != AuthorizationHeader ==> (k in h <==> k in headers)
    ensures forall k :: k in headers && k != AuthorizationHeader ==> h[k] == headers[k]
  {
    if HasToken(token) then headers[AuthorizationHeader := "Bearer " + token.value] else headers
  }

  /** The outgoing request as the interceptors see it. */
  class RequestConfig {
    var url: string
    var headers: map<string, string>

    /** A request carrying the client's default JSON content type. */
    constructor (url: string)
      ensures this.url == url
      ensures headers == map["Content-Type" := "application/json"]
    {
      this.url := url;
      headers := map["Content-Type" := "application/json"];
    }
  }

  /** The request interceptor: reads the token, sets the header in place and
      hands the same config on. Storage is only read. */
  method OnRequest(config: RequestConfig, storage: LocalStorage) returns (r: RequestConfig)
    modifies config
    ensures r == config
    ensures config.url == old(config.url)
    ensures config.headers == WithAuthorization(old(config.headers), Lookup(storage.items, TokenKey))
  {
    var token := storage.GetItem(TokenKey);
    if HasToken(token) {
      config.headers := config.headers[AuthorizationHeader := "Bearer " + token.value];
    }
    r := config;
  }

  /** The response interceptor's success path hands the response on untouched. */
  method OnResponse<R>(response: R) returns (r: R)
    ensures r == response
  {
    r := response;
  }

  /** The server rejected the body as too large: status 413, or a message that
      names the condition. */
  predicate SignalsPayloadTooLarge(status: Option<int>, message: Option<string>) {
    status == Some(413) ||
    (message.Some? &&
      (Text.Contains(message.value, "PayloadTooLargeError") ||
       Text.Contains(message.value, "request entity too large")))
  }

  /** The payload-size test holds exactly for status 413 or a message in which
      one of the two phrases occurs at some position. */
  lemma {:induction false} SignalsPayloadTooLargeIff(status: Option<int>, message: string)
    ensures SignalsPayloadTooLarge(status, Some(message)) <==>
      status == Some(413) ||
      (exists i :: Text.OccursAt(message, "PayloadTooLargeError", i)) ||
      (exists i :: Text.OccursAt(message, "request entity too large", i))
  {
    Text.ContainsIff(message, "PayloadTooLargeError");
    Text.ContainsIff(message, "request entity too large");
  }

  /** With no status and no message the test does not fire. */
  lemma NoResponseNoTag()
    ensures !SignalsPayloadTooLarge(None, None)
  {
  }

  /** Storage after a failed response: a 401 forgets the access token. */
  function AfterErrorStorage(items: map<string, string>, status: Option<int>): (r: map<string, string>)
    ensures status == Some(401) ==> TokenKey !in r
    ensures status != Some(401) ==> r == items
    ensures forall k :: k != TokenKey ==> (k in r <==> k in items)
    ensures forall k :: k in r ==> k in items && r[k] == items[k]
  {
    if status == Some(401) then items - {TokenKey} else items
  }

  /** A failed request as the response interceptor sees it. */
  class ApiError {
    const status: Option<int>
    const message: Option<string>
    var isPayloadTooLarge: bool

    constructor (status: Option<int>, message: Option<string>)
      ensures this.status == status && this.message == message
      ensures !isPayloadTooLarge
    {
      this.status := status;
      this.message := message;
      isPayloadTooLarge := false;
    }
  }

  /** The response interceptor's failure path: tags the error, drops the token
      on 401, and rejects with the same error object; nothing is retried. */
  method OnResponseError(error: ApiError, storage: LocalStorage) returns (rejected: ApiError)
    modifies error, storage
    ensures rejected == error
    ensures error.isPayloadTooLarge == (old(error.isPayloadTooLarge) || SignalsPayloadTooLarge(error.status, error.message))
    ensures storage.items == AfterErrorStorage(old(storage.items), error.status)
  {
    if SignalsPayloadTooLarge(error.status, error.message) {
      error.isPayloadTooLarge := true;
    }
    if error.status == Some(401) {
      storage.RemoveItem(TokenKey);
    }
    rejected := error;
  }

  /** After a 401 the next request goes out without a bearer header, and any
      other stored key (a refresh token, say) is still there. */
  lemma UnauthorizedThenRequest(headers: map<string, string>, items: map<string, string>, other: string)
    requires other != TokenKey && other in items
    ensures WithAuthorization(headers, Lookup(AfterErrorStorage(items, Some(401)), TokenKey)) == headers
    ensures Lookup(AfterErrorStorage(items, Some(401)), other) == Some(items[other])
  {
  }

  /** A request made with a stored token, before any 401, carries exactly that
      token. */
  lemma StoredTokenIsSent(headers: map<string, string>, items: map<string, string>)
    requires TokenKey in items && items[TokenKey] != ""
    ensures WithAuthorization(headers, Lookup(items, TokenKey))[AuthorizationHeader] == "Bearer " + items[TokenKey]
  {
  }
}
