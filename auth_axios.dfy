/** The authenticated HTTP client of `app/auth/useAxios.js`: an instance with a fixed
    base URL whose request interceptor attaches `Authorization: Bearer <token>`,
    using the token the session store held when the instance was made. */
module AuthAxios {
  import opened JsCore
  import AuthStore

  const BaseUrl := "http://10.0.2.2:8080"
  const AuthorizationHeader := "Authorization"
  const BearerPrefix := "Bearer "

  /** The header value for a token. */
  function BearerValue(token: string): (h: string)
    ensures |h| == |BearerPrefix| + |token|
    ensures h[..|BearerPrefix|] == BearerPrefix && h[|BearerPrefix|..] == token
  {
    BearerPrefix + token
  }

  /** Reads the token back out of an `Authorization` header value. */
  function TokenOfBearer(h: string): Option<string> {
    if |h| >= |BearerPrefix| && h[..|BearerPrefix|] == BearerPrefix then Some(h[|BearerPrefix|..]) else None
  }

  /** The header value carries the token unchanged: reading it back gives the token. */
  lemma BearerRoundTrip(token: string)
    ensures TokenOfBearer(BearerValue(token)) == Some(token)
  {
  }

  /** Distinct tokens give distinct headers. */
  lemma BearerInjective(t1: string, t2: string)
    requires BearerValue(t1) == BearerValue(t2)
    ensures t1 == t2
  {
    BearerRoundTrip(t1);
    BearerRoundTrip(t2);
  }

  /** The headers the interceptor leaves: `Authorization` set to the bearer value when the
      token is truthy; every other header, and everything when it is not, as given. */
  function AttachBearer(headers: map<string, string>, token: Option<string>): (r: map<string, string>)
    ensures Present(token) ==> AuthorizationHeader in r && TokenOfBearer(r[AuthorizationHeader]) == token
    ensures !Present(token) ==> r == headers
    ensures forall k :: k != AuthorizationHeader ==> (k in r <==> k in headers) && (k in r ==> r[k] == headers[k])
  {
    if Present(token) then
      BearerRoundTrip(token.value);
      headers[AuthorizationHeader := BearerValue(token.value)]
    else headers
  }

  /** A request as the interceptor sees it; only its headers are ever changed. */
  class RequestConfig {
    var url: string
    var verb: string
    var headers: map<string, string>
    var data: Record

    constructor (url: string, verb: string, headers: map<string, string>, data: Record)
      ensures this.url == url && this.verb == verb && this.headers == headers && this.data == data
    {
      this.url, this.verb, this.headers, this.data := url, verb, headers, data;
    }
  }

  /** A rejected promise carrying its reason. */
  datatype Rejection<+E> = Rejected(reason: E)

  /** An instance made by `useAxios()`: the base URL and the token snapshot taken then. */
  class ApiClient {
    const baseUrl: string
    const token: Option<string>

    constructor (token: Option<string>)
      ensures baseUrl == BaseUrl && this.token == token
    {
      baseUrl, this.token := BaseUrl, token;
    }

    /** The request interceptor: changes the given config's headers in place and returns the same config. */
    method InterceptRequest(config: RequestConfig) returns (r: RequestConfig)
      modifies config`headers
      ensures r == config
      ensures config.headers == AttachBearer(old(config.headers), token)
    {
      if Present(token) {
        config.headers := config.headers[AuthorizationHeader := BearerValue(token.value)];
      }
      r := config;
    }

    /** The interceptor's error handler: the request error is rejected as it is. */
    function InterceptError<E>(error: E): (r: Rejection<E>)
      ensures r.reason == error
    {
      Rejected(error)
    }
  }

  /** `useAxios()`: a new instance over the fixed base URL with the store's current token. */
  method UseAxios(store: AuthStore.Store) returns (client: ApiClient)
    ensures fresh(client) && client.baseUrl == BaseUrl && client.token == store.token
  {
    client := new ApiClient(store.token);
  }

  /** The token is a snapshot: an instance made while logged in keeps sending the old
      bearer header after a logout of the store it was made from. */
  method SnapshotSurvivesLogout(store: AuthStore.Store, config: RequestConfig) returns (client: ApiClient)
    requires store.Valid() && store.isAuthenticated
    modifies store.disk, store, config
    ensures !store.isAuthenticated && store.token == None
    ensures AuthorizationHeader in config.headers
    ensures TokenOfBearer(config.headers[AuthorizationHeader]) == old(store.token)
  {
    client := UseAxios(store);
    store.Logout();
    var sent := client.InterceptRequest(config);
  }
}
