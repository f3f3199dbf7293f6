/**
 * The shared request helper of the tools: it obtains a token from the
 * cache, builds the headers and URL, dispatches on the method name and
 * turns the response into a JSON value or an error. The HTTP response is an
 * oracle value `ApiReply`.
 */
module Gateway {
  import opened Wrappers
  import opened Http
  import opened TokenCache

  /** The API as an oracle: a response with status, raw text and parsed JSON (`None`: not JSON), or a transport failure. */
  datatype ApiReply =
    | ApiResponse(status: int, text: string, json: Option<Json>)
    | ApiTransportFailure

  /** Why a call of the helper raised. */
  datatype GatewayError =
    | TokenFailure(cause: AuthError)       // raised by the token getter
    | UnsupportedMethod(name: string)      // the `ValueError` for a method other than GET or POST
    | ApiStatus(status: int, body: string) // `raise_for_status` on a non-2xx status
    | ApiUnreachable                       // the request itself failed
    | InvalidJson                          // `response.json()` failed

  const AuthorizationHeader: string := "Authorization"
  const AcceptHeader: string := "Accept"
  const ContentTypeHeader: string := "Content-Type"
  const JsonMediaType: string := "application/json"

  /** The JSON body handed to the client: the dictionary, when there is one. */
  function Body(jsonData: Option<map<string, Json>>): Option<Json> {
    if jsonData.Some? then Some(JObject(jsonData.value)) else None
  }

  /**
   * The request the helper sends for a method name, endpoint, query
   * parameters, JSON dictionary and token text, or the error it raises
   * instead.
   */
  function BuildRequest(baseUrl: string, httpMethod: string, endpoint: string,
                        params: Option<map<string, string>>, jsonData: Option<map<string, Json>>,
                        token: string): (r: Result<HttpRequest, GatewayError>)
    ensures r.Ok? <==> ParseVerb(httpMethod).Some?
    ensures r.Err? ==> r.error == UnsupportedMethod(httpMethod)
    ensures r.Ok? ==> r.value.verb == ParseVerb(httpMethod).value
    ensures r.Ok? ==> r.value.url == baseUrl + endpoint && r.value.params == params
    ensures r.Ok? ==>
              AuthorizationHeader in r.value.headers &&
              ParseBearer(r.value.headers[AuthorizationHeader]) == Some(token)
  {
    var headers := map[AuthorizationHeader := BearerCredential(token), AcceptHeader := JsonMediaType];
    var url := baseUrl + endpoint;
    match ParseVerb(httpMethod)
    case None => Err(UnsupportedMethod(httpMethod))
    case Some(Get) => BearerRoundTrip(token); Ok(HttpRequest(Get, url, headers, params, None))
    case Some(Post) =>
      BearerRoundTrip(token);
      Ok(HttpRequest(Post, url, headers[ContentTypeHeader := JsonMediaType], params, Body(jsonData)))
  }

  /** `raise_for_status()` followed by `response.json()`. */
  function Respond(reply: ApiReply): (r: Result<Json, GatewayError>)
    ensures r.Ok? <==> reply.ApiResponse? && IsSuccess(reply.status) && reply.json.Some?
    ensures r.Ok? ==> r.value == reply.json.value
    ensures reply.ApiResponse? && !IsSuccess(reply.status) ==> r == Err(ApiStatus(reply.status, reply.text))
  {
    match reply
    case ApiTransportFailure => Err(ApiUnreachable)
    case ApiResponse(status, text, json) =>
      if !IsSuccess(status) then Err(ApiStatus(status, text))
      else if json.None? then Err(InvalidJson)
      else Ok(json.value)
  }

  /** What a call of the helper returned or raised, and the request it sent, if any. */
  datatype ApiOutcome = ApiOutcome(result: Result<Json, GatewayError>, sent: Option<HttpRequest>)

  /**
   * The helper once the token getter has answered with `token`: a failed
   * token request or an unsupported method sends nothing. The credential
   * interpolates the returned value, so a `None` token is sent as "None".
   */
  function Issue(baseUrl: string, token: Result<Option<string>, AuthError>, httpMethod: string, endpoint: string,
                 params: Option<map<string, string>>, jsonData: Option<map<string, Json>>,
                 reply: ApiReply): (out: ApiOutcome)
    ensures out.sent.Some? <==> token.Ok? && ParseVerb(httpMethod).Some?
    ensures out.result.Ok? ==> out.sent.Some?
    ensures token.Err? ==> out.result == Err(TokenFailure(token.error))
    ensures out.sent.Some? ==> out.sent.value.url == baseUrl + endpoint && out.result == Respond(reply)
    ensures out.sent.Some? ==>
              AuthorizationHeader in out.sent.value.headers &&
              ParseBearer(out.sent.value.headers[AuthorizationHeader]) == Some(Interpolated(token.value))
  {
    if token.Err? then ApiOutcome(Err(TokenFailure(token.error)), None)
    else
      match BuildRequest(baseUrl, httpMethod, endpoint, params, jsonData, Interpolated(token.value))
      case Err(e) => ApiOutcome(Err(e), None)
      case Ok(request) => ApiOutcome(Respond(reply), Some(request))
  }

  /**
   * `make_api_request`: the token is obtained first, then the headers are
   * built and, on the POST branch only, extended with `Content-Type`.
   * Because the token comes first, even a call with an unsupported method
   * may refresh the cache.
   */
  method MakeApiRequest(store: TokenStore, httpMethod: string, endpoint: string,
                        params: Option<map<string, string>>, jsonData: Option<map<string, Json>>,
                        now: int, now2: int, tokenReply: TokenReply, apiReply: ApiReply)
    returns (r: Result<Json, GatewayError>, sent: Option<HttpRequest>)
    modifies store
    ensures var o := Obtain(old(store.State()), now, now2, tokenReply);
      store.State() == o.cache &&
      store.tokenRequests == old(store.tokenRequests) + (if o.requested then [ExchangeRequest(store.settings)] else []) &&
      ApiOutcome(r, sent) == Issue(store.settings.Url(), o.result, httpMethod, endpoint, params, jsonData, apiReply)
  {
    var token := store.GetAccessToken(now, now2, tokenReply);
    if token.Err? {
      return Err(TokenFailure(token.error)), None;
    }
    var headers := map[AuthorizationHeader := BearerCredential(Interpolated(token.value)), AcceptHeader := JsonMediaType];
    var url := store.settings.Url() + endpoint;
    var verb := Upper(httpMethod);
    var request;
    if verb == "GET" {
      request := HttpRequest(Get, url, headers, params, None);
    } else if verb == "POST" {
      headers := headers[ContentTypeHeader := JsonMediaType];
      request := HttpRequest(Post, url, headers, params, Body(jsonData));
    } else {
      return Err(UnsupportedMethod(httpMethod)), None;
    }
    sent := Some(request);
    r := Respond(apiReply);
  }

  /**
   * The headers are exactly the bearer credential and `Accept`, plus
   * `Content-Type: application/json` on POST only; a GET carries no body.
   */
  lemma HeadersExact(baseUrl: string, httpMethod: string, endpoint: string,
                     params: Option<map<string, string>>, jsonData: Option<map<string, Json>>, token: string)
    requires ParseVerb(httpMethod).Some?
    ensures var req := BuildRequest(baseUrl, httpMethod, endpoint, params, jsonData, token).value;
      req.headers[AuthorizationHeader] == "Bearer " + token &&
      req.headers[AcceptHeader] == "application/json" &&
      (req.verb == Get ==>
        req.headers.Keys == {"Authorization", "Accept"} && req.json == None) &&
      (req.verb == Post ==>
        req.headers.Keys == {"Authorization", "Accept", "Content-Type"} &&
        req.headers["Content-Type"] == "application/json" && req.json == Body(jsonData))
  {
  }

  /** Lower-case "get" is sent as a GET; "PUT" raises and sends nothing, whatever the token. */
  lemma MethodDispatchExamples(baseUrl: string, endpoint: string, token: Option<string>, reply: ApiReply)
    ensures Issue(baseUrl, Ok(token), "get", endpoint, None, None, reply).sent.value.verb == Get
    ensures Issue(baseUrl, Ok(token), "Post", endpoint, None, None, reply).sent.value.verb == Post
    ensures Issue(baseUrl, Ok(token), "PUT", endpoint, None, None, reply) ==
      ApiOutcome(Err(UnsupportedMethod("PUT")), None)
  {
    ParseVerbGet("get");
    ParseVerbPost("Post");
    ParseVerbGet("PUT");
    ParseVerbPost("PUT");
  }

  /**
   * A non-2xx response fails the call with its status and body (a 404 on a
   * balance request, say), after the request was sent.
   */
  lemma ErrorStatusPropagates(baseUrl: string, token: Option<string>, httpMethod: string, endpoint: string,
                              status: int, text: string, json: Option<Json>)
    requires ParseVerb(httpMethod).Some? && !IsSuccess(status)
    ensures var out := Issue(baseUrl, Ok(token), httpMethod, endpoint, None, None, ApiResponse(status, text, json));
      out.result == Err(ApiStatus(status, text)) && out.sent.Some?
  {
  }

  /**
   * A token getter that returned `None` (after a JSON `null` token) does not
   * stop the call: the request goes out with the credential "Bearer None".
   */
  lemma NullTokenSentAsNone(baseUrl: string, endpoint: string, reply: ApiReply)
    ensures var out := Issue(baseUrl, Ok(None), "GET", endpoint, None, None, reply);
      out.sent.Some? && out.sent.value.headers[AuthorizationHeader] == "Bearer None"
  {
    ParseVerbGet("GET");
  }
}
