/** The HTTP transport wrapper: request descriptors built by the verb
    helpers, the request stage that attaches a bearer credential, the
    response stage that passes successes through and normalises every
    failure into an ApiError, and the helpers' unwrapping of `res.data`.
    The networking library itself is a function parameter. */
module Client {
  import opened Common
  import opened Js

  datatype Verb = GET | POST | PUT | PATCH | DELETE

  type Headers = map<string, string>

  /** What a caller asks the transport to do: verb, url, the body (`data`)
      and the query parameters (`params`), either of which may be absent. */
  datatype Request = Request(verb: Verb, url: string, data: Option<Json>, params: Option<Json>)

  /** `api.get(url, params?)` */
  function Get(url: string, params: Option<Json> := None): (r: Request)
    ensures r.verb == GET && r.url == url && r.data.None? && r.params == params
  {
    Request(GET, url, None, params)
  }

  /** `api.post(url, data?)` */
  function Post(url: string, data: Option<Json> := None): (r: Request)
    ensures r.verb == POST && r.url == url && r.data == data && r.params.None?
  {
    Request(POST, url, data, None)
  }

  /** `api.put(url, data?)` */
  function Put(url: string, data: Option<Json> := None): (r: Request)
    ensures r.verb == PUT && r.url == url && r.data == data && r.params.None?
  {
    Request(PUT, url, data, None)
  }

  /** `api.patch(url, data?)` */
  function Patch(url: string, data: Option<Json> := None): (r: Request)
    ensures r.verb == PATCH && r.url == url && r.data == data && r.params.None?
  {
    Request(PATCH, url, data, None)
  }

  /** `api.delete(url)` */
  function Delete(url: string): (r: Request)
    ensures r.verb == DELETE && r.url == url && r.data.None? && r.params.None?
  {
    Request(DELETE, url, None, None)
  }

  // ---------------------------------------------------------------------
  // Request stage

  const ACCESS_TOKEN_KEY := "accessToken"
  const AUTHORIZATION := "Authorization"

  /** The stored access token, when the code runs in a browser and the
      stored value is a non-empty string. */
  function StoredToken(isClient: bool, storage: map<string, string>): (r: Option<string>)
    ensures r.Some? <==> isClient && ACCESS_TOKEN_KEY in storage && storage[ACCESS_TOKEN_KEY] != ""
    ensures r.Some? ==> r.value == storage[ACCESS_TOKEN_KEY]
  {
    if isClient && Truthy(GetItem(storage, ACCESS_TOKEN_KEY)) then GetItem(storage, ACCESS_TOKEN_KEY) else None
  }

  /** The headers after the request stage: an Authorization header carrying
      the stored token when there is one and the request has a header
      object; otherwise the headers as they were. */
  function WithBearer(headers: Option<Headers>, isClient: bool, storage: map<string, string>): (r: Option<Headers>)
    ensures r.Some? <==> headers.Some?
    ensures r.Some? ==> r.value.Keys == headers.value.Keys + (if StoredToken(isClient, storage).Some? then {AUTHORIZATION} else {})
    ensures r.Some? ==> forall k :: k in headers.value && k != AUTHORIZATION ==> r.value[k] == headers.value[k]
    ensures r.Some? && StoredToken(isClient, storage).Some? ==>
      r.value[AUTHORIZATION] == "Bearer " + StoredToken(isClient, storage).value
    ensures StoredToken(isClient, storage).None? ==> r == headers
  {
    match StoredToken(isClient, storage)
    case Some(token) =>
      if headers.Some? then Some(headers.value[AUTHORIZATION := "Bearer " + token]) else headers
    case None => headers
  }

  /** The request as the interceptor receives it; only its headers are
      changed in place. */
  class RequestConfig {
    const request: Request
    var headers: Option<Headers>

    constructor (request: Request, headers: Option<Headers>)
      ensures this.request == request && this.headers == headers
    {
      this.request := request;
      this.headers := headers;
    }
  }

  /** What goes out on the wire. */
  datatype Outgoing = Outgoing(request: Request, headers: Option<Headers>)

  /** The request interceptor. It returns the config it was given and has
      no failure path: a missing token is not an error. */
  method RequestStage(config: RequestConfig, isClient: bool, storage: map<string, string>)
    returns (r: RequestConfig)
    modifies config
    ensures r == config
    ensures config.headers == WithBearer(old(config.headers), isClient, storage)
  {
    if isClient {
      var token := GetItem(storage, ACCESS_TOKEN_KEY);
      if Truthy(token) && config.headers.Some? {
        config.headers := Some(config.headers.value[AUTHORIZATION := "Bearer " + token.value]);
      }
    }
    r := config;
  }

  // ---------------------------------------------------------------------
  // Response stage

  datatype Response = Response(status: int, data: Json)

  /** The body of an upstream error response, as far as it is read. */
  datatype ErrorBody = ErrorBody(message: Option<string>, code: Option<string>, details: Option<map<string, Json>>)

  datatype ErrorResponse = ErrorResponse(status: int, data: Option<ErrorBody>)

  /** A transport failure: its own message and code, and the upstream
      response when one arrived. */
  datatype RawError = RawError(message: string, code: Option<string>, response: Option<ErrorResponse>)

  datatype ApiError = ApiError(message: string, code: Option<string>, status: Option<int>, details: Option<map<string, Json>>)

  const GENERIC_MESSAGE := "An error occurred"

  function BodyMessage(e: RawError): Option<string> {
    if e.response.Some? && e.response.value.data.Some? then e.response.value.data.value.message else None
  }

  function BodyCode(e: RawError): Option<string> {
    if e.response.Some? && e.response.value.data.Some? then e.response.value.data.value.code else None
  }

  function BodyDetails(e: RawError): Option<map<string, Json>> {
    if e.response.Some? && e.response.value.data.Some? then e.response.value.data.value.details else None
  }

  /** The normalised error built by the response interceptor. */
  function Normalize(e: RawError): (r: ApiError)
    ensures r.message != ""
    ensures Truthy(BodyMessage(e)) ==> r.message == BodyMessage(e).value
    ensures !Truthy(BodyMessage(e)) && e.message != "" ==> r.message == e.message
    ensures !Truthy(BodyMessage(e)) && e.message == "" ==> r.message == GENERIC_MESSAGE
    ensures Truthy(BodyCode(e)) ==> r.code == BodyCode(e)
    ensures !Truthy(BodyCode(e)) ==> r.code == e.code
    ensures r.status.Some? <==> e.response.Some?
    ensures e.response.Some? ==> r.status.value == e.response.value.status
    ensures r.details == BodyDetails(e)
  {
    ApiError(
      Or(OrElse(BodyMessage(e), Some(e.message)), GENERIC_MESSAGE),
      OrElse(BodyCode(e), e.code),
      if e.response.Some? then Some(e.response.value.status) else None,
      BodyDetails(e))
  }

  /** The response interceptor: successes unchanged, failures normalised. */
  function ResponseStage(outcome: Result<Response, RawError>): (r: Result<Response, ApiError>)
    ensures outcome.Ok? <==> r.Ok?
    ensures outcome.Ok? ==> r.value == outcome.value
    ensures outcome.Err? ==> r.error == Normalize(outcome.error)
  {
    match outcome
    case Ok(response) => Ok(response)
    case Err(e) => Err(Normalize(e))
  }

  /** `.then((res) => res.data)` in every verb helper. */
  function Unwrap(r: Result<Response, ApiError>): (d: Result<Json, ApiError>)
    ensures r.Ok? <==> d.Ok?
    ensures r.Ok? ==> d.value == r.value.data
    ensures r.Err? ==> d.error == r.error
  {
    match r
    case Ok(response) => Ok(response.data)
    case Err(e) => Err(e)
  }

  /** One call through the client: the request stage, the transport, the
      response stage and the unwrapping, in that order. */
  method Send(config: RequestConfig, isClient: bool, storage: map<string, string>,
              transport: Outgoing -> Result<Response, RawError>)
    returns (result: Result<Json, ApiError>)
    modifies config
    ensures config.headers == WithBearer(old(config.headers), isClient, storage)
    ensures result == Unwrap(ResponseStage(transport(Outgoing(config.request, config.headers))))
  {
    var sent := RequestStage(config, isClient, storage);
    var outcome := transport(Outgoing(sent.request, sent.headers));
    result := Unwrap(ResponseStage(outcome));
  }

  /** A 401 is normalised like any other status: only the status differs. */
  lemma UnauthorizedIsNotSpecial(e: RawError, status: int)
    requires e.response.Some? && e.response.value.status == 401
    ensures Normalize(e) ==
      Normalize(e.(response := Some(e.response.value.(status := status)))).(status := Some(401))
  {
  }

  /** A failure without an upstream response has no status, and its message
      is the transport's own, or the generic one. */
  lemma TransportFailure(e: RawError)
    requires e.response.None?
    ensures Normalize(e) == ApiError(if e.message != "" then e.message else GENERIC_MESSAGE, e.code, None, None)
  {
  }

  /** The upstream body takes precedence for both message and code. */
  lemma UpstreamBodyWins(message: string, code: string, status: int, details: Option<map<string, Json>>, e: RawError)
    requires message != "" && code != ""
    requires e.response == Some(ErrorResponse(status, Some(ErrorBody(Some(message), Some(code), details))))
    ensures Normalize(e) == ApiError(message, Some(code), Some(status), details)
  {
  }

  /** Normalising an already-normalised error, re-wrapped with its own
      status and body, gives it back: the normal form is a fixed point
      whenever the error carries a status. */
  lemma NormalizeFixedPoint(a: ApiError, transportMessage: string)
    requires a.message != "" && a.status.Some?
    requires a.code.Some? ==> a.code.value != ""
    ensures Normalize(RawError(transportMessage, None,
              Some(ErrorResponse(a.status.value, Some(ErrorBody(Some(a.message), a.code, a.details)))))) == a
  {
  }

  /** A successful call returns the response body, whatever the stage did
      to the headers. */
  lemma SuccessReturnsData(response: Response)
    ensures Unwrap(ResponseStage(Ok(response))) == Ok(response.data)
  {
  }

  /** A failed call always rejects with a non-empty message. */
  lemma FailureAlwaysHasMessage(e: RawError)
    ensures Unwrap(ResponseStage(Err(e))).Err?
    ensures Unwrap(ResponseStage(Err(e))).error.message != ""
  {
  }
}
