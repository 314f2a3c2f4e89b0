/**
 * The request layer of the GitHub REST client (`_request`): it builds one HTTP
 * request from an optional token, an API path, an optional method and a
 * parameter dictionary, hands it to the transport, and maps an HTTP error
 * status to `APIRequestError`.
 *
 * The encoders (`urllib.parse.urlencode`, compact `json.dumps`,
 * `urllib.parse.quote`) and the transport (`urlopen` followed by `json.load`)
 * are Python standard-library functions; the model leaves them uninterpreted
 * and carries them in `Codec` and `Env`.
 */
module ApiRequest {
  import opened Wrappers
  import opened PyDict
  import opened PyBytes

  const ApiBaseUrl := "https://api.github.com"
  const RequestAcceptVersion := "application/vnd.github.v3+json"
  const RequestUserAgent := "magnetikonline/githubutilities 1.0"
  const RequestDataContentType := "application/json"

  /** A parameter value: the client sends strings and booleans. */
  datatype Value = Str(s: string) | Bool(b: bool)

  type Params = Dict<Value>

  /** The output of `json.dumps` on a dictionary: never empty, it holds at least `{}`. */
  type JsonText = s: string | s != [] witness "{}"

  /** A decoded JSON document (numbers are integers here). */
  datatype Json =
    | JNull
    | JBool(b: bool)
    | JNumber(n: int)
    | JString(s: string)
    | JArray(items: seq<Json>)
    | JObject(fields: seq<(string, Json)>)

  /** The library encoders the client calls. */
  datatype Codec = Codec(
    urlencode: Params -> string,
    jsonDumps: Params -> JsonText,
    quote: string -> string)

  /** What `urllib.request.Request` is given; `method == None` is a GET. */
  datatype HttpRequest = HttpRequest(
    url: string,
    httpMethod: Option<string>,
    headers: Dict<string>,
    data: Option<string>)

  /** What the transport does with a request: a decoded JSON response, or an HTTP error status and body. */
  datatype Outcome = Response(data: Json) | HttpError(code: int, body: seq<byte>)

  datatype Env = Env(codec: Codec, transport: HttpRequest -> Outcome)

  /**
   * The exceptions the model surfaces: the client's own, iterating a JSON
   * value that is not iterable, and whatever a caller's item processor raises.
   */
  datatype Error =
    | APIRequestError(httpCode: int, response: string)
    | NotIterable(value: Json)
    | ProcessorError(reason: string)

  /** The headers of every request: the two fixed ones, then the token when there is one. */
  function BaseHeaders(authToken: Option<string>): (h: Dict<string>)
    ensures KeyOrder(h) == ["Accept", "User-Agent"] + (if authToken.Some? then ["Authorization"] else [])
    ensures Get(h, "Accept") == Some(RequestAcceptVersion)
    ensures Get(h, "User-Agent") == Some(RequestUserAgent)
    ensures Get(h, "Authorization") == if authToken.Some? then Some("token " + authToken.value) else None
    ensures "Content-Type" !in Keys(h)
  {
    var fixed := Set(Set([], "Accept", RequestAcceptVersion), "User-Agent", RequestUserAgent);
    assert fixed == [("Accept", RequestAcceptVersion), ("User-Agent", RequestUserAgent)];
    if authToken.Some? then Set(fixed, "Authorization", "token " + authToken.value) else fixed
  }

  /** The request `_request` sends: its URL, method, headers and body. */
  function BuildRequest(
    codec: Codec, authToken: Option<string>, apiPath: string,
    httpMethod: Option<string>, params: Params): (r: HttpRequest)
    // the two fixed headers always, Authorization only with a token,
    // Content-Type only for a non-GET with parameters, in that order
    ensures KeyOrder(r.headers) ==
      ["Accept", "User-Agent"]
      + (if authToken.Some? then ["Authorization"] else [])
      + (if httpMethod.Some? && params != [] then ["Content-Type"] else [])
    ensures Get(r.headers, "Accept") == Some(RequestAcceptVersion)
    ensures Get(r.headers, "User-Agent") == Some(RequestUserAgent)
    ensures Get(r.headers, "Authorization").Some? <==> authToken.Some?
    ensures authToken.Some? ==> Get(r.headers, "Authorization") == Some("token " + authToken.value)
    ensures Get(r.headers, "Content-Type").Some? <==> httpMethod.Some? && params != []
    ensures httpMethod.Some? && params != [] ==> Get(r.headers, "Content-Type") == Some(RequestDataContentType)
    // a GET carries its parameters in the query string, and only when there are some
    ensures httpMethod.None? && params == [] ==> r.url == ApiBaseUrl + "/" + apiPath
    ensures httpMethod.None? && params != [] ==> r.url == ApiBaseUrl + "/" + apiPath + "?" + codec.urlencode(params)
    ensures httpMethod.None? ==> r.data.None?
    // any other method carries them as a compact JSON body, and only when there are some
    ensures httpMethod.Some? ==> r.url == ApiBaseUrl + "/" + apiPath
    ensures httpMethod.Some? ==> (r.data.Some? <==> params != [])
    ensures httpMethod.Some? && params != [] ==> r.data == Some(codec.jsonDumps(params))
    ensures r.httpMethod == httpMethod
  {
    var requestUrl := ApiBaseUrl + "/" + apiPath;
    var headers := BaseHeaders(authToken);
    if httpMethod.None? then
      var getUrl := if params != [] then requestUrl + "?" + codec.urlencode(params) else requestUrl;
      HttpRequest(getUrl, None, headers, None)
    else
      var dataSend := if params != [] then codec.jsonDumps(params) else "";
      var dataHeaders := if params != [] then Set(headers, "Content-Type", RequestDataContentType) else headers;
      HttpRequest(requestUrl, httpMethod, dataHeaders, if dataSend == "" then None else Some(dataSend))
  }

  /**
   * The corrected error for an HTTP error status: the body decoded as text.
   * Line 71 of `lib/githubapi.py` as written builds `ErrorFromHttpAsWritten`.
   */
  function ErrorFromHttp(code: int, body: seq<byte>): (e: Error)
    ensures e.APIRequestError? && e.httpCode == code
    ensures forall i :: 0 <= i < |e.response| ==> e.response[i] as int < 256
    ensures EncodeText(e.response) == body
  {
    DecodeTextRoundTrip(body);
    APIRequestError(code, DecodeText(body))
  }

  /** The error as the code builds it, from `str(err.read())`: the body's `repr`, never its text. */
  function ErrorFromHttpAsWritten(code: int, body: seq<byte>): (e: Error)
    ensures e.APIRequestError? && e.httpCode == code
    ensures |e.response| >= |body| + 3 && e.response[0] == 'b'
    ensures e.response != DecodeText(body)
  {
    APIRequestError(code, BytesRepr(body))
  }

  /**
   * `_request` with the error text corrected (see `ErrorFromHttp`): send the
   * request, return the decoded response or raise `APIRequestError` carrying
   * the body's text.
   */
  function Request(
    env: Env, authToken: Option<string>, apiPath: string,
    httpMethod: Option<string>, params: Params): (r: Result<Json, Error>)
    ensures var outcome := env.transport(BuildRequest(env.codec, authToken, apiPath, httpMethod, params));
      && (r.Success? <==> outcome.Response?)
      && (outcome.Response? ==> r.value == outcome.data)
      && (outcome.HttpError? ==>
            && r.error.APIRequestError?
            && r.error.httpCode == outcome.code
            && (forall i :: 0 <= i < |r.error.response| ==> r.error.response[i] as int < 256)
            && EncodeText(r.error.response) == outcome.body)
  {
    match env.transport(BuildRequest(env.codec, authToken, apiPath, httpMethod, params))
    case HttpError(code, body) => Failure(ErrorFromHttp(code, body))
    case Response(data) => Success(data)
  }

  /** `_request` as written: an HTTP error carries `str(err.read())`, the body's `repr`. */
  function RequestAsWritten(
    env: Env, authToken: Option<string>, apiPath: string,
    httpMethod: Option<string>, params: Params): (r: Result<Json, Error>)
    ensures var outcome := env.transport(BuildRequest(env.codec, authToken, apiPath, httpMethod, params));
      && (r.Success? <==> outcome.Response?)
      && (outcome.Response? ==> r.value == outcome.data)
      && (outcome.HttpError? ==>
            && r.error == APIRequestError(outcome.code, BytesRepr(outcome.body))
            && r.error.response != DecodeText(outcome.body))
  {
    match env.transport(BuildRequest(env.codec, authToken, apiPath, httpMethod, params))
    case HttpError(code, body) => Failure(ErrorFromHttpAsWritten(code, body))
    case Response(data) => Success(data)
  }
}
