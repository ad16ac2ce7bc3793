/**
 * The client of pkg/mlflow/client.go: its configuration, the two executors
 * every typed operation goes through (`doRequest` for JSON calls,
 * `doTextRequest` for the plain-text health and version probes) and the
 * decoding step a typed operation adds after `doRequest`.
 *
 * Each executor is a method of `Client` that follows the Go code step by
 * step, proved equal to a specification function (`Execute`,
 * `ExecuteText`); the lemmas state what those functions guarantee.
 *
 * The foreign calls are parameters, gathered in `Env`: `json.Marshal` of a
 * body, the error `http.NewRequest` may return, the exchange done by
 * `HTTPClient.Do` and `io.ReadAll`, and `json.Unmarshal` of an error body.
 */
module MlflowClient {
  import opened Wrappers
  import opened GoText
  import opened Http
  import opened Json
  import opened Models
  import opened Requests

  /** `30 * time.Second`, in nanoseconds as `time.Duration` counts them. */
  const DefaultTimeout: int := 30_000_000_000

  const MarshalError := "failed to marshal request body: "
  const CreateError := "failed to create request: "
  const ExecuteError := "failed to execute request: "
  const ReadError := "failed to read response body: "
  const UnmarshalError := "failed to unmarshal response: "

  const HealthPath := "/health"
  const VersionPath := "/version"

  /** The foreign calls the client makes, supplied by the caller of the model. */
  datatype Env = Env(
    marshal: Json -> Result<Bytes, string>,          // json.Marshal, with the error's text
    newRequest: (string, string) -> Option<string>,  // the error http.NewRequest gives a method and URL, if any
    transport: Request -> Outcome,                   // HTTPClient.Do, then io.ReadAll
    parseError: Bytes -> Option<ErrorResponse>)      // json.Unmarshal into an ErrorResponse

  /** What a `Client` holds: its base URL, bearer token and HTTP timeout. */
  datatype Config = Config(baseURL: string, authToken: string, timeout: int)

  // ---------------------------------------------------------------------------
  // NewClient

  predicate EndsWithSlash(u: string) {
    |u| > 0 && u[|u| - 1] == '/'
  }

  /** `NewClient`'s base URL: one trailing `/` removed, any other URL kept. */
  function NormalizeBaseURL(u: string): (r: string)
    ensures EndsWithSlash(u) ==> r + "/" == u
    ensures !EndsWithSlash(u) ==> r == u
  {
    if EndsWithSlash(u) then u[..|u| - 1] else u
  }

  /**
   * Exactly one slash goes: a URL with a slash added normalises back to
   * itself, and the result still ends in `/` just when the URL ended in two.
   */
  lemma NormalizeBaseURLStripsOne(u: string)
    ensures NormalizeBaseURL(u + "/") == u
    ensures EndsWithSlash(NormalizeBaseURL(u)) <==> |u| >= 2 && u[|u| - 2..] == "//"
  {
    assert (u + "/")[..|u|] == u;
    if |u| >= 2 && EndsWithSlash(u) {
      assert NormalizeBaseURL(u)[|u| - 2] == u[|u| - 2];
    }
  }

  // ---------------------------------------------------------------------------
  // Request headers

  /**
   * The headers the executors set: `Content-Type: application/json` when
   * `json` (doRequest) and never otherwise (doTextRequest); a bearer
   * `Authorization` exactly when there is a token, carrying that token.
   */
  function RequestHeaders(token: string, json: bool): (h: map<string, string>)
    ensures ContentTypeHeader in h <==> json
    ensures json ==> h[ContentTypeHeader] == JsonMediaType
    ensures AuthorizationHeader in h <==> token != ""
    ensures token != "" ==> h[AuthorizationHeader] == BearerCredentials(token)
    ensures token != "" ==> ParseBearer(h[AuthorizationHeader]) == Some(token)
    ensures h.Keys <= {ContentTypeHeader, AuthorizationHeader}
  {
    ParseBearerCredentials(token, BearerCredentials(token));
    var h := if json then map[ContentTypeHeader := JsonMediaType] else map[];
    if token != "" then h[AuthorizationHeader := BearerCredentials(token)] else h
  }

  // ---------------------------------------------------------------------------
  // doRequest, as a function of the configuration and the foreign calls

  /** The request body: nothing for a nil body, else the marshalled bytes. */
  function Payload(body: Option<Json>, marshal: Json -> Result<Bytes, string>): (r: Result<Option<Bytes>, GoError>)
    ensures body.None? ==> r == Success(None)
    ensures body.Some? && marshal(body.value).Success? ==> r == Success(Some(marshal(body.value).value))
    ensures body.Some? && marshal(body.value).Failure? ==> r == Failure(TextError(MarshalError + marshal(body.value).error))
  {
    match body
    case None => Success(None)
    case Some(j) =>
      match marshal(j)
      case Success(b) => Success(Some(b))
      case Failure(e) => Failure(TextError(MarshalError + e))
  }

  /**
   * The request handed to the transport, or the error that stops the
   * executor first. The URL is the base URL followed by the endpoint.
   */
  function Prepare(cfg: Config, verb: string, endpoint: string, payload: Option<Bytes>, json: bool,
                   newRequest: (string, string) -> Option<string>): (r: Result<Request, GoError>)
    ensures r.Success? <==> newRequest(verb, cfg.baseURL + endpoint).None?
    ensures r.Failure? ==> r.error == TextError(CreateError + newRequest(verb, cfg.baseURL + endpoint).value)
    ensures r.Success? ==> (r.value.verb == verb && r.value.url == cfg.baseURL + endpoint
                            && r.value.body == payload && r.value.timeout == cfg.timeout
                            && r.value.headers == RequestHeaders(cfg.authToken, json))
  {
    var url := cfg.baseURL + endpoint;
    match newRequest(verb, url)
    case Some(e) => Failure(TextError(CreateError + e))
    case None => Success(Request(verb, url, RequestHeaders(cfg.authToken, json), payload, cfg.timeout))
  }

  /** The `APIError` for a non-2xx response whose body parsed as `parsed` (or did not). */
  function StatusError(status: int, body: Bytes, parsed: Option<ErrorResponse>): (e: APIError)
    ensures e.statusCode == status && e.responseBody == body
    ensures parsed.Some? ==> e.errorCode == parsed.value.errorCode && e.message == parsed.value.message
    ensures parsed.None? ==> e.errorCode == "" && e.message == Text(body)
  {
    match parsed
    case Some(er) => APIError(status, er.message, body, er.errorCode)
    case None => APIError(status, Text(body), body, "")
  }

  /** doRequest's reading of the transport's outcome. */
  function Classify(outcome: Outcome, parseError: Bytes -> Option<ErrorResponse>): (r: Result<Bytes, GoError>)
    ensures r.Success? <==> outcome.Received? && IsSuccessful(outcome.status)
    ensures r.Success? ==> r.value == outcome.body
    ensures outcome.Received? && !IsSuccessful(outcome.status)
            ==> r == Failure(ApiError(StatusError(outcome.status, outcome.body, parseError(outcome.body))))
    ensures outcome.SendFailed? ==> r == Failure(TextError(ExecuteError + outcome.reason))
    ensures outcome.ReadFailed? ==> r == Failure(TextError(ReadError + outcome.reason))
  {
    match outcome
    case SendFailed(e) => Failure(TextError(ExecuteError + e))
    case ReadFailed(e) => Failure(TextError(ReadError + e))
    case Received(status, body) =>
      if IsSuccessful(status) then Success(body)
      else Failure(ApiError(StatusError(status, body, parseError(body))))
  }

  /** doRequest: marshal, build the request, send it, classify the answer. */
  function Execute(cfg: Config, call: Call, env: Env): Result<Bytes, GoError> {
    var payload :- Payload(call.body, env.marshal);
    var request :- Prepare(cfg, call.verb, call.endpoint, payload, true, env.newRequest);
    Classify(env.transport(request), env.parseError)
  }

  /** The request doRequest sends, when marshalling and `http.NewRequest` succeed. */
  function SentRequest(cfg: Config, call: Call, env: Env): Option<Request> {
    match Payload(call.body, env.marshal)
    case Failure(_) => None
    case Success(payload) =>
      match Prepare(cfg, call.verb, call.endpoint, payload, true, env.newRequest)
      case Failure(_) => None
      case Success(q) => Some(q)
  }

  /**
   * What doRequest sends: the call's method, the base URL followed by the
   * endpoint, the JSON content type, the bearer token when there is one, and
   * the marshalled body (none for a nil body).
   */
  lemma SentRequestShape(cfg: Config, call: Call, env: Env)
    ensures SentRequest(cfg, call, env).Some?
            <==> (call.body.None? || env.marshal(call.body.value).Success?)
                 && env.newRequest(call.verb, cfg.baseURL + call.endpoint).None?
    ensures SentRequest(cfg, call, env).Some? ==>
      var q := SentRequest(cfg, call, env).value;
      && q.verb == call.verb && q.url == cfg.baseURL + call.endpoint && q.timeout == cfg.timeout
      && q.headers[ContentTypeHeader] == JsonMediaType
      && (AuthorizationHeader in q.headers <==> cfg.authToken != "")
      && (cfg.authToken != "" ==> ParseBearer(q.headers[AuthorizationHeader]) == Some(cfg.authToken))
      && q.body == (if call.body.None? then None else Some(env.marshal(call.body.value).value))
  {
  }

  /**
   * doRequest succeeds exactly when the request was sent and the answer is
   * 2xx, and then it returns the response body unchanged.
   */
  lemma ExecuteSucceeds(cfg: Config, call: Call, env: Env)
    ensures Execute(cfg, call, env).Success?
            <==> SentRequest(cfg, call, env).Some?
                 && var o := env.transport(SentRequest(cfg, call, env).value);
                    o.Received? && IsSuccessful(o.status)
    ensures Execute(cfg, call, env).Success? ==>
              Execute(cfg, call, env).value == env.transport(SentRequest(cfg, call, env).value).body
  {
  }

  /**
   * A response outside 2xx gives an `APIError` carrying the status and the
   * raw body, with the code and message of the parsed error body, or the
   * body as message if it does not parse.
   */
  lemma ExecuteStatusFailure(cfg: Config, call: Call, env: Env)
    requires SentRequest(cfg, call, env).Some?
    requires env.transport(SentRequest(cfg, call, env).value).Received?
    requires !IsSuccessful(env.transport(SentRequest(cfg, call, env).value).status)
    ensures var o := env.transport(SentRequest(cfg, call, env).value);
      && Execute(cfg, call, env).Failure? && Execute(cfg, call, env).error.ApiError?
      && var a := Execute(cfg, call, env).error.api;
      && a.statusCode == o.status && a.responseBody == o.body
      && (env.parseError(o.body).Some? ==> a.errorCode == env.parseError(o.body).value.errorCode
                                           && a.message == env.parseError(o.body).value.message)
      && (env.parseError(o.body).None? ==> a.errorCode == "" && a.message == Text(o.body))
  {
  }

  /**
   * Every error doRequest returns is an `APIError` for a non-2xx status, or
   * a text error that names the step that failed.
   */
  lemma ExecuteErrors(cfg: Config, call: Call, env: Env)
    requires Execute(cfg, call, env).Failure?
    ensures var e := Execute(cfg, call, env).error;
      e.ApiError? <==> SentRequest(cfg, call, env).Some?
                       && var o := env.transport(SentRequest(cfg, call, env).value);
                          o.Received? && !IsSuccessful(o.status)
    ensures call.body.Some? && env.marshal(call.body.value).Failure?
            ==> Execute(cfg, call, env).error == TextError(MarshalError + env.marshal(call.body.value).error)
    ensures (call.body.None? || env.marshal(call.body.value).Success?)
            && env.newRequest(call.verb, cfg.baseURL + call.endpoint).Some?
            ==> Execute(cfg, call, env).error
                == TextError(CreateError + env.newRequest(call.verb, cfg.baseURL + call.endpoint).value)
    ensures SentRequest(cfg, call, env).Some? && env.transport(SentRequest(cfg, call, env).value).SendFailed?
            ==> Execute(cfg, call, env).error
                == TextError(ExecuteError + env.transport(SentRequest(cfg, call, env).value).reason)
    ensures SentRequest(cfg, call, env).Some? && env.transport(SentRequest(cfg, call, env).value).ReadFailed?
            ==> Execute(cfg, call, env).error
                == TextError(ReadError + env.transport(SentRequest(cfg, call, env).value).reason)
  {
  }

  /** Of doRequest's errors, `IsAPIError` recognises exactly those for a non-2xx status, with its status. */
  lemma ExecuteIsAPIError(cfg: Config, call: Call, env: Env)
    requires Execute(cfg, call, env).Failure?
    ensures var r := IsAPIError(Some(Execute(cfg, call, env).error));
      r.1 <==> SentRequest(cfg, call, env).Some?
               && var o := env.transport(SentRequest(cfg, call, env).value);
                  o.Received? && !IsSuccessful(o.status)
    ensures var r := IsAPIError(Some(Execute(cfg, call, env).error));
      r.1 ==> r.0.value.GetStatusCode() == env.transport(SentRequest(cfg, call, env).value).status
              && r.0.value.GetResponseBody() == env.transport(SentRequest(cfg, call, env).value).body
  {
    ExecuteErrors(cfg, call, env);
  }

  /**
   * The text of doRequest's status error: the status, then the code and
   * message of a parsed body with a code, its message alone if it has none,
   * and the raw body when the body did not parse or gave neither.
   */
  lemma StatusErrorText(status: int, body: Bytes, parsed: Option<ErrorResponse>)
    ensures ReadErrorText(StatusError(status, body, parsed).Error()) == Some((status,
      if parsed.Some? && parsed.value.errorCode != "" then parsed.value.errorCode + " - " + parsed.value.message
      else if parsed.Some? && parsed.value.message != "" then parsed.value.message
      else Text(body)))
  {
  }

  // ---------------------------------------------------------------------------
  // doTextRequest

  /** doTextRequest's reading of the outcome: no JSON parsing, the body is the message. */
  function ClassifyText(outcome: Outcome): (r: Result<string, GoError>)
    ensures r.Success? <==> outcome.Received? && IsSuccessful(outcome.status)
    ensures r.Success? ==> r.value == Text(outcome.body)
    ensures outcome.Received? && !IsSuccessful(outcome.status)
            ==> r == Failure(ApiError(APIError(outcome.status, Text(outcome.body), outcome.body, "")))
    ensures outcome.SendFailed? ==> r == Failure(TextError(ExecuteError + outcome.reason))
    ensures outcome.ReadFailed? ==> r == Failure(TextError(ReadError + outcome.reason))
  {
    match outcome
    case SendFailed(e) => Failure(TextError(ExecuteError + e))
    case ReadFailed(e) => Failure(TextError(ReadError + e))
    case Received(status, body) =>
      if IsSuccessful(status) then Success(Text(body))
      else Failure(ApiError(APIError(status, Text(body), body, "")))
  }

  /** doTextRequest: no body, no content type, the same bearer rule. */
  function ExecuteText(cfg: Config, verb: string, endpoint: string, env: Env): Result<string, GoError> {
    var request :- Prepare(cfg, verb, endpoint, None, false, env.newRequest);
    ClassifyText(env.transport(request))
  }

  /**
   * doTextRequest sends no body and no content type; its status error is
   * the one doRequest builds for a body that does not parse, and its text
   * ends in the raw body.
   */
  lemma ExecuteTextShape(cfg: Config, verb: string, endpoint: string, env: Env)
    requires env.newRequest(verb, cfg.baseURL + endpoint).None?
    ensures var q := Prepare(cfg, verb, endpoint, None, false, env.newRequest).value;
      && q.body == None && ContentTypeHeader !in q.headers
      && (AuthorizationHeader in q.headers <==> cfg.authToken != "")
      && var o := env.transport(q);
         (o.Received? && !IsSuccessful(o.status) ==>
            ExecuteText(cfg, verb, endpoint, env) == Failure(ApiError(StatusError(o.status, o.body, None)))
            && ReadErrorText(ExecuteText(cfg, verb, endpoint, env).error.api.Error()) == Some((o.status, Text(o.body))))
  {
    var q := Prepare(cfg, verb, endpoint, None, false, env.newRequest).value;
    var o := env.transport(q);
    if o.Received? && !IsSuccessful(o.status) {
      StatusErrorText(o.status, o.body, None);
    }
  }

  /** Both executors succeed on the same outcomes, and doTextRequest returns doRequest's bytes as text. */
  lemma ClassifyTextAgrees(outcome: Outcome, parseError: Bytes -> Option<ErrorResponse>)
    ensures ClassifyText(outcome).Success? <==> Classify(outcome, parseError).Success?
    ensures ClassifyText(outcome).Success? ==> ClassifyText(outcome).value == Text(Classify(outcome, parseError).value)
    ensures !outcome.Received? ==> ClassifyText(outcome).error == Classify(outcome, parseError).error
  {
  }

  // ---------------------------------------------------------------------------
  // Typed operations: doRequest, then json.Unmarshal of the response

  /**
   * A typed operation's result: doRequest's error unchanged, else the
   * decoded response, else the decoding error with its prefix.
   */
  function Decoded<T>(r: Result<Bytes, GoError>, decode: Bytes -> Result<T, string>): (d: Result<T, GoError>)
    ensures r.Failure? ==> d == Failure(r.error)
    ensures r.Success? && decode(r.value).Success? ==> d == Success(decode(r.value).value)
    ensures r.Success? && decode(r.value).Failure? ==> d == Failure(TextError(UnmarshalError + decode(r.value).error))
  {
    match r
    case Failure(e) => Failure(e)
    case Success(b) =>
      match decode(b)
      case Success(v) => Success(v)
      case Failure(e) => Failure(TextError(UnmarshalError + e))
  }

  /** An operation that returns only an error: doRequest's error, or none. */
  function ErrorOf<T>(r: Result<T, GoError>): (e: Option<GoError>)
    ensures e.None? <==> r.Success?
    ensures r.Failure? ==> e == Some(r.error)
  {
    if r.Failure? then Some(r.error) else None
  }

  /**
   * `IsAPIError` finds an `APIError` in a typed operation's error exactly
   * when doRequest returned one, and it is the same one: a decoding failure
   * is never taken for an API error.
   */
  lemma DecodedIsAPIError<T>(r: Result<Bytes, GoError>, decode: Bytes -> Result<T, string>)
    ensures IsAPIError(ErrorOf(Decoded(r, decode))).1 <==> r.Failure? && r.error.ApiError?
    ensures r.Failure? ==> IsAPIError(ErrorOf(Decoded(r, decode))) == IsAPIError(ErrorOf(r))
  {
  }

  // ---------------------------------------------------------------------------
  // The client object

  class Client {
    var baseURL: string
    var authToken: string
    var timeout: int

    function Configuration(): Config
      reads this
    {
      Config(baseURL, authToken, timeout)
    }

    /** NewClient: the normalised base URL, no token, the 30 s timeout. */
    constructor (url: string)
      ensures baseURL == NormalizeBaseURL(url) && authToken == "" && timeout == DefaultTimeout
    {
      var u := url;
      if |u| > 0 && u[|u| - 1] == '/' {
        u := u[..|u| - 1];
      }
      baseURL := u;
      authToken := "";
      timeout := DefaultTimeout;
    }

    method SetAuthToken(token: string)
      modifies this
      ensures authToken == token && baseURL == old(baseURL) && timeout == old(timeout)
    {
      authToken := token;
    }

    method SetTimeout(t: int)
      modifies this
      ensures timeout == t && baseURL == old(baseURL) && authToken == old(authToken)
    {
      timeout := t;
    }

    /** doRequest: each step can stop the call with its own error; a non-2xx answer fills an `APIError`. */
    method DoRequest(call: Call, env: Env) returns (r: Result<Bytes, GoError>)
      ensures r == Execute(Configuration(), call, env)
    {
      var payload: Option<Bytes> := None;
      if call.body.Some? {
        var data := env.marshal(call.body.value);
        if data.Failure? {
          return Failure(TextError(MarshalError + data.error));
        }
        payload := Some(data.value);
      }
      var url := baseURL + call.endpoint;
      var bad := env.newRequest(call.verb, url);
      if bad.Some? {
        return Failure(TextError(CreateError + bad.value));
      }
      var headers := map[ContentTypeHeader := JsonMediaType];
      if authToken != "" {
        headers := headers[AuthorizationHeader := BearerCredentials(authToken)];
      }
      var outcome := env.transport(Request(call.verb, url, headers, payload, timeout));
      if outcome.SendFailed? {
        return Failure(TextError(ExecuteError + outcome.reason));
      }
      if outcome.ReadFailed? {
        return Failure(TextError(ReadError + outcome.reason));
      }
      if outcome.status < 200 || outcome.status >= 300 {
        var apiErr := APIError(outcome.status, "", outcome.body, "");
        var parsed := env.parseError(outcome.body);
        if parsed.Some? {
          apiErr := apiErr.(errorCode := parsed.value.errorCode, message := parsed.value.message);
        } else {
          apiErr := apiErr.(message := Text(outcome.body));
        }
        return Failure(ApiError(apiErr));
      }
      return Success(outcome.body);
    }

    /** doTextRequest: no body and no content type; a non-2xx answer's body is the message. */
    method DoTextRequest(verb: string, endpoint: string, env: Env) returns (r: Result<string, GoError>)
      ensures r == ExecuteText(Configuration(), verb, endpoint, env)
    {
      var url := baseURL + endpoint;
      var bad := env.newRequest(verb, url);
      if bad.Some? {
        return Failure(TextError(CreateError + bad.value));
      }
      var headers: map<string, string> := map[];
      if authToken != "" {
        headers := headers[AuthorizationHeader := BearerCredentials(authToken)];
      }
      var outcome := env.transport(Request(verb, url, headers, None, timeout));
      if outcome.SendFailed? {
        return Failure(TextError(ExecuteError + outcome.reason));
      }
      if outcome.ReadFailed? {
        return Failure(TextError(ReadError + outcome.reason));
      }
      if outcome.status < 200 || outcome.status >= 300 {
        return Failure(ApiError(APIError(outcome.status, Text(outcome.body), outcome.body, "")));
      }
      return Success(Text(outcome.body));
    }

    method GetHealth(env: Env) returns (r: Result<string, GoError>)
      ensures r == ExecuteText(Configuration(), "GET", HealthPath, env)
    {
      r := DoTextRequest("GET", HealthPath, env);
    }

    method GetVersion(env: Env) returns (r: Result<string, GoError>)
      ensures r == ExecuteText(Configuration(), "GET", VersionPath, env)
    {
      r := DoTextRequest("GET", VersionPath, env);
    }

    /**
     * A typed operation with a response: `call` is the operation's request
     * (module Requests), `decode` is json.Unmarshal into its response type.
     */
    method Invoke<T>(call: Call, env: Env, decode: Bytes -> Result<T, string>) returns (r: Result<T, GoError>)
      ensures r == Decoded(Execute(Configuration(), call, env), decode)
    {
      var body := DoRequest(call, env);
      if body.Failure? {
        return Failure(body.error);
      }
      var response := decode(body.value);
      if response.Failure? {
        return Failure(TextError(UnmarshalError + response.error));
      }
      return Success(response.value);
    }

    /** A typed operation that returns only an error: doRequest's, unchanged. */
    method InvokeNoContent(call: Call, env: Env) returns (err: Option<GoError>)
      ensures err == ErrorOf(Execute(Configuration(), call, env))
    {
      var body := DoRequest(call, env);
      if body.Failure? {
        return Some(body.error);
      }
      return None;
    }
  }
}
