/**
 * The older client in the repository's root client.go. It builds every
 * request as pkg/mlflow/client.go does (module Requests) and sends it the
 * same way, but it reports a non-2xx answer as a formatted text error rather
 * than an `APIError`, and it has no plain-text executor.
 */
module RootClient {
  import opened Wrappers
  import opened GoText
  import opened Http
  import opened UrlQuery
  import opened Models
  import opened Requests
  import opened MlflowClient

  const ApiErrorPrefix := "API error: "
  const StatusPrefix := "API error: status "
  const BodySeparator := ", body: "

  /**
   * The text of a non-2xx answer: `API error: <code> - <message>` when the
   * body parses as an error body, else `API error: status <n>, body: <body>`.
   */
  function FlatStatusError(status: int, body: Bytes, parsed: Option<ErrorResponse>): (e: string)
    ensures ApiErrorPrefix <= e
    ensures parsed.Some? ==> e == ApiErrorPrefix + parsed.value.errorCode + " - " + parsed.value.message
    ensures parsed.None? ==> e == StatusPrefix + FormatInt(status) + BodySeparator + Text(body)
  {
    match parsed
    case Some(er) => ApiErrorPrefix + er.errorCode + " - " + er.message
    case None => StatusPrefix + FormatInt(status) + BodySeparator + Text(body)
  }

  /** Reads `API error: status <n>, body: <body>` back into the status and the body text. */
  function ReadFlatStatusError(e: string): Option<(int, string)> {
    ReadStatusText(StatusPrefix, BodySeparator, e)
  }

  /**
   * The text for a body that does not parse loses nothing: the status and
   * the raw body can be read back from it.
   */
  lemma ReadFlatStatusErrorOf(status: int, body: Bytes)
    ensures ReadFlatStatusError(FlatStatusError(status, body, None)) == Some((status, Text(body)))
  {
    ReadStatusTextOf(StatusPrefix, BodySeparator, status, Text(body));
  }

  /** The reader accepts only the text `FlatStatusError` formats for a body that does not parse. */
  lemma ReadFlatStatusErrorCanonical(e: string, status: int, body: string)
    requires ReadFlatStatusError(e) == Some((status, body))
    ensures e == StatusPrefix + FormatInt(status) + BodySeparator + body
  {
    ReadStatusTextCanonical(StatusPrefix, BodySeparator, e, status, body);
  }

  /** The root doRequest's reading of the transport's outcome. */
  function ClassifyFlat(outcome: Outcome, parseError: Bytes -> Option<ErrorResponse>): (r: Result<Bytes, GoError>)
    ensures outcome.Received? && !IsSuccessful(outcome.status)
            ==> r == Failure(TextError(FlatStatusError(outcome.status, outcome.body, parseError(outcome.body))))
  {
    match outcome
    case SendFailed(e) => Failure(TextError(ExecuteError + e))
    case ReadFailed(e) => Failure(TextError(ReadError + e))
    case Received(status, body) =>
      if IsSuccessful(status) then Success(body)
      else Failure(TextError(FlatStatusError(status, body, parseError(body))))
  }

  /** The root doRequest: the same steps as pkg/mlflow's, with the flattened status error. */
  function ExecuteFlat(cfg: Config, call: Call, env: Env): Result<Bytes, GoError> {
    var payload :- Payload(call.body, env.marshal);
    var request :- Prepare(cfg, call.verb, call.endpoint, payload, true, env.newRequest);
    ClassifyFlat(env.transport(request), env.parseError)
  }

  /**
   * The two clients behave alike except for the status error: on every
   * input they succeed together with the same bytes and fail together;
   * every error other than a status error is the same text; and the root
   * client never returns an error `IsAPIError` accepts.
   */
  lemma {:induction false} ExecuteFlatAgrees(cfg: Config, call: Call, env: Env)
    ensures ExecuteFlat(cfg, call, env).Success? <==> Execute(cfg, call, env).Success?
    ensures ExecuteFlat(cfg, call, env).Success? ==> ExecuteFlat(cfg, call, env).value == Execute(cfg, call, env).value
    ensures Execute(cfg, call, env).Failure? && Execute(cfg, call, env).error.TextError?
            ==> ExecuteFlat(cfg, call, env) == Execute(cfg, call, env)
    ensures ExecuteFlat(cfg, call, env).Failure? ==> !IsAPIError(Some(ExecuteFlat(cfg, call, env).error)).1
  {
    match Payload(call.body, env.marshal)
    case Failure(_) =>
    case Success(payload) =>
      match Prepare(cfg, call.verb, call.endpoint, payload, true, env.newRequest)
      case Failure(_) =>
      case Success(request) =>
        var o := env.transport(request);
        assert ExecuteFlat(cfg, call, env) == ClassifyFlat(o, env.parseError);
        assert Execute(cfg, call, env) == Classify(o, env.parseError);
  }

  /**
   * A status error of the root client holds what the `APIError` of
   * pkg/mlflow holds for the same answer: the parsed code and message, or
   * the status and raw body when the body does not parse.
   */
  lemma ExecuteFlatStatusFailure(cfg: Config, call: Call, env: Env)
    requires SentRequest(cfg, call, env).Some?
    requires env.transport(SentRequest(cfg, call, env).value).Received?
    requires !IsSuccessful(env.transport(SentRequest(cfg, call, env).value).status)
    ensures var o := env.transport(SentRequest(cfg, call, env).value);
      var a := Execute(cfg, call, env).error.api;
      && ExecuteFlat(cfg, call, env).Failure? && ExecuteFlat(cfg, call, env).error.TextError?
      && var e := ExecuteFlat(cfg, call, env).error.text;
      && (env.parseError(o.body).Some? ==> e == ApiErrorPrefix + a.errorCode + " - " + a.message)
      && (env.parseError(o.body).None? ==> ReadFlatStatusError(e) == Some((a.statusCode, Text(a.responseBody))))
  {
    var o := env.transport(SentRequest(cfg, call, env).value);
    ExecuteStatusFailure(cfg, call, env);
    ReadFlatStatusErrorOf(o.status, o.body);
  }

  /** The root package's `Client`: the same fields and setters as pkg/mlflow's. */
  class Client {
    var baseURL: string
    var authToken: string
    var timeout: int

    function Configuration(): Config
      reads this
    {
      Config(baseURL, authToken, timeout)
    }

    /** NewClient: the normalised base URL, no token, the 30 s timeout. */
    constructor (url: string)
      ensures baseURL == NormalizeBaseURL(url) && authToken == "" && timeout == DefaultTimeout
    {
      var u := url;
      if |u| > 0 && u[|u| - 1] == '/' {
        u := u[..|u| - 1];
      }
      baseURL := u;
      authToken := "";
      timeout := DefaultTimeout;
    }

    method SetAuthToken(token: string)
      modifies this
      ensures authToken == token && baseURL == old(baseURL) && timeout == old(timeout)
    {
      authToken := token;
    }

    method SetTimeout(t: int)
      modifies this
      ensures timeout == t && baseURL == old(baseURL) && authToken == old(authToken)
    {
      timeout := t;
    }

    /** doRequest: as in pkg/mlflow up to the status check; a non-2xx answer becomes formatted text. */
    method DoRequest(call: Call, env: Env) returns (r: Result<Bytes, GoError>)
      ensures r == ExecuteFlat(Configuration(), call, env)
    {
      var payload: Option<Bytes> := None;
      if call.body.Some? {
        var data := env.marshal(call.body.value);
        if data.Failure? {
          return Failure(TextError(MarshalError + data.error));
        }
        payload := Some(data.value);
      }
      var url := baseURL + call.endpoint;
      var bad := env.newRequest(call.verb, url);
      if bad.Some? {
        return Failure(TextError(CreateError + bad.value));
      }
      var headers := map[ContentTypeHeader := JsonMediaType];
      if authToken != "" {
        headers := headers[AuthorizationHeader := BearerCredentials(authToken)];
      }
      var outcome := env.transport(Request(call.verb, url, headers, payload, timeout));
      if outcome.SendFailed? {
        return Failure(TextError(ExecuteError + outcome.reason));
      }
      if outcome.ReadFailed? {
        return Failure(TextError(ReadError + outcome.reason));
      }
      if outcome.status < 200 || outcome.status >= 300 {
        var parsed := env.parseError(outcome.body);
        if parsed.Some? {
          return Failure(TextError(ApiErrorPrefix + parsed.value.errorCode + " - " + parsed.value.message));
        }
        return Failure(TextError(StatusPrefix + FormatInt(outcome.status) + BodySeparator + Text(outcome.body)));
      }
      return Success(outcome.body);
    }

    /** A typed operation with a response: the root doRequest, then json.Unmarshal. */
    method Invoke<T>(call: Call, env: Env, decode: Bytes -> Result<T, string>) returns (r: Result<T, GoError>)
      ensures r == Decoded(ExecuteFlat(Configuration(), call, env), decode)
    {
      var body := DoRequest(call, env);
      if body.Failure? {
        return Failure(body.error);
      }
      var response := decode(body.value);
      if response.Failure? {
        return Failure(TextError(UnmarshalError + response.error));
      }
      return Success(response.value);
    }

    /** A typed operation that returns only an error: the root doRequest's, unchanged. */
    method InvokeNoContent(call: Call, env: Env) returns (err: Option<GoError>)
      ensures err == ErrorOf(ExecuteFlat(Configuration(), call, env))
    {
      var body := DoRequest(call, env);
      if body.Failure? {
        return Some(body.error);
      }
      return None;
    }
  }
}
