/**
 * The HTTP exchange as the client sees it: the request it hands to
 * `http.Client.Do`, and what comes back.
 *
 * Sending and receiving are I/O; a caller of the model supplies them as a
 * function from `Request` to `Outcome` (see `MlflowClient.Env`).
 */
module Http {
  import opened Wrappers
  import opened GoText

  /** An `*http.Request` after its headers are set, with the client's timeout in nanoseconds. */
  datatype Request = Request(verb: string, url: string, headers: map<string, string>, body: Option<Bytes>, timeout: int)

  /** What `HTTPClient.Do` followed by `io.ReadAll` can produce. */
  datatype Outcome =
    | SendFailed(reason: string)           // Do returned an error
    | ReadFailed(reason: string)           // the body could not be read
    | Received(status: int, body: Bytes)   // a status line and the whole body

  /** The 2xx (Successful) class of status codes, section 15.3 of RFC 9110. */
  predicate IsSuccessful(status: int) {
    200 <= status < 300
  }

  const AuthorizationHeader := "Authorization"
  const ContentTypeHeader := "Content-Type"
  const JsonMediaType := "application/json"
  const BearerPrefix := "Bearer "

  /** The `Authorization` value for a bearer token (section 2.1 of RFC 6750). */
  function BearerCredentials(token: string): (v: string)
    ensures |v| == |BearerPrefix| + |token|
    ensures v[..|BearerPrefix|] == BearerPrefix && v[|BearerPrefix|..] == token
  {
    BearerPrefix + token
  }

  /** How a server reads the token back out of an `Authorization` value. */
  function ParseBearer(v: string): Option<string> {
    if |v| >= |BearerPrefix| && v[..|BearerPrefix|] == BearerPrefix then Some(v[|BearerPrefix|..]) else None
  }

  /** A bearer value carries exactly its token, and only bearer values parse. */
  lemma ParseBearerCredentials(token: string, v: string)
    ensures ParseBearer(BearerCredentials(token)) == Some(token)
    ensures ParseBearer(v) == Some(token) ==> v == BearerCredentials(token)
  {
    if ParseBearer(v) == Some(token) {
      assert v == v[..|BearerPrefix|] + v[|BearerPrefix|..];
    }
  }
}
