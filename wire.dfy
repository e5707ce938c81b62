/**
 * What the client does not compute itself: JSON encoding and decoding, one
 * HTTP exchange, and the bounded retry around it. Each is an oracle whose
 * every outcome the client logic must handle; the exchange that both query
 * kinds share (encode, send with retries, decode) is defined once here.
 */
module Wire {
  import opened Wrappers
  import Types

  type Bytes = seq<bv8>

  const MethodPost: string := "POST"
  const StatusOK: int := 200
  const ContentTypeJSON: string := "application/json"

  /** One HTTP POST as the client issues it; it carries no cookies. */
  datatype HttpRequest = HttpRequest(
    verb: string,
    url: string,
    body: Bytes,
    headers: map<string, string>,
    expectedStatus: int)

  /**
   * One attempt of the transport: the response body when the server answered
   * with the expected status, or a failure (network error or another status).
   */
  datatype Attempt = Delivered(body: Bytes) | Failed

  /** Outcomes of JSON encoding and decoding; `None` is an encoding/decoding error. */
  datatype Json = Json(
    marshalQuery: Types.PermissionQueryRequest -> Option<Bytes>,
    marshalFilter: Types.PermissionFilterRequest -> Option<Bytes>,
    unmarshalQuery: Bytes -> Option<Types.PermissionQueryResponse>,
    unmarshalFilter: Bytes -> Option<Types.PermissionFilterResponse>)

  /**
   * The world a query runs in: the codec, the client's User-Agent string, and
   * the network, which maps a request to the outcomes of the attempts that fit
   * in the retry window, in order.
   */
  datatype Env = Env(json: Json, userAgent: string, send: HttpRequest -> seq<Attempt>)

  /** Why a query could not be completed. */
  datatype Error = MarshalFailed | SendFailed | UnmarshalFailed

  /** A single query's outcome: Go's `(bool, error)`. */
  datatype Decision = Decision(allowed: bool, err: Option<Error>)

  /** The context each error is wrapped with. */
  function Message(e: Error): (m: string)
    ensures m != ""
  {
    match e
    case MarshalFailed => "Failed to generate request body"
    case SendFailed => "Failed to send HTTP request to OPA"
    case UnmarshalFailed => "Failed to unmarshal response body"
  }

  /** The POST the client sends to `url`, expecting 200. */
  function PostRequest(url: string, body: Bytes, userAgent: string): (h: HttpRequest)
    ensures h.verb == MethodPost && h.expectedStatus == StatusOK
    ensures h.url == url && h.body == body
    ensures h.headers.Keys == {"Content-Type", "User-Agent"}
    ensures h.headers["Content-Type"] == ContentTypeJSON && h.headers["User-Agent"] == userAgent
  {
    HttpRequest(MethodPost, url, body,
      map["Content-Type" := ContentTypeJSON, "User-Agent" := userAgent], StatusOK)
  }

  /**
   * Retry the exchange until one attempt succeeds: the body of the first
   * delivered attempt, or `None` when every attempt in the window failed.
   */
  function RetryUntilSuccessful(attempts: seq<Attempt>): (r: Option<Bytes>)
    ensures r.None? <==> forall i | 0 <= i < |attempts| :: attempts[i].Failed?
    ensures attempts != [] && attempts[0].Delivered? ==> r == Some(attempts[0].body)
    ensures r.Some? ==> exists i | 0 <= i < |attempts| ::
      attempts[i] == Delivered(r.value) && forall j | 0 <= j < i :: attempts[j].Failed?
  {
    if attempts == [] then None
    else match attempts[0]
      case Delivered(body) => Some(body)
      case Failed =>
        var r := RetryUntilSuccessful(attempts[1..]);
        assert forall i | 1 <= i < |attempts| :: attempts[i] == attempts[1..][i - 1];
        r
  }

  /**
   * Probing is idempotent: attempts that failed before a success do not change
   * what the retrier reports.
   */
  lemma {:induction false} RetrySkipsFailures(failures: seq<Attempt>, rest: seq<Attempt>)
    requires forall i | 0 <= i < |failures| :: failures[i].Failed?
    ensures RetryUntilSuccessful(failures + rest) == RetryUntilSuccessful(rest)
  {
    if failures == [] {
      assert failures + rest == rest;
    } else {
      assert (failures + rest)[0] == failures[0];
      assert (failures + rest)[1..] == failures[1..] + rest;
      RetrySkipsFailures(failures[1..], rest);
    }
  }

  /**
   * Encode `request`, POST it to `url` through the retrier, and decode the
   * body of the first successful attempt. Encoding and decoding errors are
   * not retried.
   */
  function Exchange<Req, Resp>(
    url: string,
    userAgent: string,
    send: HttpRequest -> seq<Attempt>,
    marshal: Req -> Option<Bytes>,
    unmarshal: Bytes -> Option<Resp>,
    request: Req): (r: Result<Resp, Error>)
    ensures r == Failure(MarshalFailed) <==> marshal(request).None?
    ensures r == Failure(SendFailed) <==>
      marshal(request).Some? &&
      RetryUntilSuccessful(send(PostRequest(url, marshal(request).value, userAgent))).None?
    ensures r == Failure(UnmarshalFailed) <==>
      marshal(request).Some? &&
      var body := RetryUntilSuccessful(send(PostRequest(url, marshal(request).value, userAgent)));
      body.Some? && unmarshal(body.value).None?
    ensures r.Success? <==>
      marshal(request).Some? &&
      var body := RetryUntilSuccessful(send(PostRequest(url, marshal(request).value, userAgent)));
      body.Some? && unmarshal(body.value).Some?
    ensures r.Success? ==>
      var body := RetryUntilSuccessful(send(PostRequest(url, marshal(request).value, userAgent)));
      unmarshal(body.value) == Some(r.value)
  {
    match marshal(request)
    case None => Failure(MarshalFailed)
    case Some(requestBody) =>
      match RetryUntilSuccessful(send(PostRequest(url, requestBody, userAgent)))
      case None => Failure(SendFailed)
      case Some(responseBody) =>
        match unmarshal(responseBody)
        case None => Failure(UnmarshalFailed)
        case Some(response) => Success(response)
  }

  /**
   * Retrying is transparent to the exchange: a network whose every request
   * first fails some attempts and then behaves like `send` yields the same
   * outcome as `send` itself.
   */
  lemma ExchangeRetryTransparent<Req, Resp>(
    url: string,
    userAgent: string,
    send: HttpRequest -> seq<Attempt>,
    failures: seq<Attempt>,
    marshal: Req -> Option<Bytes>,
    unmarshal: Bytes -> Option<Resp>,
    request: Req)
    requires forall i | 0 <= i < |failures| :: failures[i].Failed?
    ensures Exchange(url, userAgent, h => failures + send(h), marshal, unmarshal, request)
         == Exchange(url, userAgent, send, marshal, unmarshal, request)
  {
    if marshal(request).Some? {
      RetrySkipsFailures(failures, send(PostRequest(url, marshal(request).value, userAgent)));
    }
  }
}
