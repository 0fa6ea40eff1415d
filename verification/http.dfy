/** What every request handler shares: the request as a handler reads it,
    the rate-limit verdict and its headers, the access-token check, and the
    step from a handler's outcome to its response. */
module Http {
  import opened Base
  import opened ApiErrors
  import opened ApiResponse
  import opened Effects
  import opened Security

  /** The rate limiter's answer for one request: whether it may proceed,
      the limit, the calls left and when the window resets. */
  datatype Verdict = Verdict(success: bool, limit: int, remaining: int, reset: int)

  /** The limiter a handler consults, as a function of the client
      identifier; the scope and limit a handler asks for are part of it. */
  type Limiter = string -> Verdict

  /** A request as the handlers read it: the client address if known, the
      `accessToken` cookie if set, the JSON body (`None` when `req.json()`
      throws or yields something destructuring cannot read), the URL's
      query parameters and the URL's origin. */
  datatype Request = Request(
    ip: Option<string>,
    accessToken: Option<string>,
    body: Option<map<string, Value>>,
    query: map<string, string>,
    origin: string)

  /** A handler's response, the store afterwards and the emails sent. */
  datatype Reply<+S> = Reply(response: Response, state: S, mail: seq<Email>)

  const TOO_MANY_REQUESTS: ApiError := NewApiError(429, "Too many requests. Please try again later.")
  const NO_TOKEN: ApiError := NewApiError(401, "Authentication token not provided.")
  const BAD_TOKEN: ApiError := NewApiError(401, "Invalid or expired authentication token.")
  const DEFAULT_IP: string := "127.0.0.1"

  /** `req.ip ?? '127.0.0.1'`. */
  function Identifier(req: Request): (id: string)
    ensures req.ip.None? ==> id == DEFAULT_IP
    ensures req.ip.Some? ==> id == req.ip.value
  {
    match req.ip
    case None => DEFAULT_IP
    case Some(ip) => ip
  }

  /** `getRateLimitHeaders(result)`: the verdict's numbers as decimal strings. */
  function RateLimitHeaders(v: Verdict): (h: Headers)
    ensures h.Keys == {"X-RateLimit-Limit", "X-RateLimit-Remaining", "X-RateLimit-Reset"}
  {
    map["X-RateLimit-Limit" := IntToString(v.limit),
        "X-RateLimit-Remaining" := IntToString(v.remaining),
        "X-RateLimit-Reset" := IntToString(v.reset)]
  }

  /** The headers carry the verdict's numbers faithfully: reading them back
      as decimals gives the limit, the remaining calls and the reset time. */
  lemma RateLimitHeadersRoundTrip(v: Verdict)
    ensures var h := RateLimitHeaders(v);
      && |h["X-RateLimit-Limit"]| >= 1 && ParseInt(h["X-RateLimit-Limit"]) == v.limit
      && |h["X-RateLimit-Remaining"]| >= 1 && ParseInt(h["X-RateLimit-Remaining"]) == v.remaining
      && |h["X-RateLimit-Reset"]| >= 1 && ParseInt(h["X-RateLimit-Reset"]) == v.reset
  {
    IntToStringRoundTrip(v.limit);
    IntToStringRoundTrip(v.remaining);
    IntToStringRoundTrip(v.reset);
  }

  /** The request carries a non-empty `accessToken` cookie. */
  predicate HasToken(req: Request) {
    req.accessToken.Some? && req.accessToken.value != ""
  }

  /** `getUserIdFromToken(req)`: the user id a genuine token names. */
  function UserIdFromToken(jwt: Jwt, req: Request): (r: Result<string, Thrown>)
    ensures !HasToken(req) ==> r == Err(Api(NO_TOKEN))
    ensures HasToken(req) && VerifiedUserId(jwt, req.accessToken.value).None? ==> r == Err(Api(BAD_TOKEN))
    ensures r.Ok? <==> HasToken(req) && VerifiedUserId(jwt, req.accessToken.value).Some?
    ensures r.Ok? ==> VerifiedUserId(jwt, req.accessToken.value) == Some(r.value) && r.value != ""
  {
    if !HasToken(req) then Err(Api(NO_TOKEN))
    else
      match VerifiedUserId(jwt, req.accessToken.value)
      case None => Err(Api(BAD_TOKEN))
      case Some(userId) => Ok(userId)
  }

  /** The rate limit, then the token: the caller's id or the first refusal. */
  function Admit(v: Verdict, jwt: Jwt, req: Request): (r: Result<string, Thrown>)
    ensures !v.success ==> r == Err(Api(TOO_MANY_REQUESTS))
    ensures v.success ==> r == UserIdFromToken(jwt, req)
    ensures r.Ok? <==> v.success && HasToken(req) && VerifiedUserId(jwt, req.accessToken.value).Some?
  {
    if !v.success then Err(Api(TOO_MANY_REQUESTS)) else UserIdFromToken(jwt, req)
  }

  /** The verdict the limiter gives this request's client. */
  function VerdictFor(limiter: Limiter, req: Request): Verdict {
    limiter(Identifier(req))
  }

  /** The gate a protected handler passes before it reads the body. */
  function Caller(limiter: Limiter, jwt: Jwt, req: Request): Result<string, Thrown> {
    Admit(VerdictFor(limiter, req), jwt, req)
  }

  /** What `req.json()` throws for a body that is not a JSON object. */
  const MALFORMED_BODY: Thrown := Unexpected("SyntaxError: request body is not a JSON object")

  /** The service's result as a payload. */
  function Lift<T, S>(step: Step<T, S>, wrap: T -> Payload): (r: Step<Payload, S>)
    ensures r.state == step.state && r.mail == step.mail
    ensures r.result.Ok? <==> step.result.Ok?
    ensures r.result.Ok? ==> r.result.value == wrap(step.result.value)
    ensures r.result.Err? ==> r.result.error == step.result.error
  {
    match step.result
    case Ok(v) => Step(Ok(wrap(v)), step.state, step.mail)
    case Err(e) => Step(Err(e), step.state, step.mail)
  }

  /** The `try`/`catch` around a handler: success answers with `message`
      and `status`, anything thrown goes through `ApiResponse.handle`, and
      both carry the same rate-limit headers. */
  function Answer<S>(headers: Headers, step: Step<Payload, S>, message: string, status: int): (r: Reply<S>)
    ensures r.state == step.state && r.mail == step.mail
    ensures r.response.headers == headers && r.response.cookie.None?
    ensures r.response.success <==> step.result.Ok?
    ensures step.result.Ok? ==> r.response == Success(step.result.value, message, status, headers)
    ensures step.result.Err? ==> r.response == Handle(step.result.error, headers)
  {
    match step.result
    case Ok(p) => Reply(Success(p, message, status, headers), step.state, step.mail)
    case Err(e) => Reply(Handle(e, headers), step.state, step.mail)
  }

  /** The reply to a request the limiter turned away: a 429 with the
      verdict's headers and nothing changed. */
  function Throttled<S>(v: Verdict, state: S): (r: Reply<S>)
    ensures r.response.status == 429 && !r.response.success
    ensures r.response.message == "Too many requests. Please try again later."
    ensures r.response.headers == RateLimitHeaders(v)
    ensures r.state == state && r.mail == []
  {
    Reply(Handle(Api(TOO_MANY_REQUESTS), RateLimitHeaders(v)), state, [])
  }

  /** `new URL(req.url).searchParams.get(key) || undefined`. */
  function Param(req: Request, key: string): (r: Option<string>)
    ensures r.Some? <==> key in req.query && req.query[key] != ""
    ensures r.Some? ==> r.value == req.query[key]
  {
    if key in req.query && req.query[key] != "" then Some(req.query[key]) else None
  }

  /** The value of a truthy body field. */
  function Text(v: Option<Value>): string
    requires Truthy(v)
  {
    v.value.s
  }
}
