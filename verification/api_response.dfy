/** The uniform response envelope (`ApiResponse`): every endpoint answers
    `{success, message, data}` or `{success, message, errors?}` with a status
    and headers. */
module ApiResponse {
  import opened Base
  import opened ApiErrors
  import Documents
  import UserRepository

  /** A `Set-Cookie` instruction attached to a response. */
  datatype Cookie = Cookie(name: string, value: string, httpOnly: bool, secure: bool, path: string, maxAge: int)

  /** What a handler puts in the envelope's `data`. */
  datatype Payload =
    | Empty                                     // `{}`
    | OneDoc(doc: Documents.Doc)
    | Docs(docs: seq<Documents.Doc>)
    | Account(user: UserRepository.User)        // the user object itself
    | AccountEnvelope(user: UserRepository.User) // `{ user }`

  /** A response: the JSON envelope plus status, headers and an optional
      cookie. `data` is present only on success, `errors` only on failure. */
  datatype Response = Response(
    success: bool,
    message: string,
    data: Option<Payload>,
    errors: Option<seq<string>>,
    status: int,
    headers: Headers,
    cookie: Option<Cookie>)

  const INTERNAL_ERROR: ApiError := NewApiError(500, "Internal Server Error")

  /** `ApiResponse.success(data, message = "Success", statusCode = 200, headers = {})`. */
  function Success(data: Payload, message: string := "Success", statusCode: int := 200, headers: Headers := map[]): (r: Response)
    ensures r.success && r.data == Some(data) && r.errors.None?
    ensures r.message == message && r.status == statusCode
    ensures r.headers == headers && r.cookie.None?
  {
    Response(true, message, Some(data), None, statusCode, headers, None)
  }

  /** `ApiResponse.error(error, headers = {})`: the error's message and
      status; the detail list is sent only when it is non-empty. */
  function Error(error: ApiError, headers: Headers := map[]): (r: Response)
    ensures !r.success && r.data.None? && r.cookie.None?
    ensures r.message == error.message && r.status == error.statusCode
    ensures r.errors.Some? <==> |error.errors| > 0
    ensures r.errors.Some? ==> r.errors.value == error.errors
    ensures r.headers == headers
  {
    Response(false, error.message, None, if |error.errors| > 0 then Some(error.errors) else None,
             error.statusCode, headers, None)
  }

  /** `ApiResponse.handle(error, headers = {})`: an ApiError is answered
      as-is; anything else becomes a bare 500 that reveals nothing. */
  function Handle(thrown: Thrown, headers: Headers := map[]): (r: Response)
    ensures thrown.Api? ==> r == Error(thrown.error, headers)
    ensures thrown.Unexpected? ==> r.status == 500 && r.message == "Internal Server Error"
    ensures thrown.Unexpected? ==> r.errors.None? && r.data.None?
    ensures !r.success && r.headers == headers
  {
    match thrown
    case Api(e) => Error(e, headers)
    case Unexpected(_) => Error(INTERNAL_ERROR, headers)
  }

  /** The 500 answer does not depend on what went wrong, so no internal
      detail reaches the client. */
  lemma HandleHidesDetail(d1: string, d2: string, headers: Headers)
    ensures Handle(Unexpected(d1), headers) == Handle(Unexpected(d2), headers)
  {
  }

  /** The response with a cookie set on it (`response.cookies.set`). */
  function WithCookie(r: Response, c: Cookie): (r': Response)
    ensures r'.cookie == Some(c)
    ensures r'.success == r.success && r'.message == r.message && r'.data == r.data
    ensures r'.errors == r.errors && r'.status == r.status && r'.headers == r.headers
  {
    r.(cookie := Some(c))
  }
}
