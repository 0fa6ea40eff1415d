/** The error value business logic raises (the `ApiError` class) and what a
    request handler's `catch` block can receive. */
module ApiErrors {

  /** An expected failure: the HTTP status to answer with, the message shown
      to the client and an optional list of detail messages. */
  datatype ApiError = ApiError(statusCode: int, message: string, errors: seq<string>) {
    /** Every ApiError carries `success: false`. */
    const success: bool := false
  }

  const DEFAULT_MESSAGE: string := "Something went wrong"

  /** The `ApiError` constructor with its default arguments: message
      "Something went wrong" and no detail messages. */
  function NewApiError(statusCode: int, message: string := DEFAULT_MESSAGE, errors: seq<string> := []): (e: ApiError)
    ensures e.statusCode == statusCode && e.message == message && e.errors == errors
    ensures !e.success
  {
    ApiError(statusCode, message, errors)
  }

  /** Omitting the optional arguments gives the documented defaults. */
  lemma NewApiErrorDefaults(statusCode: int)
    ensures NewApiError(statusCode).message == "Something went wrong"
    ensures NewApiError(statusCode).errors == []
    ensures NewApiError(statusCode, "m").errors == []
  {
  }

  /** What a `catch` receives: an ApiError, or any other exception (a
      database failure, malformed JSON, a type error), of which the model
      keeps only a description. */
  datatype Thrown = Api(error: ApiError) | Unexpected(detail: string)
}
