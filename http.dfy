/** The parts of an Express response that the handlers decide: status code and JSON error body. */
module Http {
  import opened Wrappers

  /** An error response: HTTP status, the body's `error` field and its optional `message` field. */
  datatype ErrorReply = ErrorReply(status: int, error: string, message: Option<string>)

  /** What a middleware does with a request: pass it on with `next()`, or answer it itself. */
  datatype Guard = Next | Respond(reply: ErrorReply)

  /** The 500 answer every handler gives when its own `try` block throws. */
  const InternalError := ErrorReply(500, "Internal server error", None)
}
