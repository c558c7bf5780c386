/** The OpenAI-style error bodies the gateway answers with. */
module Api {
  /** A JSON field that may be left out, set to null, or hold a string. */
  datatype JsonText = Absent | Null | Text(value: string)

  /** `{error: {message, type, param, code}}`. */
  datatype ErrorBody = ErrorBody(message: string, errorType: string, param: JsonText, code: JsonText)

  /** A JSON error body sent with an HTTP status. */
  datatype ErrorReply = ErrorReply(status: nat, body: ErrorBody)

  function InvalidRequest(message: string, param: string, code: string): ErrorReply {
    ErrorReply(400, ErrorBody(message, "invalid_request_error", Text(param), Text(code)))
  }
}
