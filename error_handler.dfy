/**
 * The global error middleware: a classification of whatever was thrown into one
 * HTTP status and one error response, tried in the order ZodError, CustomError,
 * a named Error, and the catch-all.
 */
module ErrorHandler {
  import opened Wrappers
  import opened Js
  import opened Errors
  import opened Responses
  import UserValidations

  /** The single `res.status(status).json(body)` write the middleware makes. */
  datatype Reply = Reply(status: int, body: BaseResponse<JsonNull>)

  /** A ZodError raised by a failed parse always carries at least one issue. */
  predicate Handleable(err: Thrown) {
    err.ZodFailure? ==> |err.issues| > 0
  }

  /** The response error built from an application error. */
  function ToApiError(e: CustomError): ApiError {
    ApiError(e.code, e.message, None)
  }

  function HandleError(err: Thrown, now: string): (r: Reply)
    requires Handleable(err)
    ensures r.body.error.Some? && r.body == ErrorResponse(r.body.error.value, now)
    ensures err.ZodFailure? ==>
      r.status == 400 && r.body.error.value == ApiError(VALIDATION_ERROR, err.issues[0], None)
    ensures err.Custom? ==>
      r.status == err.error.statusCode && r.body.error.value == ApiError(err.error.code, err.error.message, None)
    ensures err.PlainError? && err.name == "ValidationError" ==>
      r.status == 400 && r.body.error.value == ApiError(VALIDATION_ERROR, err.message, None)
    ensures err.PlainError? && err.name == "SyntaxError" ==>
      r.status == 400 && r.body.error.value == ApiError(VALIDATION_ERROR, "Invalid JSON format", None)
    ensures err.NonError? || (err.PlainError? && err.name !in {"ValidationError", "SyntaxError"}) ==>
      r.status == 500 && r.body.error.value == ApiError(INTERNAL_ERROR, "Internal Server Error", None)
  {
    match err
    case ZodFailure(issues) =>
      Reply(400, ErrorResponse(ToApiError(BadRequest(issues[0])), now))
    case Custom(e) =>
      Reply(e.statusCode, ErrorResponse(ToApiError(e), now))
    case PlainError(name, message) =>
      if name == "ValidationError" then
        Reply(400, ErrorResponse(ToApiError(BadRequest(message)), now))
      else if name == "SyntaxError" then
        Reply(400, ErrorResponse(ToApiError(BadRequest("Invalid JSON format")), now))
      else
        Reply(500, ErrorResponse(ToApiError(InternalServer("Internal Server Error")), now))
    case NonError(_) =>
      Reply(500, ErrorResponse(ToApiError(InternalServer("Internal Server Error")), now))
  }

  /** The status written is always the status of the CustomError the response was built from. */
  lemma StatusMatchesCode(err: Thrown, now: string)
    requires Handleable(err)
    requires !err.Custom?
    ensures var r := HandleError(err, now);
      InferCodeFromStatus(r.status) == r.body.error.value.code
  {
  }

  /** An application error passes through the handler with its own status, code and message. */
  lemma CustomErrorRoundTrip(e: CustomError, now: string)
    ensures var r := HandleError(Custom(e), now);
      r.status == e.statusCode && r.body.error == Some(ApiError(e.code, e.message, None))
      && r.body.message == Some(e.message) && !r.body.success
  {
  }

  /**
   * A registration whose name is empty is answered 400 with "Name is required":
   * the name schema's first message is the first issue of the register schema,
   * and the handler reports the first issue.
   */
  lemma EmptyNameReply(data: Value, isEmail: string -> bool, now: string)
    requires data.Obj? && Field(data.fields, "name") == Str("")
    ensures UserValidations.RegisterUser(data, isEmail).issues != []
    ensures var r := HandleError(ZodFailure(UserValidations.RegisterUser(data, isEmail).issues), now);
      r.status == 400 && r.body.error == Some(ApiError(VALIDATION_ERROR, "Name is required", None))
  {
    UserValidations.EmptyNameMessages();
    UserValidations.RegisterReportsNameFirst(data, isEmail);
    UserValidations.NameFirstIssue(Str(""));
  }
}
