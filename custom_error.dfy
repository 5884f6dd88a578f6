/**
 * The application's error taxonomy: error codes, `CustomError` with its
 * status-to-code inference and factories, and the kinds of value that can be
 * thrown through the modelled code.
 */
module Errors {
  import opened Wrappers
  import opened Js

  /** The application error codes, named as the enumeration members they model. */
  datatype ErrorCode =
    | VALIDATION_ERROR | UNAUTHORIZED | FORBIDDEN | NOT_FOUND | DUPLICATE_RESOURCE | INTERNAL_ERROR

  /** An application error: an HTTP status, a message and a code, all fixed at construction. */
  datatype CustomError = CustomError(statusCode: int, message: string, code: ErrorCode)

  /** The code a status implies when none is given. */
  function InferCodeFromStatus(statusCode: int): (c: ErrorCode)
    ensures c == VALIDATION_ERROR <==> statusCode == 400
    ensures c == UNAUTHORIZED <==> statusCode == 401
    ensures c == FORBIDDEN <==> statusCode == 403
    ensures c == NOT_FOUND <==> statusCode == 404
    ensures c == DUPLICATE_RESOURCE <==> statusCode == 409
    ensures c == INTERNAL_ERROR <==> statusCode !in {400, 401, 403, 404, 409}
  {
    match statusCode
    case 400 => VALIDATION_ERROR
    case 401 => UNAUTHORIZED
    case 403 => FORBIDDEN
    case 404 => NOT_FOUND
    case 409 => DUPLICATE_RESOURCE
    case _ => INTERNAL_ERROR
  }

  /** `new CustomError(statusCode, message, code?)` */
  function NewCustomError(statusCode: int, message: string, code: Option<ErrorCode>): (e: CustomError)
    ensures e.statusCode == statusCode && e.message == message
    ensures code.Some? ==> e.code == code.value
    ensures code.None? ==> e.code == InferCodeFromStatus(statusCode)
  {
    CustomError(statusCode, message, if code.Some? then code.value else InferCodeFromStatus(statusCode))
  }

  function BadRequest(message: string, code: Option<ErrorCode> := None): (e: CustomError)
    ensures e.statusCode == 400 && e.message == message
    ensures e.code == code.GetOr(VALIDATION_ERROR)
  {
    NewCustomError(400, message, Some(code.GetOr(VALIDATION_ERROR)))
  }

  function Unauthorized(message: string): (e: CustomError)
    ensures e == CustomError(401, message, UNAUTHORIZED)
  {
    NewCustomError(401, message, Some(UNAUTHORIZED))
  }

  function Forbidden(message: string): (e: CustomError)
    ensures e == CustomError(403, message, FORBIDDEN)
  {
    NewCustomError(403, message, Some(FORBIDDEN))
  }

  function NotFound(message: string): (e: CustomError)
    ensures e == CustomError(404, message, NOT_FOUND)
  {
    NewCustomError(404, message, Some(NOT_FOUND))
  }

  function Conflict(message: string): (e: CustomError)
    ensures e == CustomError(409, message, DUPLICATE_RESOURCE)
  {
    NewCustomError(409, message, Some(DUPLICATE_RESOURCE))
  }

  const DefaultInternalMessage := "Internal Server Error"

  function InternalServer(message: string := DefaultInternalMessage): (e: CustomError)
    ensures e == CustomError(500, message, INTERNAL_ERROR)
  {
    NewCustomError(500, message, Some(INTERNAL_ERROR))
  }

  function DuplicateResource(message: string): (e: CustomError)
    ensures e == CustomError(409, message, DUPLICATE_RESOURCE)
  {
    NewCustomError(409, message, Some(DUPLICATE_RESOURCE))
  }

  function ValidationError(message: string): (e: CustomError)
    ensures e == CustomError(400, message, VALIDATION_ERROR)
  {
    NewCustomError(400, message, Some(VALIDATION_ERROR))
  }

  /**
   * Every factory pairs its status with the very code inference would give that
   * status, so passing the code explicitly never disagrees with leaving it out.
   */
  lemma FactoriesAgreeWithInference(message: string)
    ensures BadRequest(message) == NewCustomError(400, message, None)
    ensures Unauthorized(message) == NewCustomError(401, message, None)
    ensures Forbidden(message) == NewCustomError(403, message, None)
    ensures NotFound(message) == NewCustomError(404, message, None)
    ensures Conflict(message) == NewCustomError(409, message, None)
    ensures InternalServer(message) == NewCustomError(500, message, None)
    ensures DuplicateResource(message) == NewCustomError(409, message, None)
    ensures ValidationError(message) == NewCustomError(400, message, None)
  {
  }

  /** Two pairs of factories are interchangeable. */
  lemma EquivalentFactories(message: string)
    ensures Conflict(message) == DuplicateResource(message)
    ensures ValidationError(message) == BadRequest(message)
  {
  }

  /**
   * What can be thrown (or a promise rejected with) in the modelled code.
   * Of a ZodError only the issue messages are read; any other Error contributes
   * its `name` and `message`.
   */
  datatype Thrown =
    | ZodFailure(issues: seq<string>)
    | Custom(error: CustomError)
    | PlainError(name: string, message: string)
    | NonError(value: Value)
}
