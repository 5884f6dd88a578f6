/** The JSON response envelopes of the HTTP API and the three ways they are built. */
module Responses {
  import opened Wrappers
  import opened Js
  import opened Errors

  datatype PaginationMeta = PaginationMeta(page: real, limit: real, total: real, totalPages: real)

  datatype Meta = Meta(timestamp: string, requestId: Option<string>, pagination: Option<PaginationMeta>)

  /** The error object a response carries. */
  datatype ApiError = ApiError(code: ErrorCode, message: string, details: Option<Value>)

  /** The JSON `null`. */
  datatype JsonNull = JsonNull

  /** A response body; every field but `success` may be absent. */
  datatype BaseResponse<T> = BaseResponse(
    success: bool,
    data: Option<T>,
    message: Option<string>,
    error: Option<ApiError>,
    meta: Option<Meta>)

  /** `meta.timestamp` is present and is the given instant. */
  predicate StampedAt<T>(r: BaseResponse<T>, now: string) {
    r.meta.Some? && r.meta.value.timestamp == now
  }

  /** A successful response carrying `data` and `message` unchanged. */
  function SuccessResponse<T>(data: T, message: string, now: string): (r: BaseResponse<T>)
    ensures r.success && r.data == Some(data) && r.message == Some(message) && r.error.None?
    ensures StampedAt(r, now) && r.meta.value.pagination.None?
  {
    BaseResponse(true, Some(data), Some(message), None, Some(Meta(now, None, None)))
  }

  /** A failed response: null data, the error's message, and the error itself. */
  function ErrorResponse(apiError: ApiError, now: string): (r: BaseResponse<JsonNull>)
    ensures !r.success && r.data == Some(JsonNull)
    ensures r.error == Some(apiError) && r.message == Some(apiError.message)
    ensures StampedAt(r, now) && r.meta.value.pagination.None?
  {
    BaseResponse(false, Some(JsonNull), Some(apiError.message), Some(apiError), Some(Meta(now, None, None)))
  }

  /** A successful page: the list and the pagination metadata, with no message and no error. */
  function PaginatedResponse<T>(data: seq<T>, pagination: PaginationMeta, now: string): (r: BaseResponse<seq<T>>)
    ensures r.success && r.data == Some(data) && r.message.None? && r.error.None?
    ensures StampedAt(r, now) && r.meta.value.pagination == Some(pagination)
  {
    BaseResponse(true, Some(data), None, None, Some(Meta(now, None, Some(pagination))))
  }

  /** Every response the factory builds tells success from failure by the presence of an error. */
  lemma SuccessIffNoError<T>(data: T, items: seq<T>, message: string, e: ApiError, p: PaginationMeta, now: string)
    ensures SuccessResponse(data, message, now).success == SuccessResponse(data, message, now).error.None?
    ensures PaginatedResponse(items, p, now).success == PaginatedResponse(items, p, now).error.None?
    ensures ErrorResponse(e, now).success == ErrorResponse(e, now).error.None?
  {
  }
}
