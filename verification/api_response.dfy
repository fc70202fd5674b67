/**
 * The JSON envelope every API helper answers with: `sendSuccess` wraps a
 * value as `{ success: true, data }`, `sendError` wraps a failure as
 * `{ success: false, error: { message, code, details? } }`. Both are pure
 * payload builders; the HTTP status travels beside the payload.
 */
module ApiResponse {
  import opened Wrappers
  import opened JsValues

  /** `ApiErrorPayload`; `details` is `None` when the key is not set. */
  datatype ErrorPayload = ErrorPayload(message: string, code: string, details: Option<JsValue>)

  /** `ApiResponse<T>`; `None` stands for a key that is not set. */
  datatype Envelope<T> = Envelope(success: bool, data: Option<T>, error: Option<ErrorPayload>)

  /** What is handed to `res.status(statusCode).json(...)`. */
  datatype Reply<T> = Reply(status: int, body: Envelope<T>)

  const DefaultSuccessStatus := 200
  const DefaultErrorCode := "INTERNAL_ERROR"
  const DefaultErrorStatus := 500

  /** A parameter with a default value: an omitted argument is replaced by
      the default. */
  function OrDefault<X>(arg: Option<X>, default: X): X
  {
    if arg.Some? then arg.value else default
  }

  /** The two shapes of `ApiResponse<T>` the helpers produce: a success
      carries data and no error, a failure an error and no data. */
  predicate WellFormed<T>(e: Envelope<T>)
  {
    if e.success then e.data.Some? && e.error.None? else e.data.None? && e.error.Some?
  }

  /** `sendSuccess(res, data, statusCode = 200)`. */
  function SendSuccess<T>(data: T, statusCode: Option<int>): (r: Reply<T>)
    ensures WellFormed(r.body) && r.body.success
    ensures r.body.data == Some(data)
    ensures statusCode.None? ==> r.status == 200
    ensures statusCode.Some? ==> r.status == statusCode.value
  {
    Reply(OrDefault(statusCode, DefaultSuccessStatus), Envelope(true, Some(data), None))
  }

  /** `sendError(res, message, code = "INTERNAL_ERROR", statusCode = 500,
      details?)`; an omitted `details` is `Undefined`. */
  function SendError<T>(message: string, code: Option<string>, statusCode: Option<int>, details: JsValue): (r: Reply<T>)
    ensures WellFormed(r.body) && !r.body.success
    ensures r.body.error.Some? && r.body.error.value.message == message
    ensures code.None? ==> r.body.error.Some? && r.body.error.value.code == "INTERNAL_ERROR"
    ensures code.Some? ==> r.body.error.Some? && r.body.error.value.code == code.value
    ensures statusCode.None? ==> r.status == 500
    ensures statusCode.Some? ==> r.status == statusCode.value
    // `details` survives exactly when it is an object, `null` excluded
    ensures r.body.error.Some? && (r.body.error.value.details.Some? <==> details.Object?)
    ensures r.body.error.Some? && r.body.error.value.details.Some? ==> r.body.error.value.details.value == details
  {
    var payload := ErrorPayload(message, OrDefault(code, DefaultErrorCode), None);
    var payload := if Truthy(details) && TypeOf(details) == "object" then payload.(details := Some(details)) else payload;
    Reply(OrDefault(statusCode, DefaultErrorStatus), Envelope(false, None, Some(payload)))
  }
}
