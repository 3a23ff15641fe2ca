/**
 * Error shaping: `createError` builds the error a route hands to `next`, and the
 * global error handler turns any error into the `{error: {...}}` reply with its
 * defaults for status, code and message.
 */
module ErrorHandler {
  import opened Wrappers
  import opened Text

  /** Milliseconds since the epoch; the clock is a parameter of the model. */
  type Time = int

  /** One entry of a VALIDATION_ERROR details array. */
  datatype FieldIssue = FieldIssue(field: string, message: string)

  /**
   * An Error object as it reaches the handler. Errors built by `createError`
   * carry a status and a code; an error thrown anywhere else may carry neither.
   * `details` is an array when present, and arrays are always truthy.
   */
  datatype ErrorObject = ErrorObject(
    statusCode: Option<int>,
    code: Option<string>,
    message: string,
    details: Option<seq<FieldIssue>>)

  /** What a route handler produces: a value for the response, or the error it passes to `next`. */
  datatype Result<+T> = Ok(value: T) | Err(error: ErrorObject) {

    /** The route failed with an error built by `createError(status, code, ...)`. */
    predicate FailsWith(status: int, code: string) {
      Err? && error.statusCode == Some(status) && error.code == Some(code)
    }
  }

  /** `createError(statusCode, code, message, details)`: `details` is attached only when given. */
  function CreateError(statusCode: int, code: string, message: string, details: Option<seq<FieldIssue>>): (e: ErrorObject)
    ensures e.statusCode == Some(statusCode) && e.code == Some(code) && e.message == message
    ensures e.details.Some? <==> details.Some?
    ensures details.Some? ==> e.details.value == details.value
  {
    ErrorObject(Some(statusCode), Some(code), message, details)
  }

  /** The `error` member of every error reply. */
  datatype ErrorBody = ErrorBody(
    code: string,
    message: string,
    timestamp: Time,
    correlationId: string,
    details: Option<seq<FieldIssue>>)

  datatype ErrorReply = ErrorReply(status: int, error: ErrorBody)

  const DefaultStatus := 500
  const DefaultCode := "INTERNAL_SERVER_ERROR"
  const DefaultMessage := "An unexpected error occurred"

  /** `req.headers['x-correlation-id'] || uuidv4()`, with the fresh uuid as a parameter. */
  function CorrelationId(header: Option<string>, generated: string): (id: string)
    ensures Truthy(header) ==> id == header.value
    ensures !Truthy(header) ==> id == generated
  {
    if Truthy(header) then header.value else generated
  }

  /** The global error handler: the reply it sends for `err`. */
  function HandleError(err: ErrorObject, correlationHeader: Option<string>, generated: string, timestamp: Time): (r: ErrorReply)
    ensures err.statusCode.Some? && err.statusCode.value != 0 ==> r.status == err.statusCode.value
    ensures err.statusCode.None? || err.statusCode.value == 0 ==> r.status == DefaultStatus
    ensures Truthy(err.code) ==> r.error.code == err.code.value
    ensures !Truthy(err.code) ==> r.error.code == DefaultCode
    ensures err.message != "" ==> r.error.message == err.message
    ensures err.message == "" ==> r.error.message == DefaultMessage
    ensures r.error.details.Some? <==> err.details.Some?
    ensures r.error.details == err.details
    ensures r.error.timestamp == timestamp
    ensures r.error.correlationId == CorrelationId(correlationHeader, generated)
  {
    var status := if err.statusCode.Some? && err.statusCode.value != 0 then err.statusCode.value else DefaultStatus;
    var code := if Truthy(err.code) then err.code.value else DefaultCode;
    var message := if err.message != "" then err.message else DefaultMessage;
    var body := ErrorBody(code, message, timestamp, CorrelationId(correlationHeader, generated), None);
    ErrorReply(status, if err.details.Some? then body.(details := err.details) else body)
  }

  /** Whatever reaches the handler, the reply has a non-zero status and a non-empty code and message. */
  lemma ReplyNeverBlank(err: ErrorObject, correlationHeader: Option<string>, generated: string, timestamp: Time)
    ensures var r := HandleError(err, correlationHeader, generated, timestamp);
      r.status != 0 && r.error.code != "" && r.error.message != ""
  {
  }

  /**
   * Round trip: an error made by `createError` with a non-zero status, a non-empty
   * code and a non-empty message is replied with exactly those, and its details.
   */
  lemma ShapeCreatedError(status: int, code: string, message: string, details: Option<seq<FieldIssue>>,
                          correlationHeader: Option<string>, generated: string, timestamp: Time)
    requires status != 0 && code != "" && message != ""
    ensures var r := HandleError(CreateError(status, code, message, details), correlationHeader, generated, timestamp);
      && r.status == status
      && r.error.code == code
      && r.error.message == message
      && r.error.details == details
  {
  }
}
