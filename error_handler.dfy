/**
 * The global Express error handler of the backend: it classifies a thrown
 * value into an HTTP status and a `{ success, data, error }` body.
 */
module ErrorHandler {
  import opened Common
  import opened Errors

  datatype ResponseBody = ResponseBody(success: bool, data: Value, error: ErrorBody)
  datatype Response = Response(status: int, body: ResponseBody)

  /**
   * `errorHandler(err, ...)`. `production` stands for
   * `process.env.NODE_ENV === 'production'`.
   */
  function HandleError(err: Error, production: bool): (r: Response)
    ensures !r.body.success && r.body.data == Null
    ensures err.AppError? ==> r.status == err.statusCode && r.body.error == ToJSON(err)
    ensures !err.AppError? && err.name == "ZodError" ==>
      r.status == 400 && r.body.error == ErrorBody("VALIDATION_ERROR", "Invalid request data", Some(err.issues))
    ensures !err.AppError? && err.name == "ValidationError" ==>
      r.status == 400 && r.body.error == ErrorBody("VALIDATION_ERROR", err.message, None)
    ensures !err.AppError? && err.name != "ZodError" && err.name != "ValidationError" ==>
      r.status == 500 && r.body.error.code == "INTERNAL_ERROR" && r.body.error.details == None
      && r.body.error.message == (if production then "Internal server error" else err.message)
  {
    var body := (e: ErrorBody) => ResponseBody(false, Null, e);
    if err.AppError? then
      Response(err.statusCode, body(ToJSON(err)))
    else if err.name == "ZodError" then
      Response(400, body(ErrorBody("VALIDATION_ERROR", "Invalid request data", Some(err.issues))))
    else if err.name == "ValidationError" then
      Response(400, body(ErrorBody("VALIDATION_ERROR", err.message, None)))
    else
      Response(500, body(ErrorBody("INTERNAL_ERROR",
                                   if production then "Internal server error" else err.message, None)))
  }

  /** A thrown value outside the AppError family is answered with 400 or 500, nothing else. */
  lemma ForeignErrorStatus(err: Error, production: bool)
    requires !err.AppError?
    ensures HandleError(err, production).status == 400 <==>
      err.name == "ZodError" || err.name == "ValidationError"
    ensures HandleError(err, production).status != 400 ==> HandleError(err, production).status == 500
  {
  }

  /**
   * In production the client never sees the message of an unclassified error:
   * every message it can receive is an AppError's, a validation message or the
   * fixed internal one.
   */
  lemma ProductionHidesInternalMessages(err: Error)
    ensures var m := HandleError(err, true).body.error.message;
      m == "Internal server error" || m == "Invalid request data" || m == err.message
    ensures HandleError(err, true).status == 500 && !err.AppError? ==>
      HandleError(err, true).body.error.message == "Internal server error"
  {
  }

  /** Each subclass, built with its default arguments, answers with its class's status and code. */
  lemma SubclassResponse(c: ErrorClass, production: bool)
    ensures HandleError(Build(c), production).status == StatusOf(c)
    ensures HandleError(Build(c), production).body.error.code == CodeOfStatus(StatusOf(c))
  {
    ClassStatusAndCode(c);
  }

  /** A provider failure reaches the client as 502 with the `service: message` text. */
  lemma ExternalServiceResponse(service: string, message: string, production: bool)
    ensures var r := HandleError(NewExternalServiceError(service, message), production);
      r.status == 502 && r.body.error == ErrorBody("EXTERNAL_SERVICE_ERROR", service + ": " + message, None)
  {
  }
}
