/**
 * The error taxonomy of packages/fnd-errors: the AppError class, its seven
 * subclasses with their fixed HTTP status and error code, and the JSON body
 * an AppError serialises to. Any thrown value outside the family is a
 * PlainError carrying its `name` and `message` (and a ZodError's `issues`).
 */
module Errors {
  import opened Common
  import opened Strs

  /** The class an AppError was constructed with. */
  datatype ErrorClass =
    | Base
    | NotFound
    | Validation
    | Authentication
    | Authorization
    | Conflict
    | RateLimit
    | ExternalService

  datatype Error =
    | AppError(cls: ErrorClass, message: string, statusCode: int, code: string,
               details: Value, isOperational: bool, service: string)
    | PlainError(name: string, message: string, issues: Value)
  {
    /** The `name` property each constructor assigns. */
    function Name(): string {
      match this
      case PlainError(name, _, _) => name
      case AppError(cls, _, _, _, _, _, _) => ClassName(cls)
    }

    /** `err instanceof ExternalServiceError`. */
    predicate IsExternalService() {
      AppError? && cls == ExternalService
    }
  }

  function ClassName(c: ErrorClass): string {
    match c
    case Base => "AppError"
    case NotFound => "NotFoundError"
    case Validation => "ValidationError"
    case Authentication => "AuthenticationError"
    case Authorization => "AuthorizationError"
    case Conflict => "ConflictError"
    case RateLimit => "RateLimitError"
    case ExternalService => "ExternalServiceError"
  }

  /** `new Error(message)`. */
  function PlainErr(message: string): Error {
    PlainError("Error", message, Undefined)
  }

  /** `new AppError(message, statusCode, code, details)` with the constructor's defaults. */
  function NewAppError(message: string, statusCode: int := 500, code: string := "INTERNAL_ERROR",
                       details: Value := Null): (e: Error)
    ensures e.AppError? && e.isOperational && e.message == message && e.details == details
    ensures e.cls == Base && e.statusCode == statusCode && e.code == code
  {
    AppError(Base, message, statusCode, code, details, true, "")
  }

  // ----- the subclasses -----

  function NewNotFoundError(resource: string := "Resource", id: string := ""): (e: Error)
    ensures e.AppError? && e.cls == NotFound
    ensures e.statusCode == StatusOf(e.cls) && e.code == CodeOfStatus(e.statusCode) && e.isOperational
    ensures e.message == resource + (if id != "" then " (" + id + ")" else "") + " not found"
  {
    var message := resource + (if id != "" then " (" + id + ")" else "") + " not found";
    AppError(NotFound, message, 404, "NOT_FOUND", Null, true, "")
  }

  function NewValidationError(message: string := "Validation failed", details: Value := Null): (e: Error)
    ensures e.AppError? && e.cls == Validation && e.message == message && e.details == details
    ensures e.statusCode == StatusOf(e.cls) && e.code == CodeOfStatus(e.statusCode) && e.isOperational
  {
    AppError(Validation, message, 400, "VALIDATION_ERROR", details, true, "")
  }

  function NewAuthenticationError(message: string := "Authentication required"): (e: Error)
    ensures e.AppError? && e.cls == Authentication && e.message == message
    ensures e.statusCode == StatusOf(e.cls) && e.code == CodeOfStatus(e.statusCode) && e.isOperational
  {
    AppError(Authentication, message, 401, "AUTHENTICATION_ERROR", Null, true, "")
  }

  function NewAuthorizationError(message: string := "Insufficient permissions"): (e: Error)
    ensures e.AppError? && e.cls == Authorization && e.message == message
    ensures e.statusCode == StatusOf(e.cls) && e.code == CodeOfStatus(e.statusCode) && e.isOperational
  {
    AppError(Authorization, message, 403, "AUTHORIZATION_ERROR", Null, true, "")
  }

  function NewConflictError(message: string := "Resource conflict"): (e: Error)
    ensures e.AppError? && e.cls == Conflict && e.message == message
    ensures e.statusCode == StatusOf(e.cls) && e.code == CodeOfStatus(e.statusCode) && e.isOperational
  {
    AppError(Conflict, message, 409, "CONFLICT_ERROR", Null, true, "")
  }

  function NewRateLimitError(message: string := "Too many requests"): (e: Error)
    ensures e.AppError? && e.cls == RateLimit && e.message == message
    ensures e.statusCode == StatusOf(e.cls) && e.code == CodeOfStatus(e.statusCode) && e.isOperational
  {
    AppError(RateLimit, message, 429, "RATE_LIMIT_ERROR", Null, true, "")
  }

  function NewExternalServiceError(service: string, message: string := "External service error"): (e: Error)
    ensures e.IsExternalService() && e.service == service
    ensures e.statusCode == StatusOf(e.cls) && e.code == CodeOfStatus(e.statusCode) && e.isOperational
  {
    AppError(ExternalService, service + ": " + message, 502, "EXTERNAL_SERVICE_ERROR", Null, true, service)
  }

  /** Whatever message (and details) a subclass is built with, its status and code are fixed. */
  lemma SubclassStatusAnyMessage(message: string, details: Value, resource: string, id: string, service: string)
    ensures NewValidationError(message, details).statusCode == 400
      && NewValidationError(message, details).code == "VALIDATION_ERROR"
    ensures NewAuthenticationError(message).statusCode == 401
      && NewAuthenticationError(message).code == "AUTHENTICATION_ERROR"
    ensures NewAuthorizationError(message).statusCode == 403
      && NewAuthorizationError(message).code == "AUTHORIZATION_ERROR"
    ensures NewConflictError(message).statusCode == 409 && NewConflictError(message).code == "CONFLICT_ERROR"
    ensures NewRateLimitError(message).statusCode == 429 && NewRateLimitError(message).code == "RATE_LIMIT_ERROR"
    ensures NewNotFoundError(resource, id).statusCode == 404 && NewNotFoundError(resource, id).code == "NOT_FOUND"
    ensures NewExternalServiceError(service, message).statusCode == 502
      && NewExternalServiceError(service, message).code == "EXTERNAL_SERVICE_ERROR"
  {
  }

  /**
   * The subclass built with its own default arguments: the status and code a
   * subclass assigns do not depend on the arguments.
   */
  function Build(c: ErrorClass): Error {
    match c
    case Base => NewAppError("Internal error")
    case NotFound => NewNotFoundError()
    case Validation => NewValidationError()
    case Authentication => NewAuthenticationError()
    case Authorization => NewAuthorizationError()
    case Conflict => NewConflictError()
    case RateLimit => NewRateLimitError()
    case ExternalService => NewExternalServiceError("Service")
  }

  /** The status an error response of each class carries. */
  function StatusOf(c: ErrorClass): int {
    match c
    case Base => 500
    case NotFound => 404
    case Validation => 400
    case Authentication => 401
    case Authorization => 403
    case Conflict => 409
    case RateLimit => 429
    case ExternalService => 502
  }

  /** The error code clients read for each status of the family. */
  function CodeOfStatus(status: int): string {
    match status
    case 404 => "NOT_FOUND"
    case 400 => "VALIDATION_ERROR"
    case 401 => "AUTHENTICATION_ERROR"
    case 403 => "AUTHORIZATION_ERROR"
    case 409 => "CONFLICT_ERROR"
    case 429 => "RATE_LIMIT_ERROR"
    case 502 => "EXTERNAL_SERVICE_ERROR"
    case _ => "INTERNAL_ERROR"
  }

  /**
   * Every class, built with its defaults, has its fixed status and the code
   * that status stands for, and is operational.
   */
  lemma ClassStatusAndCode(c: ErrorClass)
    ensures Build(c).AppError? && Build(c).cls == c && Build(c).isOperational
    ensures Build(c).statusCode == StatusOf(c)
    ensures Build(c).code == CodeOfStatus(StatusOf(c))
  {
  }

  /** Two different classes never share a status, so a response's status names the class. */
  lemma StatusIdentifiesClass(c1: ErrorClass, c2: ErrorClass)
    ensures StatusOf(c1) == StatusOf(c2) ==> c1 == c2
  {
  }

  /** The AppError base defaults: status 500, code INTERNAL_ERROR, no details. */
  lemma AppErrorDefaults(message: string)
    ensures NewAppError(message).statusCode == 500
    ensures NewAppError(message).code == "INTERNAL_ERROR"
    ensures NewAppError(message).details == Null
    ensures NewAppError(message).Name() == "AppError"
  {
  }

  /** NotFoundError names the resource first, the id in parentheses only when given. */
  lemma NotFoundMessage(resource: string, id: string)
    ensures var m := NewNotFoundError(resource, id).message;
      StartsWith(m, resource)
      && (id != "" ==> m == resource + " (" + id + ") not found")
      && (id == "" ==> m == resource + " not found")
    ensures NewNotFoundError(resource, id).statusCode == 404
  {
  }

  /** ExternalServiceError's message is `service: message`, so both parts can be read back. */
  lemma ExternalServiceMessage(service: string, message: string)
    ensures var e := NewExternalServiceError(service, message);
      StartsWith(e.message, service + ": ")
      && e.message[|service| + 2..] == message
      && e.statusCode == 502 && e.code == "EXTERNAL_SERVICE_ERROR"
  {
  }

  // ----- serialisation -----

  /** The `error` part of a response body. */
  datatype ErrorBody = ErrorBody(code: string, message: string, details: Option<Value>)

  /** `AppError.prototype.toJSON`: `details` is present only when it is truthy. */
  function ToJSON(e: Error): (r: ErrorBody)
    requires e.AppError?
    ensures r.code == e.code && r.message == e.message
    ensures r.details.Some? <==> Truthy(e.details)
    ensures r.details.Some? ==> r.details.value == e.details
  {
    ErrorBody(e.code, e.message, if Truthy(e.details) then Some(e.details) else None)
  }
}
