/**
 * backend/pkg/errors/errors.go: the application's typed errors, the HTTP
 * status each type maps to, and the fallbacks for errors of other kinds.
 */
module AppErrors {
  import opened Wrappers

  /** `AppErrorType`, a Go string type; any string can be used as a type. */
  type ErrorType = string

  const ValidationError: ErrorType := "VALIDATION_ERROR"
  const NotFoundError: ErrorType := "NOT_FOUND_ERROR"
  const ConflictError: ErrorType := "CONFLICT_ERROR"
  const UnauthorizedError: ErrorType := "UNAUTHORIZED_ERROR"
  const ForbiddenError: ErrorType := "FORBIDDEN_ERROR"
  const InternalError: ErrorType := "INTERNAL_ERROR"
  const BadRequestError: ErrorType := "BAD_REQUEST_ERROR"
  const ServiceUnavailable: ErrorType := "SERVICE_UNAVAILABLE_ERROR"

  /** The seven types with a status of their own. */
  const MappedTypes: set<ErrorType> := {
    ValidationError, NotFoundError, ConflictError, UnauthorizedError,
    ForbiddenError, BadRequestError, ServiceUnavailable }

  /**
   * A Go `error` value: an `*AppError`, an error of some other kind carrying
   * only its text, or an error that wraps another one (`fmt.Errorf` with `%w`)
   * and whose text is given in full.
   */
  datatype Error =
    | App(app: AppError)
    | Plain(text: string)
    | Wrapped(text: string, cause: Error)

  datatype AppError = AppError(
    errorType: ErrorType,
    message: string,
    details: string,
    statusCode: int,
    err: Option<Error>)

  /** The switch of NewAppError. */
  function StatusFor(t: ErrorType): int {
    if t == ValidationError then 400
    else if t == NotFoundError then 404
    else if t == ConflictError then 409
    else if t == UnauthorizedError then 401
    else if t == ForbiddenError then 403
    else if t == BadRequestError then 400
    else if t == ServiceUnavailable then 503
    else 500
  }

  /**
   * `NewAppError(t, message, details, err)`: the arguments are kept as given and
   * the status follows the type: 400 for validation and bad request, 404, 409,
   * 401, 403 and 503 for their types, 500 for every other type.
   */
  function NewAppError(t: ErrorType, message: string, details: string, err: Option<Error>): (e: AppError)
    ensures e.errorType == t && e.message == message && e.details == details && e.err == err
    ensures t == ValidationError || t == BadRequestError ==> e.statusCode == 400
    ensures t == NotFoundError ==> e.statusCode == 404
    ensures t == ConflictError ==> e.statusCode == 409
    ensures t == UnauthorizedError ==> e.statusCode == 401
    ensures t == ForbiddenError ==> e.statusCode == 403
    ensures t == ServiceUnavailable ==> e.statusCode == 503
    ensures t !in MappedTypes ==> e.statusCode == 500
  {
    AppError(t, message, details, StatusFor(t), err)
  }

  /** Only unmapped types answer 500, and every status is one of seven codes. */
  lemma StatusCodes(t: ErrorType)
    ensures StatusFor(t) == 500 <==> t !in MappedTypes
    ensures StatusFor(t) in {400, 401, 403, 404, 409, 500, 503}
  {
  }

  function NewValidationError(message: string, details: string): AppError {
    NewAppError(ValidationError, message, details, None)
  }

  /** `NewNotFoundError(resource)`: "<resource> not found", status 404, nothing wrapped. */
  function NewNotFoundError(resource: string): (e: AppError)
    ensures e.errorType == NotFoundError && e.statusCode == 404
    ensures e.message == resource + " not found" && e.details == "" && e.err == None
  {
    NewAppError(NotFoundError, resource + " not found", "", None)
  }

  function NewConflictError(message: string): AppError {
    NewAppError(ConflictError, message, "", None)
  }

  function NewUnauthorizedError(message: string): AppError {
    NewAppError(UnauthorizedError, message, "", None)
  }

  function NewForbiddenError(message: string): AppError {
    NewAppError(ForbiddenError, message, "", None)
  }

  function NewBadRequestError(message: string, details: string): AppError {
    NewAppError(BadRequestError, message, details, None)
  }

  function NewInternalError(message: string, err: Option<Error>): AppError {
    NewAppError(InternalError, message, "", err)
  }

  function NewServiceUnavailableError(message: string): AppError {
    NewAppError(ServiceUnavailable, message, "", None)
  }

  /** The constructors set the type, status and fields their names promise. */
  lemma ConstructorsStatus(message: string, details: string, err: Option<Error>)
    ensures NewValidationError(message, details) == AppError(ValidationError, message, details, 400, None)
    ensures NewConflictError(message) == AppError(ConflictError, message, "", 409, None)
    ensures NewUnauthorizedError(message) == AppError(UnauthorizedError, message, "", 401, None)
    ensures NewForbiddenError(message) == AppError(ForbiddenError, message, "", 403, None)
    ensures NewBadRequestError(message, details) == AppError(BadRequestError, message, details, 400, None)
    ensures NewInternalError(message, err) == AppError(InternalError, message, "", 500, err)
    ensures NewServiceUnavailableError(message) == AppError(ServiceUnavailable, message, "", 503, None)
  {
  }

  /** `err.Error()` for any error value. */
  function ErrorText(e: Error): string {
    match e
    case App(a) => AppErrorText(a)
    case Plain(text) => text
    case Wrapped(text, _) => text
  }

  /** `(*AppError).Error()`: "Type: Message", followed by " - " and the wrapped error's text when there is one. */
  function AppErrorText(a: AppError): string {
    match a.err
    case Some(inner) => a.errorType + ": " + a.message + " - " + ErrorText(inner)
    case None => a.errorType + ": " + a.message
  }

  /** The text of an application error starts with its type and message, and ends with the wrapped error's text. */
  lemma AppErrorTextShape(a: AppError)
    ensures a.errorType + ": " + a.message <= AppErrorText(a)
    ensures a.err == None ==> AppErrorText(a) == a.errorType + ": " + a.message
    ensures a.err != None ==>
      var tail := " - " + ErrorText(a.err.value);
      |AppErrorText(a)| == |a.errorType| + 2 + |a.message| + |tail| &&
      AppErrorText(a)[|AppErrorText(a)| - |tail|..] == tail
  {
  }

  /** `(*AppError).Unwrap()`. */
  function Unwrap(a: AppError): Option<Error> {
    a.err
  }

  /** `IsAppError(err)` (`errors.As`): the first application error along the unwrap chain, if any. */
  function AsAppError(e: Error): Option<AppError> {
    match e
    case App(a) => Some(a)
    case Plain(_) => None
    case Wrapped(_, cause) => AsAppError(cause)
  }

  /** `GetStatusCode(err)`: the application error's status, 500 when the chain has none. */
  function GetStatusCode(e: Error): (code: int)
    ensures AsAppError(e) == None ==> code == 500
  {
    match AsAppError(e)
    case Some(a) => a.statusCode
    case None => 500
  }

  /** `GetErrorType(err)`: the application error's type, INTERNAL_ERROR when the chain has none. */
  function GetErrorType(e: Error): (t: ErrorType)
    ensures AsAppError(e) == None ==> t == InternalError
  {
    match AsAppError(e)
    case Some(a) => a.errorType
    case None => InternalError
  }

  /** An error wrapped with `%w` any number of times. */
  function WrapTimes(e: Error, texts: seq<string>): Error {
    if texts == [] then e else Wrapped(texts[0], WrapTimes(e, texts[1..]))
  }

  /**
   * Wrapping with `%w` does not hide an application error: through any number
   * of wrappers, the status and type are those of the application error, as
   * NewAppError set them.
   */
  lemma {:induction false} WrappedAppErrorKeepsStatus(t: ErrorType, message: string, details: string,
                                                      err: Option<Error>, texts: seq<string>)
    ensures var e := WrapTimes(App(NewAppError(t, message, details, err)), texts);
      GetStatusCode(e) == StatusFor(t) && GetErrorType(e) == t
  {
    if texts != [] {
      WrappedAppErrorKeepsStatus(t, message, details, err, texts[1..]);
    }
  }

  /** `WrapValidationError(err, message)`: a validation error whose details are err's text and which wraps err. */
  function WrapValidationError(err: Error, message: string): (e: AppError)
    ensures e.errorType == ValidationError && e.statusCode == 400
    ensures e.message == message && e.details == ErrorText(err) && e.err == Some(err)
  {
    NewAppError(ValidationError, message, ErrorText(err), Some(err))
  }

  /** `WrapInternalError(err, message)`: always status 500, wrapping err. */
  function WrapInternalError(err: Error, message: string): (e: AppError)
    ensures e.errorType == InternalError && e.statusCode == 500
    ensures e.message == message && e.details == "" && e.err == Some(err)
  {
    NewAppError(InternalError, message, "", Some(err))
  }

  /** Even when err is itself an application error, the wrapper found first answers 500. */
  lemma WrapInternalErrorHidesInnerStatus(inner: AppError, message: string)
    ensures GetStatusCode(App(WrapInternalError(App(inner), message))) == 500
    ensures Unwrap(WrapInternalError(App(inner), message)) == Some(App(inner))
  {
  }
}
