/** The application's error classes and the terminal error-mapping stage
    (backend/src/middleware/error.middleware.ts). */
module Errors {
  import opened Base
  import opened Zod

  /** Which class an application error was constructed from (`instanceof`). */
  datatype ErrorClass =
    | BaseAppError
    | ValidationErrorClass
    | AuthenticationErrorClass
    | AuthorizationErrorClass
    | NotFoundErrorClass
    | ConflictErrorClass
    | DatabaseErrorClass

  /** An `AppError`: message, HTTP status, machine-readable code, and the operational flag. */
  datatype AppError = AppError(cls: ErrorClass, message: string, statusCode: int, code: string, isOperational: bool)

  function OrDefault<T>(o: Option<T>, d: T): T
  {
    if o.Some? then o.value else d
  }

  /** `new AppError(message, statusCode = 500, code = 'INTERNAL_ERROR', isOperational = true)`. */
  function NewAppError(message: string, statusCode: Option<int>, code: Option<string>, isOperational: Option<bool>): AppError
  {
    AppError(BaseAppError, message, OrDefault(statusCode, 500), OrDefault(code, "INTERNAL_ERROR"), OrDefault(isOperational, true))
  }

  function ValidationError(message: Option<string>): AppError
  {
    AppError(ValidationErrorClass, OrDefault(message, "Validation failed"), 400, "VALIDATION_ERROR", true)
  }

  function AuthenticationError(message: Option<string>): AppError
  {
    AppError(AuthenticationErrorClass, OrDefault(message, "Authentication required"), 401, "AUTHENTICATION_ERROR", true)
  }

  function AuthorizationError(message: Option<string>): AppError
  {
    AppError(AuthorizationErrorClass, OrDefault(message, "Permission denied"), 403, "AUTHORIZATION_ERROR", true)
  }

  function NotFoundError(message: Option<string>): AppError
  {
    AppError(NotFoundErrorClass, OrDefault(message, "Resource not found"), 404, "NOT_FOUND", true)
  }

  function ConflictError(message: Option<string>): AppError
  {
    AppError(ConflictErrorClass, OrDefault(message, "Resource already exists"), 409, "CONFLICT", true)
  }

  function DatabaseError(message: Option<string>): AppError
  {
    AppError(DatabaseErrorClass, OrDefault(message, "Database operation failed"), 500, "DATABASE_ERROR", true)
  }

  /** Each subclass fixes its status and code, keeps the given message (or its
      default), and is operational; the base class defaults to 500/INTERNAL_ERROR. */
  lemma SubclassTable(m: Option<string>)
    ensures var e := ValidationError(m); e.statusCode == 400 && e.code == "VALIDATION_ERROR"
    ensures var e := AuthenticationError(m); e.statusCode == 401 && e.code == "AUTHENTICATION_ERROR"
    ensures var e := AuthorizationError(m); e.statusCode == 403 && e.code == "AUTHORIZATION_ERROR"
    ensures var e := NotFoundError(m); e.statusCode == 404 && e.code == "NOT_FOUND"
    ensures var e := ConflictError(m); e.statusCode == 409 && e.code == "CONFLICT"
    ensures var e := DatabaseError(m); e.statusCode == 500 && e.code == "DATABASE_ERROR"
    ensures m.Some? ==> NotFoundError(m).message == m.value && DatabaseError(m).message == m.value
    ensures m.None? ==> NotFoundError(m).message == "Resource not found" && DatabaseError(m).message == "Database operation failed"
    ensures ValidationError(m).isOperational && DatabaseError(m).isOperational
    ensures forall msg :: NewAppError(msg, None, None, None) == AppError(BaseAppError, msg, 500, "INTERNAL_ERROR", true)
  {
  }

  /** Anything a handler can throw or pass to `next(error)`. */
  datatype Thrown =
    | AppThrown(err: AppError)
      /** An instance of the validation library's error (its name is 'ZodError'). */
    | ZodThrown(issues: seq<Issue>)
      /** Any other error: its name, message and, for database errors, the vendor fields. */
    | OtherThrown(name: string, message: string, code: Option<string>, constraint: Option<string>, column: Option<string>)

  /** The optional `details` member of an error response. */
  datatype Details =
    | NoDetails
    | IssueDetails(issues: seq<Issue>)
    | ConstraintDetails(constraint: Option<string>)
    | ColumnDetails(column: Option<string>)

  datatype ErrorResponse = ErrorResponse(
    success: bool,
    error: string,
    code: string,
    statusCode: int,
    stack: Option<string>,
    details: Details)

  /** The classification chain's outcome before it is put in the response. */
  datatype Classified = Classified(statusCode: int, code: string, message: string, details: Details)

  predicate Truthy(s: Option<string>)
  {
    s.Some? && s.value != ""
  }

  /** The vendor error-code table of the database branch. */
  function PostgresClass(code: string, constraint: Option<string>, column: Option<string>): Classified
  {
    if code == "23505" then Classified(409, "CONFLICT", "Resource already exists", ConstraintDetails(constraint))
    else if code == "23503" then Classified(400, "FOREIGN_KEY_VIOLATION", "Referenced resource does not exist", NoDetails)
    else if code == "23514" then Classified(400, "CONSTRAINT_VIOLATION", "Data validation failed", ConstraintDetails(constraint))
    else if code == "23502" then Classified(400, "MISSING_REQUIRED_FIELD", "Required field is missing", ColumnDetails(column))
    else Classified(500, "DATABASE_ERROR", "Database operation failed", NoDetails)
  }

  /** The branch chain of the handler: application error, then anything named
      'ZodError', then anything with a truthy `code`, then the generic case. */
  function Classify(err: Thrown): Classified
  {
    match err
    case AppThrown(e) => Classified(e.statusCode, e.code, e.message, NoDetails)
    case ZodThrown(issues) => Classified(400, "VALIDATION_ERROR", "Request validation failed", IssueDetails(issues))
    case OtherThrown(name, message, code, constraint, column) =>
      if name == "ZodError" then Classified(400, "VALIDATION_ERROR", "Request validation failed", NoDetails)
      else if Truthy(code) then PostgresClass(code.value, constraint, column)
      else Classified(500, "INTERNAL_ERROR", if message != "" then message else "An unexpected error occurred", NoDetails)
  }

  /** The error handler's JSON body: never a success, always the classified
      status, code and message, the stack only in development. */
  function ErrorHandler(err: Thrown, stack: Option<string>, nodeEnv: Option<string>): (r: ErrorResponse)
    ensures !r.success
    ensures r.stack == (if nodeEnv == Some("development") then stack else None)
    ensures r.statusCode in {400, 409, 500} || err.AppThrown?
  {
    var c := Classify(err);
    ErrorResponse(false, c.message, c.code, c.statusCode,
                  if nodeEnv == Some("development") then stack else None,
                  c.details)
  }

  /** An application error keeps its own status, code and message and carries no details. */
  lemma AppErrorsKeepTheirFields(e: AppError, stack: Option<string>, env: Option<string>)
    ensures var r := ErrorHandler(AppThrown(e), stack, env);
      r.statusCode == e.statusCode && r.code == e.code && r.error == e.message && r.details == NoDetails
  {
  }

  /** The database branch: one entry per vendor code, everything else a 500. */
  lemma PostgresCodeTable(name: string, message: string, code: string, constraint: Option<string>, column: Option<string>)
    requires name != "ZodError" && code != ""
    ensures var r := ErrorHandler(OtherThrown(name, message, Some(code), constraint, column), None, None);
      && (code == "23505" ==> r.statusCode == 409 && r.code == "CONFLICT" && r.details == ConstraintDetails(constraint))
      && (code == "23503" ==> r.statusCode == 400 && r.code == "FOREIGN_KEY_VIOLATION" && r.details == NoDetails)
      && (code == "23514" ==> r.statusCode == 400 && r.code == "CONSTRAINT_VIOLATION" && r.details == ConstraintDetails(constraint))
      && (code == "23502" ==> r.statusCode == 400 && r.code == "MISSING_REQUIRED_FIELD" && r.details == ColumnDetails(column))
      && (code !in {"23505", "23503", "23514", "23502"} ==> r.statusCode == 500 && r.code == "DATABASE_ERROR" && r.details == NoDetails)
  {
  }

  /** A generic error keeps 500/INTERNAL_ERROR and shows its own message when it has one. */
  lemma GenericErrorMessage(name: string, message: string, code: Option<string>)
    requires name != "ZodError" && !Truthy(code)
    ensures var r := ErrorHandler(OtherThrown(name, message, code, None, None), None, None);
      && r.statusCode == 500 && r.code == "INTERNAL_ERROR" && r.details == NoDetails
      && r.error == (if message == "" then "An unexpected error occurred" else message)
  {
  }

  /** The name test comes before the code test: a 'ZodError' that also carries a
      database code is still a validation failure. */
  lemma ZodNameBeatsCode(message: string, code: Option<string>, constraint: Option<string>)
    ensures var r := ErrorHandler(OtherThrown("ZodError", message, code, constraint, None), None, None);
      r.statusCode == 400 && r.code == "VALIDATION_ERROR" && r.error == "Request validation failed"
  {
  }

  /** A thrown validation error lists its issues as details, even an empty list. */
  lemma ZodIssuesAreDetails(issues: seq<Issue>)
    ensures ErrorHandler(ZodThrown(issues), None, None).details == IssueDetails(issues)
  {
  }

  /** The 404 fallback: forwards a not-found error naming the route. */
  function NotFoundHandler(verb: string, path: string): (e: Thrown)
    ensures e.AppThrown? && e.err.cls == NotFoundErrorClass
    ensures e.err.message == "Route " + verb + " " + path + " not found"
  {
    AppThrown(NotFoundError(Some("Route " + verb + " " + path + " not found")))
  }

  /** An unknown route therefore answers 404 NOT_FOUND with that message. */
  lemma UnknownRouteAnswers404(verb: string, path: string, stack: Option<string>, env: Option<string>)
    ensures var r := ErrorHandler(NotFoundHandler(verb, path), stack, env);
      r.statusCode == 404 && r.code == "NOT_FOUND" && r.error == "Route " + verb + " " + path + " not found"
  {
  }
}
