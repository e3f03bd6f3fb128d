/** The global exception filter: it classifies whatever was thrown, maps it to an
    error envelope, and answers with that envelope's status code. The filter is
    registered application-wide, so every failure of every route goes through `Catch`. */
module ExceptionFilter {
  import opened Domain
  import opened ResponseHelper

  /** What `HttpException.getResponse()` returns: a string, or an object whose
      `message` member is read. */
  datatype HttpExceptionResponse =
    | TextResponse(text: string)
    | ObjectResponse(message: Option<string>, otherFields: map<string, Json>)

  /** The thrown values the filter distinguishes. `className` is `exception.constructor.name`.
      Whether a Prisma validation error carries a `code` property is a fact about the
      Prisma library, so it is a field here. `ownFields` are the error object's enumerable
      own properties: the only ones `JSON.stringify` writes. An `Error`'s `message` and
      `stack` are not enumerable and its `name` is inherited, so a plain `Error` has none. */
  datatype Exception =
    | HttpException(className: string, status: int, message: string, response: HttpExceptionResponse)
    | PrismaKnownRequestError(code: string, meta: Option<Json>, message: string)
    | PrismaValidationError(message: string, hasCodeProperty: bool, ownFields: map<string, Json>)
    | OtherError(name: string, message: string, ownFields: map<string, Json>)
    | NonErrorValue(value: Json)

  /** What a service or controller call yields: an envelope, or a thrown value that reaches `Catch`. */
  datatype Outcome<T> = Ok(response: ApiResponse<T>) | Thrown(exception: Exception)

  datatype ExceptionType = HttpExceptionType | PrismaKnownRequestType | PrismaValidationType | UnknownType

  /** What the filter sends: the HTTP status and the JSON body. */
  datatype HttpReply = HttpReply(status: int, body: ApiResponse<Json>)

  /** `getExceptionType`: `HttpException` is checked first; the Prisma classes are recognised
      only on an object that has a `code` property; everything else is unknown. */
  function GetExceptionType(e: Exception): (t: ExceptionType)
    ensures e.HttpException? <==> t == HttpExceptionType
    ensures t == PrismaKnownRequestType <==> e.PrismaKnownRequestError?
    ensures t == PrismaValidationType <==> e.PrismaValidationError? && e.hasCodeProperty
    ensures t == UnknownType <==> e.OtherError? || e.NonErrorValue? || (e.PrismaValidationError? && !e.hasCodeProperty)
  {
    match e
    case HttpException(_, _, _, _) => HttpExceptionType
    case PrismaKnownRequestError(_, _, _) => PrismaKnownRequestType
    case PrismaValidationError(_, hasCode, _) => if hasCode then PrismaValidationType else UnknownType
    case _ => UnknownType
  }

  /** The response object as a JSON value (it becomes the error details). */
  function ResponseBody(message: Option<string>, otherFields: map<string, Json>): Json
  {
    var rest := otherFields - {"message"};
    JObj(if message.Some? then rest["message" := JStr(message.value)] else rest)
  }

  /** `handleHttpException`: the status is kept, the code is the class name, the message is the
      response object's message when it is truthy and the exception's own message otherwise. */
  function HandleHttpException(e: Exception): (r: ApiResponse<Json>)
    requires e.HttpException?
    ensures IsErrorResponse(r)
    ensures r.statusCode == e.status
    ensures r.error.value.code == Some(e.className)
    ensures r.message == (if e.response.ObjectResponse? && e.response.message.Some? && e.response.message.value != ""
                          then e.response.message.value else e.message)
    ensures e.response.TextResponse? ==> r.error.value.details == Some(JNull)
    ensures e.response.ObjectResponse? ==>
              r.error.value.details == Some(ResponseBody(e.response.message, e.response.otherFields))
  {
    match e.response
    case TextResponse(_) =>
      Error(e.message, Some(e.status), Some(e.className), Some(JNull), None)
    case ObjectResponse(m, fields) =>
      var message := if m.Some? && m.value != "" then m.value else e.message;
      Error(message, Some(e.status), Some(e.className), Some(ResponseBody(m, fields)), None)
  }

  /** `handlePrismaValidationError`. */
  function HandlePrismaValidationError(e: Exception): (r: ApiResponse<Json>)
    requires e.PrismaValidationError?
    ensures IsErrorResponse(r) && r.statusCode == 400
    ensures r.message == "Database validation error"
    ensures r.error == Some(ApiError(Some("PRISMA_VALIDATION_ERROR"), Some(JStr(e.message))))
  {
    Error("Database validation error", Some(400), Some("PRISMA_VALIDATION_ERROR"), Some(JStr(e.message)), None)
  }

  /** The thrown value as the client receives it in the details of an unknown error: the
      reply goes through `JSON.stringify`, which keeps a plain value as it is and writes an
      `Error` as an object of its enumerable own properties. */
  function ThrownValue(e: Exception): Json
    requires e.NonErrorValue? || e.OtherError? || e.PrismaValidationError?
  {
    if e.NonErrorValue? then e.value else JObj(e.ownFields)
  }

  /** `handleUnknownError`: always 500 INTERNAL_ERROR; the thrown value is disclosed only
      when `NODE_ENV` is exactly "development". `catch` calls it only for the values
      `getExceptionType` leaves unknown. */
  function HandleUnknownError(e: Exception, nodeEnv: Option<string>): (r: ApiResponse<Json>)
    requires GetExceptionType(e) == UnknownType
    ensures IsErrorResponse(r) && r.statusCode == 500
    ensures r.message == "Internal server error"
    ensures r.error.value.code == Some("INTERNAL_ERROR")
    ensures r.error.value.details.Some? <==> nodeEnv == Some("development")
    ensures nodeEnv == Some("development") && e.NonErrorValue? ==> r.error.value.details == Some(e.value)
    ensures nodeEnv == Some("development") && !e.NonErrorValue? ==> r.error.value.details == Some(JObj(e.ownFields))
  {
    Error("Internal server error", Some(500), Some("INTERNAL_ERROR"),
          if nodeEnv == Some("development") then Some(ThrownValue(e)) else None, None)
  }

  /** `exception.meta?.target as string[]` followed by `field?.[0] || 'field'`. Indexing a
      string target gives its first character, as in JavaScript. */
  function TargetFieldName(meta: Option<Json>): (name: string)
    ensures name != ""
  {
    if meta.Some? && meta.value.JObj? && "target" in meta.value.fields then
      match meta.value.fields["target"]
      case JArr(items) => if |items| > 0 && items[0].JStr? && items[0].s != "" then items[0].s else "field"
      case JStr(s) => if s != "" then [s[0]] else "field"
      case _ => "field"
    else "field"
  }

  /** `handlePrismaError`: the Prisma error code decides status, code and message; the
      error's `meta` is passed through as the details. */
  function HandlePrismaError(e: Exception): (r: ApiResponse<Json>)
    requires e.PrismaKnownRequestError?
    ensures IsErrorResponse(r) && r.error.value.details == e.meta
    ensures e.code == "P2002" ==> r.statusCode == 409 && r.error.value.code == Some("UNIQUE_CONSTRAINT_VIOLATION")
                                  && r.message == TargetFieldName(e.meta) + " already exists"
    ensures e.code == "P2025" ==> r.statusCode == 404 && r.error.value.code == Some("RECORD_NOT_FOUND")
                                  && r.message == "Record not found"
    ensures e.code == "P2003" ==> r.statusCode == 400 && r.error.value.code == Some("FOREIGN_KEY_CONSTRAINT")
                                  && r.message == "Foreign key constraint violation"
    ensures e.code == "P2014" ==> r.statusCode == 400 && r.error.value.code == Some("REQUIRED_RELATION_VIOLATION")
                                  && r.message == "Required relation missing"
    ensures e.code !in {"P2002", "P2025", "P2003", "P2014"} ==>
              r.statusCode == 500 && r.error.value.code == Some("DATABASE_ERROR") && r.message == "Database error"
  {
    match e.code
    case "P2002" => Error(TargetFieldName(e.meta) + " already exists", Some(409), Some("UNIQUE_CONSTRAINT_VIOLATION"), e.meta, None)
    case "P2025" => Error("Record not found", Some(404), Some("RECORD_NOT_FOUND"), e.meta, None)
    case "P2003" => Error("Foreign key constraint violation", Some(400), Some("FOREIGN_KEY_CONSTRAINT"), e.meta, None)
    case "P2014" => Error("Required relation missing", Some(400), Some("REQUIRED_RELATION_VIOLATION"), e.meta, None)
    case _ => Error("Database error", Some(500), Some("DATABASE_ERROR"), e.meta, None)
  }

  /** `catch`: dispatch on the exception type, then answer with the envelope's own status.
      Logging is not modelled. */
  function Catch(e: Exception, nodeEnv: Option<string>): (reply: HttpReply)
    ensures reply.status == reply.body.statusCode
    ensures IsErrorResponse(reply.body)
    ensures GetExceptionType(e) == HttpExceptionType ==> reply.body == HandleHttpException(e)
    ensures GetExceptionType(e) == PrismaKnownRequestType ==> reply.body == HandlePrismaError(e)
    ensures GetExceptionType(e) == PrismaValidationType ==> reply.body == HandlePrismaValidationError(e)
    ensures GetExceptionType(e) == UnknownType ==> reply.body == HandleUnknownError(e, nodeEnv)
  {
    var body := match GetExceptionType(e)
      case HttpExceptionType => HandleHttpException(e)
      case PrismaKnownRequestType => HandlePrismaError(e)
      case PrismaValidationType => HandlePrismaValidationError(e)
      case UnknownType => HandleUnknownError(e, nodeEnv);
    HttpReply(body.statusCode, body)
  }

  /** The NestJS built-in exceptions the program throws. */
  datatype BuiltInException = UnauthorizedException | ForbiddenException | NotFoundException | ConflictException

  function BuiltInStatus(k: BuiltInException): int
  {
    match k
    case UnauthorizedException => 401
    case ForbiddenException => 403
    case NotFoundException => 404
    case ConflictException => 409
  }

  function BuiltInClassName(k: BuiltInException): string
  {
    match k
    case UnauthorizedException => "UnauthorizedException"
    case ForbiddenException => "ForbiddenException"
    case NotFoundException => "NotFoundException"
    case ConflictException => "ConflictException"
  }

  function BuiltInErrorName(k: BuiltInException): string
  {
    match k
    case UnauthorizedException => "Unauthorized"
    case ForbiddenException => "Forbidden"
    case NotFoundException => "Not Found"
    case ConflictException => "Conflict"
  }

  /** `new XxxException(message)` as NestJS builds it: the response object is
      `{ message, error, statusCode }`. */
  function Throw(k: BuiltInException, message: string): Exception
  {
    HttpException(BuiltInClassName(k), BuiltInStatus(k), message,
                  ObjectResponse(Some(message), map["error" := JStr(BuiltInErrorName(k)),
                                                    "statusCode" := JNum(BuiltInStatus(k))]))
  }

  /** A built-in exception with a non-empty message reaches the client with its own status,
      its class name as the code and its message unchanged. */
  lemma BuiltInExceptionReply(k: BuiltInException, message: string, nodeEnv: Option<string>)
    requires message != ""
    ensures var reply := Catch(Throw(k, message), nodeEnv);
            reply.status == BuiltInStatus(k) && reply.body.message == message
            && reply.body.error.value.code == Some(BuiltInClassName(k))
  {
  }

  /** A Prisma validation error without a `code` property is never handled by
      `handlePrismaValidationError`: it is answered as an unknown 500 error. */
  lemma ValidationErrorWithoutCodeIsInternal(message: string, ownFields: map<string, Json>, nodeEnv: Option<string>)
    ensures var reply := Catch(PrismaValidationError(message, false, ownFields), nodeEnv);
            reply.status == 500 && reply.body.error.value.code == Some("INTERNAL_ERROR")
  {
  }

  /** In development an `Error` with no enumerable own properties reaches the client as
      empty details: its name and message are not sent. */
  lemma PlainErrorDetailsAreEmpty(name: string, message: string)
    ensures var reply := Catch(OtherError(name, message, map[]), Some("development"));
            reply.status == 500 && reply.body.error.value.details == Some(JObj(map[]))
            && reply.body.message == "Internal server error"
  {
  }
}
