/** The Cloud Functions error hierarchy (functions/src/utils/errors.ts): every
    `AppError` subclass with its status code, operational flag, default message and
    message prefix, and `handleError`, which turns anything thrown into an `AppError`. */
module ServerErrors {
  import opened Wrappers

  datatype ErrorKind =
    | Base | Validation | Authentication | Authorization | NotFound | Conflict
    | InternalServer | SlackAPI | Encryption | OAuth

  /** An `AppError` instance. `context` keeps the string entries the code attaches;
      the creation time is a parameter. */
  datatype AppError = AppError(
    name: string,
    message: string,
    statusCode: int,
    isOperational: bool,
    timestamp: int,
    context: Option<map<string, string>>)

  /** The class name `this.constructor.name` gives. */
  function ClassName(kind: ErrorKind): string {
    match kind
    case Base => "AppError"
    case Validation => "ValidationError"
    case Authentication => "AuthenticationError"
    case Authorization => "AuthorizationError"
    case NotFound => "NotFoundError"
    case Conflict => "ConflictError"
    case InternalServer => "InternalServerError"
    case SlackAPI => "SlackAPIError"
    case Encryption => "EncryptionError"
    case OAuth => "OAuthError"
  }

  /** The status code each subclass passes to `AppError`. */
  function StatusCode(kind: ErrorKind): (code: int)
    ensures 400 <= code < 600
  {
    match kind
    case Base => 500
    case Validation => 400
    case Authentication => 401
    case Authorization => 403
    case NotFound => 404
    case Conflict => 409
    case InternalServer => 500
    case SlackAPI => 502
    case Encryption => 500
    case OAuth => 400
  }

  /** The message a subclass uses when it is given none; `None` for those that take a
      required message. */
  function DefaultMessage(kind: ErrorKind): Option<string> {
    match kind
    case Authentication => Some("認証に失敗しました")
    case Authorization => Some("アクセス権限がありません")
    case NotFound => Some("リソースが見つかりません")
    case Conflict => Some("競合が発生しました")
    case InternalServer => Some("内部サーバーエラーが発生しました")
    case _ => None
  }

  /** The text a subclass puts before the given message. */
  function MessagePrefix(kind: ErrorKind): string {
    match kind
    case SlackAPI => "Slack API Error: "
    case Encryption => "Encryption Error: "
    case OAuth => "OAuth Error: "
    case _ => ""
  }

  /** `new AppError(message, statusCode?, isOperational?, context?)`: 500 and
      operational when the optional arguments are left out. */
  function NewAppError(message: string, statusCode: Option<int>, isOperational: Option<bool>,
                       context: Option<map<string, string>>, now: int): (e: AppError)
    ensures e.name == "AppError" && e.message == message && e.context == context && e.timestamp == now
    ensures statusCode.None? ==> e.statusCode == 500
    ensures statusCode.Some? ==> e.statusCode == statusCode.value
    ensures isOperational.None? ==> e.isOperational
    ensures isOperational.Some? ==> e.isOperational == isOperational.value
  {
    AppError("AppError", message, statusCode.GetOr(500), isOperational.GetOr(true), now, context)
  }

  /** `new XError(message?, context?)` for a subclass `kind`; `message` may be left out
      only where the subclass has a default. */
  function NewError(kind: ErrorKind, message: Option<string>, context: Option<map<string, string>>, now: int): (e: AppError)
    requires kind != Base
    requires message.None? ==> DefaultMessage(kind).Some?
    ensures e.name == ClassName(kind) && e.statusCode == StatusCode(kind)
    ensures e.isOperational <==> kind != InternalServer
    ensures message.Some? ==> e.message == MessagePrefix(kind) + message.value
    ensures message.None? ==> e.message == DefaultMessage(kind).value
    ensures e.context == context && e.timestamp == now
  {
    var text := if message.Some? then message.value else DefaultMessage(kind).value;
    AppError(ClassName(kind), MessagePrefix(kind) + text, StatusCode(kind), kind != InternalServer, now, context)
  }

  /** Only the internal-server error is non-operational, and only the Slack API error
      maps to a gateway status. */
  lemma OperationalUnlessInternal(kind: ErrorKind, message: Option<string>, context: Option<map<string, string>>, now: int)
    requires kind != Base && (message.None? ==> DefaultMessage(kind).Some?)
    ensures !NewError(kind, message, context, now).isOperational <==> kind == InternalServer
    ensures NewError(kind, message, context, now).statusCode == 502 <==> kind == SlackAPI
  {
  }

  /** Anything `handleError` may receive. */
  datatype Raised =
    | RaisedAppError(error: AppError)        // an AppError instance (of any subclass)
    | RaisedError(name: string, message: string)   // another Error instance
    | RaisedOther(text: string)              // any other value, with its String(value)

  const UnknownErrorMessage := "Unknown error occurred"

  /** `handleError(error)`. */
  function HandleError(error: Raised, now: int): (e: AppError)
    ensures error.RaisedAppError? ==> e == error.error
    ensures error.RaisedError? ==>
              e.name == "InternalServerError" && e.statusCode == 500 && !e.isOperational &&
              e.message == error.message && e.context == Some(map["originalError" := error.name])
    ensures error.RaisedOther? ==>
              e.name == "InternalServerError" && e.statusCode == 500 && !e.isOperational &&
              e.message == UnknownErrorMessage && e.context == Some(map["error" := error.text])
  {
    match error
    case RaisedAppError(e) => e
    case RaisedError(name, message) =>
      NewError(InternalServer, Some(message), Some(map["originalError" := name]), now)
    case RaisedOther(text) =>
      NewError(InternalServer, Some(UnknownErrorMessage), Some(map["error" := text]), now)
  }

  /** `handleError` is idempotent: handling its own result gives that result back. */
  lemma HandleErrorIdempotent(error: Raised, now: int, later: int)
    ensures HandleError(RaisedAppError(HandleError(error, now)), later) == HandleError(error, now)
  {
  }
}
