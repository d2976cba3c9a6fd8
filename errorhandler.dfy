/** The client's error vocabulary (src/utils/errorHandler.ts): the `AppError`
    classes with their codes, the ordered substring classifiers that turn a thrown
    value into a `FirestoreError` or an `AuthError`, and the `Result` wrapper. */
module ErrorHandler {
  import opened Wrappers
  import opened Text

  /** A thrown JavaScript value: an `Error` instance with its message, or any other value. */
  datatype Thrown = ErrorValue(message: string) | NonError

  /** An `AppError` instance: class name, message, code and the wrapped original error. */
  datatype AppError = AppError(name: string, message: string, code: string, originalError: Option<Thrown>)

  datatype ErrorClass = AuthClass | FirestoreClass | SlackClass

  /** `new AuthError(...)`, `new FirestoreError(...)`, `new SlackError(...)`. */
  function NewError(cls: ErrorClass, message: string, original: Option<Thrown>): (e: AppError)
    ensures e.message == message && e.originalError == original
    ensures cls == AuthClass ==> e.code == "AUTH_ERROR" && e.name == "AuthError"
    ensures cls == FirestoreClass ==> e.code == "FIRESTORE_ERROR" && e.name == "FirestoreError"
    ensures cls == SlackClass ==> e.code == "SLACK_ERROR" && e.name == "SlackError"
  {
    match cls
    case AuthClass => AppError("AuthError", message, "AUTH_ERROR", original)
    case FirestoreClass => AppError("FirestoreError", message, "FIRESTORE_ERROR", original)
    case SlackClass => AppError("SlackError", message, "SLACK_ERROR", original)
  }

  /** The three error classes can be told apart by their code. */
  lemma CodesDistinguishClasses(c1: ErrorClass, c2: ErrorClass, m1: string, m2: string, o1: Option<Thrown>, o2: Option<Thrown>)
    requires NewError(c1, m1, o1).code == NewError(c2, m2, o2).code
    ensures c1 == c2
  {
  }

  const AuthNoPermission := "データベースへのアクセス権限がありません。認証を確認してください。"
  const AuthTimeout := "認証がタイムアウトしました。再度お試しください。"
  const AuthPopupBlocked := "ポップアップがブロックされました。ブラウザの設定を確認してください。"
  const FirestorePermissionDenied := "データベースへのアクセス権限がありません。"
  const FirestoreNetworkError := "ネットワークエラーが発生しました。接続を確認してください。"
  const UnknownFirestoreError := "不明なエラーが発生しました。"
  const UnknownAuthError := "認証エラーが発生しました。"

  /** Turns any thrown value into a `FirestoreError`; permissions are tested before network. */
  function HandleFirestoreError(error: Thrown): (e: AppError)
    ensures e.code == "FIRESTORE_ERROR" && e.name == "FirestoreError"
    ensures error.NonError? ==> e.message == UnknownFirestoreError && e.originalError == None
    ensures error.ErrorValue? ==> e.originalError == Some(error)
    ensures error.ErrorValue? ==>
              if Contains(error.message, "Missing or insufficient permissions") then e.message == FirestorePermissionDenied
              else if Contains(error.message, "network") then e.message == FirestoreNetworkError
              else e.message == error.message
  {
    match error
    case ErrorValue(msg) =>
      if Contains(msg, "Missing or insufficient permissions") then
        NewError(FirestoreClass, FirestorePermissionDenied, Some(error))
      else if Contains(msg, "network") then
        NewError(FirestoreClass, FirestoreNetworkError, Some(error))
      else
        NewError(FirestoreClass, msg, Some(error))
    case NonError =>
      NewError(FirestoreClass, UnknownFirestoreError, None)
  }

  /** Turns any thrown value into an `AuthError`; timeout is tested before permission. */
  function HandleAuthError(error: Thrown): (e: AppError)
    ensures e.code == "AUTH_ERROR" && e.name == "AuthError"
    ensures error.NonError? ==> e.message == UnknownAuthError && e.originalError == None
    ensures error.ErrorValue? ==> e.originalError == Some(error)
    ensures error.ErrorValue? ==>
              if Contains(error.message, "timeout") then e.message == AuthTimeout
              else if Contains(error.message, "permission") then e.message == AuthNoPermission
              else e.message == error.message
  {
    match error
    case ErrorValue(msg) =>
      if Contains(msg, "timeout") then
        NewError(AuthClass, AuthTimeout, Some(error))
      else if Contains(msg, "permission") then
        NewError(AuthClass, AuthNoPermission, Some(error))
      else
        NewError(AuthClass, msg, Some(error))
    case NonError =>
      NewError(AuthClass, UnknownAuthError, None)
  }

  /** A message naming both a permission failure and the network is classified as a
      permission failure: the first test wins. */
  lemma PermissionBeatsNetwork(prefix: string, suffix: string)
    ensures HandleFirestoreError(ErrorValue(prefix + "Missing or insufficient permissions" + suffix + "network")).message
            == FirestorePermissionDenied
  {
    var m := prefix + "Missing or insufficient permissions" + suffix + "network";
    assert m[|prefix|..|prefix| + |"Missing or insufficient permissions"|] == "Missing or insufficient permissions";
    ContainsAt(m, "Missing or insufficient permissions", |prefix|);
  }

  /** A message naming both a timeout and a permission problem is a timeout. */
  lemma TimeoutBeatsPermission(prefix: string, suffix: string)
    ensures HandleAuthError(ErrorValue(prefix + "permission" + suffix + "timeout")).message == AuthTimeout
  {
    var m := prefix + "permission" + suffix + "timeout";
    assert m[|m| - 7..|m|] == "timeout";
    ContainsAt(m, "timeout", |m| - 7);
  }

  /** The source's tagged `Result`: `success(data)` or `failure(error)`. */
  datatype Result<+T> = Success(data: T) | Failure(error: AppError)

  /** How the wrapped asynchronous function settled. */
  datatype Settled<+R> = Fulfilled(value: R) | Rejected(reason: Thrown)

  /** `withErrorHandling(fn, errorHandler)` applied and awaited: never throws. */
  function WithErrorHandling<R>(outcome: Settled<R>, errorHandler: Thrown -> AppError): (r: Result<R>)
    ensures outcome.Fulfilled? ==> r == Success(outcome.value)
    ensures outcome.Rejected? ==> r == Failure(errorHandler(outcome.reason))
  {
    match outcome
    case Fulfilled(v) => Success(v)
    case Rejected(e) => Failure(errorHandler(e))
  }

  /** `withErrorHandling(fn)` with the default handler, `handleFirestoreError`. */
  function WithDefaultErrorHandling<R>(outcome: Settled<R>): (r: Result<R>)
    ensures r.Failure? <==> outcome.Rejected?
    ensures r.Failure? ==> r.error == HandleFirestoreError(outcome.reason) && r.error.code == "FIRESTORE_ERROR"
  {
    WithErrorHandling(outcome, HandleFirestoreError)
  }
}
