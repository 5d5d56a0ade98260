/**
 * The application's exception hierarchy (ApplicationError, APIError,
 * DatabaseError) and the built-in Python exceptions the modelled code can
 * raise. An original exception is represented by its `str` text.
 */
module Exceptions {
  import opened Wrappers
  import Text

  /** An instance of one of the application's exception classes, after its constructor ran. */
  datatype AppException =
    | ApplicationError(message: string, originalException: Option<string>)
    | ApiError(message: string, originalException: Option<string>, statusCode: Option<int>)
    | DatabaseError(message: string, originalException: Option<string>)

  /** Built-in Python exceptions that escape from the modelled code. */
  datatype BuiltinKind = ValueError | TypeError | KeyError | AttributeError

  /** Anything the modelled code raises. */
  datatype Error =
    | App(exception: AppException)
    | Builtin(kind: BuiltinKind, text: string)

  const ApiPrefix: string := "API Error: "
  const DatabasePrefix: string := "Database Error: "
  const OriginalOpen: string := " (Original error: "
  const StatusOpen: string := " (Status Code: "

  /** `ApplicationError(message, original_exception)`. */
  function NewApplicationError(message: string, originalException: Option<string>): (e: AppException)
    ensures e.ApplicationError?
    ensures e.message == message && e.originalException == originalException
  {
    ApplicationError(message, originalException)
  }

  /** Python truthiness of the `status_code` argument: None and 0 are false. */
  predicate StatusTruthy(statusCode: Option<int>) {
    statusCode.Some? && statusCode.value != 0
  }

  /**
   * `APIError(message, original_exception, status_code)`: the base constructor
   * stores the message, then it is replaced by the prefixed one and a status
   * suffix is appended when the status code is truthy.
   */
  function NewApiError(message: string, originalException: Option<string>, statusCode: Option<int>): (e: AppException)
    ensures e.ApiError? && e.originalException == originalException && e.statusCode == statusCode
  {
    var base := NewApplicationError(message, originalException);
    var prefixed := ApiPrefix + message;
    var text := if StatusTruthy(statusCode) then prefixed + StatusOpen + Text.IntToString(statusCode.value) + ")" else prefixed;
    ApiError(text, base.originalException, statusCode)
  }

  /** `DatabaseError(message, original_exception)`. */
  function NewDatabaseError(message: string, originalException: Option<string>): (e: AppException)
    ensures e.DatabaseError? && e.originalException == originalException
  {
    var base := NewApplicationError(message, originalException);
    DatabaseError(DatabasePrefix + message, base.originalException)
  }

  /** `str(e)`, inherited by all three classes from ApplicationError. */
  function Render(e: AppException): string {
    if e.originalException.Some? then e.message + OriginalOpen + e.originalException.value + ")" else e.message
  }

  /** `str(e)` for anything raised. */
  function ErrorText(err: Error): string {
    match err
    case App(e) => Render(e)
    case Builtin(_, text) => text
  }

  /**
   * An API error message starts with the prefix followed by the given
   * message, and carries nothing more exactly when the status code is falsy.
   */
  lemma ApiMessageShape(message: string, originalException: Option<string>, statusCode: Option<int>)
    ensures var m := NewApiError(message, originalException, statusCode).message;
      |m| >= |ApiPrefix| + |message| &&
      m[..|ApiPrefix|] == ApiPrefix && m[|ApiPrefix|..|ApiPrefix| + |message|] == message &&
      (m == ApiPrefix + message <==> !StatusTruthy(statusCode))
  {
    var m := NewApiError(message, originalException, statusCode).message;
    assert m[..|ApiPrefix|] == ApiPrefix && m[|ApiPrefix|..|ApiPrefix| + |message|] == message by {
      if StatusTruthy(statusCode) {
        assert m == ApiPrefix + message + (StatusOpen + Text.IntToString(statusCode.value) + ")");
      }
    }
  }

  /** A database error message is the prefix followed by the given message, and nothing else. */
  lemma DatabaseMessageShape(message: string, originalException: Option<string>)
    ensures var m := NewDatabaseError(message, originalException).message;
      |m| == |DatabasePrefix| + |message| &&
      m[..|DatabasePrefix|] == DatabasePrefix && m[|DatabasePrefix|..] == message
  {
  }

  /**
   * `str(e)` is the message, followed, only when there is an original
   * exception, by that exception's text in parentheses.
   */
  lemma RenderShape(e: AppException)
    ensures var s := Render(e);
      |s| >= |e.message| && s[..|e.message|] == e.message &&
      (s == e.message <==> e.originalException.None?) &&
      (e.originalException.Some? ==>
        |s| == |e.message| + |OriginalOpen| + |e.originalException.value| + 1 &&
        s[|e.message|..|e.message| + |OriginalOpen|] == OriginalOpen &&
        s[|e.message| + |OriginalOpen|..|s| - 1] == e.originalException.value)
  {
  }

  /** A truthy status code can be read back from the API error message: the suffix carries it in decimal. */
  lemma ApiStatusReadBack(message: string, originalException: Option<string>, code: int)
    requires code != 0
    ensures var m := NewApiError(message, originalException, Some(code)).message;
      var start := |ApiPrefix| + |message| + |StatusOpen|;
      start < |m| && m[start - |StatusOpen|..start] == StatusOpen && Text.ParseInt(m[start..|m| - 1]) == code
  {
    var m := NewApiError(message, originalException, Some(code)).message;
    var digits := Text.IntToString(code);
    assert m == ApiPrefix + message + StatusOpen + digits + ")";
    var start := |ApiPrefix| + |message| + |StatusOpen|;
    assert m[start..|m| - 1] == digits;
    assert m[start - |StatusOpen|..start] == StatusOpen;
    Text.IntRoundTrip(code);
  }
}
