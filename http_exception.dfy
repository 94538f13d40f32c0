/**
 * `HttpException`: a `BaseException` with an HTTP status, whose constructor
 * defaults the status to 400 and an empty message to the status name.
 */
module HttpExceptions {
  import opened Wrappers
  import opened BaseExceptions

  /**
   * The `http-status` table, from status code to status name. The table
   * itself is not part of this model; any partial map may stand for it.
   */
  type StatusNames = map<int, string>

  /** `httpStatus.BAD_REQUEST` */
  const BadRequest := 400

  const UnknownError := "Unknown Error"

  /** `String(httpStatus[code] || 'Unknown Error')`: a missing or empty name falls back. */
  function StatusName(names: StatusNames, code: int): (r: string)
    ensures r != ""
    ensures code in names && names[code] != "" ==> r == names[code]
    ensures !(code in names && names[code] != "") ==> r == UnknownError
  {
    if code in names && names[code] != "" then names[code] else UnknownError
  }

  /** The `HttpError` record `errorInfo` returns (without the `error` object and its `stack`). */
  datatype HttpError = HttpError(status: int, errorType: string, message: string, description: string, errorCode: EnumErrorCode)

  /** An `HttpException`: its `BaseException` part and `_status`. */
  datatype HttpException = HttpException(base: BaseException, statusCode: int) {

    /** `errorCode`, overridden to `HTTP_BASE_ERROR` */
    function ErrorCode(): (c: EnumErrorCode)
      ensures ErrorCodeValue(c) == "HTTP_BASE_ERROR"
    {
      HttpBaseError
    }

    function Message(): string {
      base.Message()
    }

    function Description(): string {
      base.Description()
    }

    /** `get status()` */
    function Status(): int {
      statusCode
    }

    /** `get type()`: the status name, or `Unknown Error` */
    function Type(names: StatusNames): (r: string)
      ensures r != ""
    {
      StatusName(names, statusCode)
    }

    /** `get errorInfo()` */
    function ErrorInfo(names: StatusNames): HttpError {
      HttpError(Status(), Type(names), Message(), Description(), ErrorCode())
    }
  }

  /** `new HttpException(message?, status?, description?)` */
  function NewHttpException(names: StatusNames, message: Option<string>, status: Option<int>, description: Option<string>)
    : (e: HttpException)
    ensures status.None? ==> e.Status() == BadRequest
    ensures status.Some? ==> e.Status() == status.value
    ensures message.Some? && message.value != "" ==> e.Message() == message.value
    ensures !(message.Some? && message.value != "") ==> e.Message() == StatusName(names, e.Status())
    ensures e.Description() == description.GetOr("")
    ensures e.ErrorCode() == HttpBaseError
  {
    var code := status.GetOr(BadRequest);
    var text := if message.Some? && |message.value| > 0 then message.value else StatusName(names, code);
    HttpException(NewBaseException(text, description), code)
  }

  /** The message of a constructed exception is never empty. */
  lemma MessageNeverEmpty(names: StatusNames, message: Option<string>, status: Option<int>, description: Option<string>)
    ensures NewHttpException(names, message, status, description).Message() != ""
  {
  }

  /** `HTTP_BASE_ERROR` overrides the base default `BASE_ERROR`. */
  lemma ErrorCodeOverridesBase(e: HttpException, message: string, description: Option<string>)
    ensures e.ErrorCode() == HttpBaseError
    ensures e.ErrorCode() != NewBaseException(message, description).ErrorCode()
  {
  }

  /** `type` names the status from the table. */
  lemma TypeNamesStatus(names: StatusNames, e: HttpException)
    ensures e.Status() in names && names[e.Status()] != "" ==> e.Type(names) == names[e.Status()]
    ensures e.Status() !in names ==> e.Type(names) == UnknownError
  {
  }

  /** `errorInfo` mirrors the getters of the same exception. */
  lemma ErrorInfoMirrors(names: StatusNames, e: HttpException)
    ensures var info := e.ErrorInfo(names);
      && info.status == e.Status() && info.errorType == e.Type(names) && info.message == e.Message()
      && info.description == e.Description() && info.errorCode == e.ErrorCode()
  {
  }

  /** Rebuilding an exception from its own getters keeps every getter's value. */
  lemma RebuildFromGetters(names: StatusNames, e: HttpException)
    requires e.Message() != ""
    ensures var e2 := NewHttpException(names, Some(e.Message()), Some(e.Status()), Some(e.Description()));
      e2.ErrorInfo(names) == e.ErrorInfo(names)
  {
  }

  /** Without arguments: status 400, the table's name for 400 as message, no description. */
  lemma NoArguments(names: StatusNames)
    ensures var e := NewHttpException(names, None, None, None);
      && e.Status() == 400 && e.Message() == StatusName(names, 400) && e.Description() == ""
  {
  }
}
