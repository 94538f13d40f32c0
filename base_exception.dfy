/** `BaseException`: a message, an optional description and the base error code. */
module BaseExceptions {
  import opened Wrappers

  /** The members of `EnumErrorCode` the exceptions use. */
  datatype EnumErrorCode = BaseError | HttpBaseError

  /** The string value of an error code, as it appears in an error envelope. */
  function ErrorCodeValue(code: EnumErrorCode): string {
    match code
    case BaseError => "BASE_ERROR"
    case HttpBaseError => "HTTP_BASE_ERROR"
  }

  /** A `BaseException` as its constructor leaves it: `_message` and `_description`. */
  datatype BaseException = BaseException(msg: string, desc: Option<string>) {

    /** `get errorCode()` */
    function ErrorCode(): (c: EnumErrorCode)
      ensures ErrorCodeValue(c) == "BASE_ERROR"
    {
      BaseError
    }

    /** `get message()` */
    function Message(): string {
      msg
    }

    /** `get description()`: `_description ?? ''` */
    function Description(): (r: string)
      ensures desc.None? ==> r == ""
      ensures desc.Some? ==> r == desc.value
    {
      desc.GetOr("")
    }
  }

  /** `new BaseException(message, description?)` */
  function NewBaseException(message: string, description: Option<string>): (e: BaseException)
    ensures e.ErrorCode() == BaseError
    ensures e.Message() == message
    ensures description.None? ==> e.Description() == ""
    ensures description.Some? ==> e.Description() == description.value
  {
    BaseException(message, description)
  }
}
