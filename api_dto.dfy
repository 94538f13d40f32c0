/**
 * The response envelopes of the Koa starter: the data, paginated and error
 * DTO classes, whose constructors copy their arguments and default a missing
 * `data`.
 */
module ApiDto {
  import opened Wrappers

  /**
   * An optional constructor argument as `== undefined` sees it: both a missing
   * value and `null` compare equal to `undefined`.
   */
  datatype Nullish<T> = Undefined | Null | Defined(value: T)

  /** A point in time (`Date`), kept abstract as a number. */
  type Timestamp = int

  /** `ApiResDataParams<T>`; `T` may itself be a list, which covers `T | T[]`. */
  datatype ApiResDataParams<T> = ApiResDataParams(success: bool, status: int, data: Nullish<T>)

  /** An `ApiResDataDTO<T>`; `data == None` is the JSON `null`. */
  datatype ApiResDataDTO<T> = ApiResDataDTO(success: bool, status: int, data: Option<T>)

  /** `ApiResPaginatedParams<T>` */
  datatype ApiResPaginatedParams<T> = ApiResPaginatedParams(success: bool, status: int, total: int, data: Nullish<seq<T>>)

  /** An `ApiResPaginatedDTO<T>` */
  datatype ApiResPaginatedDTO<T> = ApiResPaginatedDTO(success: bool, status: int, data: seq<T>, total: int)

  /** The `ApiResError` shape: the error envelope external clients see. */
  datatype ApiResError = ApiResError(
    success: bool,
    status: int,
    errorCode: string,
    message: string,
    description: Option<string>,
    path: Option<string>,
    timestamp: Option<Timestamp>,
    httpMethod: Option<string>)

  /** An `ApiResErrorDTO`: the `ApiResError` fields plus the declared numeric `code`. */
  datatype ApiResErrorDTO = ApiResErrorDTO(code: Option<int>, error: ApiResError)

  /** `new ApiResDataDTO(params)` */
  function NewApiResDataDTO<T>(params: ApiResDataParams<T>): (r: ApiResDataDTO<T>)
    ensures r.success == params.success && r.status == params.status
    ensures r.data.None? <==> !params.data.Defined?
    ensures params.data.Defined? ==> r.data == Some(params.data.value)
  {
    ApiResDataDTO(params.success, params.status, if params.data.Defined? then Some(params.data.value) else None)
  }

  /** `new ApiResPaginatedDTO(params)` */
  function NewApiResPaginatedDTO<T>(params: ApiResPaginatedParams<T>): (r: ApiResPaginatedDTO<T>)
    ensures r.success == params.success && r.status == params.status && r.total == params.total
    ensures !params.data.Defined? ==> r.data == []
    ensures params.data.Defined? ==> r.data == params.data.value
  {
    ApiResPaginatedDTO(params.success, params.status, if params.data.Defined? then params.data.value else [], params.total)
  }

  /** `new ApiResErrorDTO(success, status, errorCode, message, description?, path?, timestamp?, method?)` */
  function NewApiResErrorDTO(
    success: bool, status: int, errorCode: string, message: string,
    description: Option<string>, path: Option<string>, timestamp: Option<Timestamp>, httpMethod: Option<string>): (r: ApiResErrorDTO)
    ensures r.code.None?
    ensures r.error.success == success && r.error.status == status
    ensures r.error.errorCode == errorCode && r.error.message == message
    ensures r.error.description == description && r.error.path == path
    ensures r.error.timestamp == timestamp && r.error.httpMethod == httpMethod
  {
    ApiResErrorDTO(None, ApiResError(success, status, errorCode, message, description, path, timestamp, httpMethod))
  }

  /** The parameters a data envelope can be rebuilt from. */
  function DataParamsOf<T>(dto: ApiResDataDTO<T>): ApiResDataParams<T> {
    ApiResDataParams(dto.success, dto.status, if dto.data.Some? then Defined(dto.data.value) else Null)
  }

  /** The parameters a paginated envelope can be rebuilt from. */
  function PaginatedParamsOf<T>(dto: ApiResPaginatedDTO<T>): ApiResPaginatedParams<T> {
    ApiResPaginatedParams(dto.success, dto.status, dto.total, Defined(dto.data))
  }

  /** Every data envelope is rebuilt unchanged from its own fields. */
  lemma DataRoundTrip<T>(dto: ApiResDataDTO<T>)
    ensures NewApiResDataDTO(DataParamsOf(dto)) == dto
  {
  }

  /** `undefined` and `null` give the same envelope, with `data: null`. */
  lemma DataNullishSame<T>(success: bool, status: int)
    ensures NewApiResDataDTO(ApiResDataParams(success, status, Nullish<T>.Undefined))
         == NewApiResDataDTO(ApiResDataParams(success, status, Nullish<T>.Null))
         == ApiResDataDTO(success, status, Option<T>.None)
  {
  }

  /** An array payload is passed through as it is, not wrapped again. */
  lemma DataArrayPassThrough<U>(success: bool, status: int, items: seq<U>)
    ensures NewApiResDataDTO(ApiResDataParams(success, status, Defined(items))).data == Some(items)
  {
  }

  /** Every paginated envelope is rebuilt unchanged from its own fields. */
  lemma PaginatedRoundTrip<T>(dto: ApiResPaginatedDTO<T>)
    ensures NewApiResPaginatedDTO(PaginatedParamsOf(dto)) == dto
  {
  }

  /** A missing list and an empty list give the same paginated envelope. */
  lemma PaginatedMissingIsEmpty<T>(success: bool, status: int, total: int)
    ensures NewApiResPaginatedDTO(ApiResPaginatedParams(success, status, total, Nullish<seq<T>>.Undefined))
         == NewApiResPaginatedDTO(ApiResPaginatedParams(success, status, total, Nullish<seq<T>>.Null))
         == NewApiResPaginatedDTO(ApiResPaginatedParams(success, status, total, Nullish<seq<T>>.Defined([])))
  {
  }

  /** An error DTO's `ApiResError` part rebuilds the same DTO. */
  lemma ErrorRoundTrip(dto: ApiResErrorDTO)
    requires dto.code.None?
    ensures var e := dto.error;
      NewApiResErrorDTO(e.success, e.status, e.errorCode, e.message, e.description, e.path, e.timestamp, e.httpMethod) == dto
  {
  }
}
