/** The response envelope every endpoint returns, and the static builders of
    `ApiResponseHelper`. An argument left `undefined` in the source is `None`
    here, so the source's default arguments become explicit. */
module ResponseHelper {
  import opened Domain

  datatype Pagination = Pagination(page: int, limit: int, total: int, totalPages: int)

  /** `ApiError`: both members optional. */
  datatype ApiError = ApiError(code: Option<string>, details: Option<Json>)

  /** `ApiResponse<T>`; `data` is `None` for `null`, `meta` is `None` for `undefined`. */
  datatype ApiResponse<T> = ApiResponse(
    success: bool,
    data: Option<T>,
    message: string,
    error: Option<ApiError>,
    statusCode: int,
    meta: Option<Json>)

  const DefaultSuccessMessage := "Operation completed successfully"
  const DefaultPaginatedMessage := "Data retrieved successfully"

  /** The `SuccessResponse<T>` type: success is true and no error object. */
  predicate IsSuccessResponse<T>(r: ApiResponse<T>)
  {
    r.success && r.error.None?
  }

  /** The `ErrorResponse` type: success is false, data is null and an error object is present. */
  predicate IsErrorResponse<T>(r: ApiResponse<T>)
  {
    !r.success && r.data.None? && r.error.Some?
  }

  /** `success(data, message?, statusCode?, meta?)`. */
  function Success<T>(data: Option<T>, message: Option<string>, statusCode: Option<int>, meta: Option<Json>): (r: ApiResponse<T>)
    ensures IsSuccessResponse(r) && !IsErrorResponse(r)
    ensures r.data == data && r.meta == meta
    ensures message.Some? ==> r.message == message.value
    ensures message.None? ==> r.message == DefaultSuccessMessage
    ensures statusCode.Some? ==> r.statusCode == statusCode.value
    ensures statusCode.None? ==> r.statusCode == 200
  {
    ApiResponse(true, data, if message.Some? then message.value else DefaultSuccessMessage,
                None, if statusCode.Some? then statusCode.value else 200, meta)
  }

  /** `error(message, statusCode?, errorCode?, errorDetails?, meta?)`: the error object is
      always built, even when both its members are undefined. */
  function Error<T>(message: string, statusCode: Option<int>, errorCode: Option<string>,
                    errorDetails: Option<Json>, meta: Option<Json>): (r: ApiResponse<T>)
    ensures IsErrorResponse(r) && !IsSuccessResponse(r)
    ensures r.message == message && r.meta == meta
    ensures r.error == Some(ApiError(errorCode, errorDetails))
    ensures statusCode.Some? ==> r.statusCode == statusCode.value
    ensures statusCode.None? ==> r.statusCode == 500
  {
    ApiResponse(false, None, message, Some(ApiError(errorCode, errorDetails)),
                if statusCode.Some? then statusCode.value else 500, meta)
  }

  /** The pagination object as it appears inside `meta`. */
  function PaginationJson(p: Pagination): Json
  {
    JObj(map["page" := JNum(p.page), "limit" := JNum(p.limit),
             "total" := JNum(p.total), "totalPages" := JNum(p.totalPages)])
  }

  /** What a client reads back as `meta.pagination` (the frontend's `PaginatedApiResponse`). */
  function PaginationOf(meta: Option<Json>): Option<Pagination>
  {
    if meta.Some? && meta.value.JObj? && "pagination" in meta.value.fields then
      var p := meta.value.fields["pagination"];
      if p.JObj? && "page" in p.fields && "limit" in p.fields && "total" in p.fields && "totalPages" in p.fields
         && p.fields["page"].JNum? && p.fields["limit"].JNum? && p.fields["total"].JNum? && p.fields["totalPages"].JNum?
      then Some(Pagination(p.fields["page"].n, p.fields["limit"].n, p.fields["total"].n, p.fields["totalPages"].n))
      else None
    else None
  }

  /** `paginated(data, pagination, message?, statusCode?)`: meta is exactly `{ pagination }`. */
  function Paginated<T>(data: Option<T>, pagination: Pagination, message: Option<string>, statusCode: Option<int>): (r: ApiResponse<T>)
    ensures IsSuccessResponse(r)
    ensures r.data == data
    ensures r.meta.Some? && r.meta.value.JObj? && r.meta.value.fields.Keys == {"pagination"}
    ensures PaginationOf(r.meta) == Some(pagination)
    ensures message.Some? ==> r.message == message.value
    ensures message.None? ==> r.message == DefaultPaginatedMessage
    ensures statusCode.Some? ==> r.statusCode == statusCode.value
    ensures statusCode.None? ==> r.statusCode == 200
  {
    ApiResponse(true, data, if message.Some? then message.value else DefaultPaginatedMessage,
                None, if statusCode.Some? then statusCode.value else 200,
                Some(JObj(map["pagination" := PaginationJson(pagination)])))
  }
}
