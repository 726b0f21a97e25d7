/**
 * utils/apiResponse.js: the `{ success, message, data }` and `{ success, message, errors }`
 * payload helpers. A `None` argument is one the caller left out (or passed as null
 * where null is the default), so the default applies.
 */
module ApiResponse {
  import opened Wrappers

  datatype Payload<D> = Payload(success: bool, message: string, data: Option<D>, errors: Option<seq<string>>)

  datatype Response<D> = Response(statusCode: int, payload: Payload<D>)

  const DefaultSuccessMessage := "Success"
  const DefaultErrorMessage := "Something went wrong"

  /** `successResponse(res, data = null, message = "Success", statusCode = 200)`: `data` is kept iff it is not null. */
  function SuccessResponse<D>(data: Option<D>, message: Option<string>, statusCode: Option<int>): (r: Response<D>)
    ensures r.payload.success && r.payload.errors.None?
    ensures r.payload.data == data
    ensures r.payload.message == message.GetOr(DefaultSuccessMessage)
    ensures r.statusCode == statusCode.GetOr(200)
  {
    Response(statusCode.GetOr(200), Payload(true, message.GetOr(DefaultSuccessMessage), data, None))
  }

  /**
   * `errorResponse(res, message = "Something went wrong", statusCode = 500, errors = null)`:
   * `errors` is kept iff it is truthy, and an array always is, even an empty one.
   */
  function ErrorResponse<D>(message: Option<string>, statusCode: Option<int>, errors: Option<seq<string>>): (r: Response<D>)
    ensures !r.payload.success && r.payload.data.None?
    ensures r.payload.errors == errors
    ensures r.payload.message == message.GetOr(DefaultErrorMessage)
    ensures r.statusCode == statusCode.GetOr(500)
  {
    Response(statusCode.GetOr(500), Payload(false, message.GetOr(DefaultErrorMessage), None, errors))
  }

  /** With no arguments, the two helpers answer 200 "Success" and 500 "Something went wrong". */
  lemma Defaults<D>()
    ensures SuccessResponse<D>(None, None, None) == Response(200, Payload(true, "Success", None, None))
    ensures ErrorResponse<D>(None, None, None) == Response(500, Payload(false, "Something went wrong", None, None))
  {
  }

  /** A success payload and an error payload are never the same, whatever the arguments. */
  lemma SuccessAndErrorDiffer<D>(data: Option<D>, m1: Option<string>, s1: Option<int>,
                                 m2: Option<string>, s2: Option<int>, errors: Option<seq<string>>)
    ensures SuccessResponse(data, m1, s1).payload != ErrorResponse<D>(m2, s2, errors).payload
  {
  }
}
