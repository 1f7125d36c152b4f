/** The error-handling middleware that receives whatever a handler forwarded
    with `next(err)`: it answers with `ApiResponse.error`'s defaults. */
module ErrorMiddleware {
  import opened Wrappers
  import opened Http
  import ApiResponse

  /** Any forwarded error becomes 500 "Something went wrong" with `data: null`. */
  method Handle(res: Response)
    modifies res
    ensures res.statusCode == 500
    ensures res.body == Some(Body(false, Some(JsonNull), ApiResponse.DEFAULT_ERROR_MESSAGE, None))
    ensures res.cookies == old(res.cookies)
  {
    ApiResponse.Error(res, None, None, None);
  }
}
