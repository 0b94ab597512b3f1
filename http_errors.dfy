/** The error responses the API routes produce. */
module HttpErrors {

  /** `HttpException(status, detail)` raised by a route, or the framework's
      own 422 answer to a request body that fails schema validation (its
      detail is generated by the framework and not modelled). */
  datatype ApiError = HttpError(status: int, detail: string) | ValidationError
}
