/** The framework's HTTP vocabulary the gateway core relies on. */
module Http {
  import opened Wrappers

  /** `HttpStatusCode.TooManyRequests`. */
  const TooManyRequests: int := 429

  /** An exception escaping a downstream call: an `HttpRequestException`, which
      carries a status code only when the server answered (a connection
      failure has none), or any other exception type. */
  datatype HttpException =
    | HttpRequestException(statusCode: Option<int>)
    | OtherException(typeName: string)
}
