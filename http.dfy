/** What a route handler sends back: a JSON body on success, or an HTTP status with an error message. */
module Http {

  const BAD_REQUEST: int := 400
  const NOT_FOUND: int := 404

  datatype Response<+T> = Ok(body: T) | Error(status: int, message: string)
}
