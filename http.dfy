/** The JSON replies of the API routes: a success body, or an HTTP error status with the
    `error` message the route puts in its body. */
module Http {

  datatype Reply<+T> = Ok(value: T) | Err(status: nat, error: string)

  const BadRequest: nat := 400
  const Unauthorized: nat := 401
  const NotFound: nat := 404
}
