/** Optional values, the errors the core reports and the (value, error) pair
    that every Go function of the core returns, folded into one datatype. */
module Results {

  datatype Option<+T> = None | Some(value: T)

  /** Go returns plain `error` values. The core creates exactly one of its own,
      `errors.New("Invalid operation")`; every other error comes from a
      collaborator (the transport, the request builder, a body stream) and is
      passed back unchanged, so it is carried here as an opaque message. */
  datatype Error =
    | InvalidOperation
    | Failure(message: string)
  {
    function Message(): string
    {
      match this
      case InvalidOperation => "Invalid operation"
      case Failure(m) => m
    }
  }

  /** `(value, nil)` is `Ok(value)`, `(nil, err)` is `Err(err)`. */
  datatype Result<+T> = Ok(value: T) | Err(error: Error)
}
