/**
 * The shapes a request handler of the backend can answer with: a successful
 * value or one of the framework's error responses.
 */
module Results {

  datatype Option<+T> = None | Some(value: T) {

    /** The value, or `default` when there is none (Python's `dict.get(k, default)`). */
    function GetOr(default: T): T {
      match this
      case Some(v) => v
      case None => default
    }
  }

  /**
   * A validation failure reported under one field of the request body. The
   * framework's own validators give the first six (their messages are fixed by the
   * framework: "This field is required.", "This field may not be blank.", ...);
   * `Detail` carries a message raised by the application's own code.
   */
  datatype FieldError =
    | Required(field: string)
    | Blank(field: string)
    | TooLong(field: string, maxLength: nat)
    | InvalidChoice(field: string, input: string)
    | NoSuchObject(field: string, pk: int)
    | NotUnique(field: string)
    | Detail(field: string, message: string)

  /** What a handler answers: `Ok` carries the response body. */
  datatype Response<+T> =
    | Ok(value: T)
    | Unauthenticated
    | PermissionDenied(message: string)
    | ValidationError(error: FieldError)
    | NotFound
    | BadRequest(message: string)
  {
    /** The same failure, as the answer of a handler with another body type. */
    function Cast<U>(): (r: Response<U>)
      requires !Ok?
      ensures Unauthenticated? ==> r == Unauthenticated
      ensures PermissionDenied? ==> r == PermissionDenied(message)
      ensures ValidationError? ==> r == ValidationError(error)
      ensures NotFound? ==> r == NotFound
      ensures BadRequest? ==> r == BadRequest(message)
    {
      match this
      case Unauthenticated => Unauthenticated
      case PermissionDenied(m) => PermissionDenied(m)
      case ValidationError(e) => ValidationError(e)
      case NotFound => NotFound
      case BadRequest(m) => BadRequest(m)
    }
  }
}
