/** Values and errors shared by the data-access and service layers.

    Python raises exceptions; the model returns them. `Result<T>` is either the
    value an operation returns or the exception it raises, and `StatusCode`
    says which HTTP status the web framework answers with when that exception
    leaves a route handler.
 */
module Errors {

  datatype Option<T> = None | Some(value: T)

  /** One entry of a request-validation error: the offending field and why. */
  datatype FieldError = FieldError(field: string, message: string)

  /** The exceptions the core raises or lets through. */
  datatype Error =
    | HttpError(status: nat, detail: string)      // fastapi.HTTPException
    | RequestValidation(errors: seq<FieldError>)  // request body rejected before the handler runs
    | ValueError(message: string)                 // raised by a field validator
    | IntegrityError(message: string)             // sqlalchemy.exc.IntegrityError
    | Exception(message: string)                  // a bare Exception, or one raised by a client library

  datatype Result<T> = Ok(value: T) | Err(error: Error)

  const BadRequest: nat := 400
  const Unauthorized: nat := 401
  const UnprocessableEntity: nat := 422
  const InternalServerError: nat := 500

  /** The status the framework answers with when `e` escapes a route:
      an HTTPException carries its own, a rejected request body is a 422,
      and anything else is an unhandled error. */
  function StatusCode(e: Error): nat {
    match e
    case HttpError(status, _) => status
    case RequestValidation(_) => UnprocessableEntity
    case _ => InternalServerError
  }
}
