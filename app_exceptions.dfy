/**
 * The exceptions that reach the web layer: the application's not-found, validation and
 * operation failures (the exception classes of application/exception/), the binding failure Spring raises for
 * an invalid request body, and any other runtime exception.
 */
module Failures {
  import opened JavaStrings
  import opened JavaValues
  import AdvertisementValidation

  /** `AdvertisementOperationException.OperationType`. */
  datatype OperationType = CREATE | UPDATE | DELETE | RETRIEVE | TARGETING

  /** A binding error as Spring reports it: tied to a field, or to the object as a whole. */
  datatype ObjectError =
    | FieldError(field: string, defaultMessage: string)
    | GlobalError(defaultMessage: string)

  /** A thrown exception, by the class the exception handler dispatches on. */
  datatype Failure =
    | NotFound(message: string)                                                 // AdvertisementNotFoundException
    | Validation(exception: AdvertisementValidation.AdvertisementValidationException)
    | Operation(operation: OperationType, message: string)                      // AdvertisementOperationException
    | ArgumentNotValid(bindingErrors: seq<ObjectError>)                         // MethodArgumentNotValidException
    | Unexpected(cause: JavaException)                                          // any other exception

  /** The prefix of every not-found message built from an id. */
  const NOT_FOUND_PREFIX := "Advertisement not found with id: "

  /** `new AdvertisementNotFoundException(id)`: the message names the missing id. */
  function NotFoundFor(id: int): (f: Failure)
    ensures f.NotFound? && StartsWith(f.message, NOT_FOUND_PREFIX)
    ensures f.message[|NOT_FOUND_PREFIX|..] == LongToString(id)
  {
    NotFound(NOT_FOUND_PREFIX + LongToString(id))
  }
}
