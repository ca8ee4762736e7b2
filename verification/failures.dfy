/** The errors a controller's try-block can throw, with the three properties
    its catch-block inspects: `err.name === 'CastError'`, `err.code === 11000`
    and `err.statusCode`. */
module Failures {

  /** Why one schema path failed validation. */
  datatype Violation =
    | Uncastable            // the value cannot be cast to the path's type
    | Required              // required path missing, null or empty
    | Mismatch              // string does not match the path's pattern
    | TooLong(limit: nat)   // string longer than the path's maxlength
    | NotInEnum             // string outside the path's enum
    | TooSmall(floor: int)  // number below the path's min
    | TooLarge(bound: int)  // number above the path's max

  datatype FieldError = FieldError(path: string, violation: Violation)

  /** The `error` text of a failure response. Fixed controller messages are
      kept verbatim; Mongoose's own messages are kept by their content. */
  datatype Message =
    | Says(text: string)
    | Invalid(model: string, errors: seq<FieldError>)   // a ValidationError's message
    | CastFailed(path: string)                          // a CastError's message
    | DuplicateKeyText                                  // an E11000 error's message
    | DriverText                                        // any other driver failure's message

  datatype Thrown =
    | CastError(path: string)                           // a query could not cast an id
    | ValidationError(model: string, errors: seq<FieldError>)
    | DuplicateKey                                      // MongoServerError, code 11000
    | AppError(statusCode: int, text: string)           // `new Error(...)` with `statusCode` set
    | StoreDown                                         // connection or server failure
  {
    /** `err.name === 'CastError'` */
    predicate IsCastError() {
      CastError?
    }

    /** `err.code === 11000` */
    predicate IsDuplicateKey() {
      DuplicateKey?
    }

    /** `err.statusCode || 400` */
    function StatusOr400(): int {
      if AppError? && statusCode != 0 then statusCode else 400
    }

    /** `err.message` (never empty, so `|| 'Bad request'` never applies). */
    function Message(): Message {
      match this
      case CastError(path) => CastFailed(path)
      case ValidationError(model, errors) => Invalid(model, errors)
      case DuplicateKey => DuplicateKeyText
      case AppError(_, text) => Says(text)
      case StoreDown => DriverText
    }
  }

  /** The outcome of an awaited step: a value, or the error it throws. */
  datatype Try<+T> = Ok(value: T) | Fail(error: Thrown) {
    predicate IsFailure() {
      Fail?
    }

    function PropagateFailure<U>(): Try<U>
      requires Fail?
    {
      Fail(error)
    }

    function Extract(): T
      requires Ok?
    {
      value
    }
  }
}
