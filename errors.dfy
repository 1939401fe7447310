/** The native-error taxonomy of `src/errors/mod.rs`: six kinds, each with a message. */
module Errors {
  import opened Wrappers

  datatype CoreError =
    | EvalError(message: string)
    | RangeError(message: string)
    | ReferenceError(message: string)
    | SyntaxError(message: string)
    | TypeError(message: string)
    | URIError(message: string)

  /** The outcome of a fallible native operation. */
  type CoreResult<T> = Result<T, CoreError>
}
