/** Error classes of the services layer and the result type every fallible operation returns. */
module Common {

  datatype Option<+T> = None | Some(value: T)

  /** The three custom error classes, plus any other JavaScript `Error` (identified by its message). */
  datatype Error =
    | FileProcessingError(message: string, fileName: string)
    | AIProcessingError(message: string, fileName: string)
    | ValidationError(message: string)
    | OtherError(message: string)

  /** A value, or the error that was thrown instead. */
  datatype Result<+T> = Ok(value: T) | Err(error: Error) {

    predicate IsFailure() {
      Err?
    }

    function PropagateFailure<U>(): Result<U>
      requires Err?
    {
      Err(error)
    }

    function Extract(): T
      requires Ok?
    {
      value
    }
  }
}
