/** Optional values and the outcome of an operation that the Swift code guards with
    `precondition` or `fatalError`. */
module Wrappers {

  datatype Option<+T> = None | Some(value: T)

  /** `Fatal` stands for a process-ending trap, carrying the message the trap reports. */
  datatype Result<+T> = Ok(value: T) | Fatal(message: string) {

    predicate IsFailure() {
      Fatal?
    }

    function PropagateFailure<U>(): Result<U>
      requires Fatal?
    {
      Fatal(message)
    }

    function Extract(): T
      requires Ok?
    {
      value
    }
  }
}
