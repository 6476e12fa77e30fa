/** The two result types the other modules use for optional values and for raised exceptions. */
module Wrappers {
  datatype Option<+T> = None | Some(value: T)

  /** `Err` stands for a Python exception; the error says which one. */
  datatype Result<+T> = Ok(value: T) | Err(error: Error) {
    predicate IsFailure() { Err? }
    function PropagateFailure<U>(): Result<U> requires Err? { Err(error) }
    function Extract(): T requires Ok? { value }
  }

  datatype Error =
    | OutOfMemory
    | DoubleFree
    | AssertionError
    | NoSwapSpace
    | KeyError
    | IndexError
}
