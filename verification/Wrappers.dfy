/** Result types shared by every module. */
module Wrappers {

  datatype Option<+T> = None | Some(value: T) {
    predicate IsFailure() {
      None?
    }

    function PropagateFailure<U>(): Option<U>
      requires None?
    {
      None
    }

    function Extract(): T
      requires Some?
    {
      value
    }
  }

  /** Ok carries the value a call returns; Err carries the exception it raises. */
  datatype Result<+T, +E> = Ok(value: T) | Err(error: E)
}
