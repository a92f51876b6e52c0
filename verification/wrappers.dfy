/** Results shared by every module. */
module Wrappers {

  datatype Option<+T> = None | Some(value: T)

  /** An operation that may fail; `Err` stands for any of the program's error values. */
  datatype Result<+T> = Ok(value: T) | Err
  {
    predicate IsFailure() {
      Err?
    }

    function PropagateFailure<U>(): Result<U>
      requires Err?
    {
      Err
    }

    function Extract(): T
      requires Ok?
    {
      value
    }
  }
}
