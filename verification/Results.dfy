/** Optional values and error returns shared by the modules of this project. */
module Results {

  datatype Option<+T> = None | Some(value: T)

  /** A call that returns a value, or throws the named error. */
  datatype Result<+T, +E> = Ok(value: T) | Err(error: E)
  {
    predicate IsFailure() { Err? }

    function PropagateFailure<U>(): Result<U, E>
      requires Err?
    {
      Err(error)
    }

    function Extract(): T
      requires Ok?
    {
      value
    }
  }
}
