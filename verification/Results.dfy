/** Optional values, and results that carry a refusal. */
module Results {

  datatype Option<+T> = None | Some(value: T)

  /** A service call either commits a new value or refuses with a reason. */
  datatype Result<+T, +E> = Ok(value: T) | Refused(error: E) {
    predicate IsFailure() {
      Refused?
    }

    function PropagateFailure<U>(): (r: Result<U, E>)
      requires Refused?
    {
      Refused(error)
    }

    function Extract(): T
      requires Ok?
    {
      value
    }
  }
}
