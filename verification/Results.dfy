/** Failure-compatible result types, for the places where the source throws or finds nothing. */
module Results {

  datatype Option<+T> = None | Some(value: T)

  datatype Result<+T> = Ok(value: T) | Thrown {
    predicate IsFailure() {
      Thrown?
    }

    function PropagateFailure<U>(): Result<U>
      requires Thrown?
    {
      Thrown
    }

    function Extract(): T
      requires Ok?
    {
      value
    }
  }

  /** The outcome of a statement that yields no value. */
  datatype Outcome = Done | Failed {
    predicate IsFailure() {
      Failed?
    }

    function PropagateFailure<U>(): Result<U>
      requires Failed?
    {
      Thrown
    }
  }
}
