/** Option, Result and Outcome types used across the model; Result and
    Outcome support the `:-` failure-propagation operator. */
module Wrappers {

  datatype Option<+T> = None | Some(value: T)

  datatype Result<+T, +E> = Ok(value: T) | Err(error: E) {
    predicate IsFailure() { Err? }

    function PropagateFailure<U>(): Result<U, E>
      requires Err?
    {
      Err(error)
    }

    function Extract(): T
      requires Ok?
    {
      value
    }
  }

  /** The status of a step that changes state and yields no value. */
  datatype Outcome<+E> = Pass | Fail(error: E)

  /** The status of a computation, forgetting its value. */
  function ToOutcome<T, E>(r: Result<T, E>): (o: Outcome<E>)
    ensures o.Pass? <==> r.Ok?
    ensures o.Fail? ==> o.error == r.error
  {
    match r
    case Ok(_) => Pass
    case Err(e) => Fail(e)
  }
}
