/** The outcome of one operation: a success value or a failure carrying an
    error of a type shared by every operation that is combined. */
module Outcomes {

  datatype Result<+T, +E> = Success(value: T) | Failure(error: E) {

    /** Applies `f` to a success value and passes a failure through unchanged. */
    function MapValue<U>(f: T -> U): (r: Result<U, E>)
      ensures r.Success? <==> this.Success?
      ensures r.Success? ==> r.value == f(this.value)
      ensures r.Failure? ==> r.error == this.error
    {
      match this
      case Success(v) => Success(f(v))
      case Failure(e) => Failure(e)
    }
  }

  /** The outcome with its success value forgotten: which way it went and, on
      failure, with what error. Lets results of different value types be
      compared and scanned together. */
  function Status<T, E>(r: Result<T, E>): (s: Result<(), E>)
    ensures s.Success? <==> r.Success?
    ensures s.Failure? ==> s.error == r.error
  {
    match r
    case Success(_) => Success(())
    case Failure(e) => Failure(e)
  }
}
