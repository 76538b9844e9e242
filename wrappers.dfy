/** Option, Result and Outcome: the error paths of the attachment operations. */
module Wrappers {

  datatype Option<+T> = None | Some(value: T) {
    function GetOr(default: T): T {
      match this
      case Some(v) => v
      case None => default
    }
  }

  /** A value or the exception that the operation raised instead. */
  datatype Result<+T, +E> = Success(value: T) | Failure(error: E) {
    function GetOr(default: T): T {
      match this
      case Success(v) => v
      case Failure(_) => default
    }
  }

  /** The outcome of an operation that returns nothing but may raise. */
  datatype Outcome<+E> = Pass | Fail(error: E)

  /** Forgets the value of a result and keeps whether it raised. */
  function StatusOf<T, E>(r: Result<T, E>): (o: Outcome<E>)
    ensures o.Pass? <==> r.Success?
    ensures r.Failure? ==> o == Fail(r.error)
  {
    match r
    case Success(_) => Pass
    case Failure(e) => Fail(e)
  }
}
