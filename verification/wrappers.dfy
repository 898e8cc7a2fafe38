/** Option and Result datatypes shared by the rest of the model. */
module Wrappers {

  /** A value that may be absent; `None` stands for PHP's `null`. */
  datatype Option<+T> = None | Some(value: T)

  /** The outcome of a value-object constructor: the built object, or the
      exception the constructor throws. */
  datatype Result<+R, +E> = Success(value: R) | Failure(error: E) {

    /** Transforms the success value and keeps the failure. */
    function MapValue<U>(f: R -> U): (r: Result<U, E>)
      ensures r.Success? <==> Success?
      ensures Success? ==> r.value == f(value)
      ensures Failure? ==> r.error == error
    {
      match this
      case Success(v) => Success(f(v))
      case Failure(e) => Failure(e)
    }
  }
}
