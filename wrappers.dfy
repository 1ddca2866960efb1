/** Option and Result, the failure-compatible wrappers the rest of the model uses. */
module Wrappers {

  datatype Option<+T> = None | Some(value: T)

  datatype Result<+R, +E> = Success(value: R) | Failure(error: E) {
    predicate IsFailure() {
      Failure?
    }

    function PropagateFailure<U>(): Result<U, E>
      requires Failure?
    {
      Failure(error)
    }

    function Extract(): R
      requires Success?
    {
      value
    }
  }

  /**
   * `f` applied to each item in order, stopping at the first failure, as a Python loop or a pandas
   * `apply` stops at the first exception.
   */
  function MapAll<A, B, E>(f: A -> Result<B, E>, xs: seq<A>): (r: Result<seq<B>, E>)
    ensures r.Success? <==> forall i :: 0 <= i < |xs| ==> f(xs[i]).Success?
    ensures r.Success? ==> |r.value| == |xs| && forall i :: 0 <= i < |xs| ==> r.value[i] == f(xs[i]).value
    ensures r.Failure? ==>
              exists i :: 0 <= i < |xs| && f(xs[i]) == Failure(r.error) && forall j :: 0 <= j < i ==> f(xs[j]).Success?
    decreases |xs|
  {
    if xs == [] then Success([])
    else match f(xs[0])
      case Failure(e) => Failure(e)
      case Success(y) =>
        match MapAll(f, xs[1..])
        case Failure(e) => Failure(e)
        case Success(ys) => Success([y] + ys)
  }
}

/** The Python exceptions the modelled code can raise, reduced to their kind and a key or detail. */
module Exceptions {

  datatype Error =
    | KeyError(key: string)        // a missing column or dictionary key
    | ValueError(detail: string)   // max() of an empty list, an unparseable date, a bad unpack
    | TypeError(detail: string)    // a call with an unexpected keyword argument
    | IndexError(detail: string)   // a list subscript out of range
    | JsonDecodeError              // a progress file that is not valid JSON
}
