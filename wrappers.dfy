/**
 * Option and Result, the model's stand-ins for Go's nil pointers and `(value, error)` returns,
 * and the first-error collection of a sequence of results that Go's early-return loops perform.
 */
module Wrappers {

  /** A value that may be absent: `None` models a nil pointer or interface. */
  datatype Option<+T> = None | Some(value: T)

  /** The outcome of a Go call returning `(value, error)`: `Failure` models a non-nil error. */
  datatype Result<+T, +E> = Success(value: T) | Failure(error: E)
  /** The results taken in order: all their values, or the error of the first one that failed. */
  function Collect<T, E>(rs: seq<Result<T, E>>): Result<seq<T>, E>
    decreases |rs|
  {
    if rs == [] then Success([])
    else match Collect(rs[..|rs| - 1])
      case Failure(e) => Failure(e)
      case Success(out) =>
        match rs[|rs| - 1]
        case Failure(e) => Failure(e)
        case Success(x) => Success(out + [x])
  }

  /**
   * Collecting succeeds exactly when every result does, and then keeps every value in order;
   * otherwise its error is that of the first failed result.
   */
  lemma {:induction false} CollectSpec<T, E>(rs: seq<Result<T, E>>)
    ensures Collect(rs).Success? <==> forall i :: 0 <= i < |rs| ==> rs[i].Success?
    ensures Collect(rs).Success? ==>
              && |Collect(rs).value| == |rs|
              && forall i :: 0 <= i < |rs| ==> Collect(rs).value[i] == rs[i].value
    ensures Collect(rs).Failure? ==>
              exists j :: && 0 <= j < |rs| && rs[j].Failure?
                          && (forall i :: 0 <= i < j ==> rs[i].Success?)
                          && Collect(rs).error == rs[j].error
    decreases |rs|
  {
    if rs != [] {
      var init := rs[..|rs| - 1];
      CollectSpec(init);
      assert forall i :: 0 <= i < |init| ==> init[i] == rs[i];
      if Collect(init).Failure? {
        var j :| && 0 <= j < |init| && init[j].Failure?
                 && (forall i :: 0 <= i < j ==> init[i].Success?)
                 && Collect(init).error == init[j].error;
        assert rs[j] == init[j];
      }
    }
  }
}
