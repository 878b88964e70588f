// Option and Result wrappers used across the model.  A Python exception that
// the code propagates or catches is modelled as a Failure carrying the text
// that `str(e)` would show.
module Wrappers {
  datatype Option<T> = None | Some(value: T) {
    function GetOr(default: T): T {
      match this
      case None => default
      case Some(v) => v
    }
  }

  datatype Result<T, E> = Success(value: T) | Failure(error: E) {
    predicate IsFailure() { Failure? }

    function PropagateFailure<U>(): Result<U, E>
      requires Failure?
    {
      Failure(error)
    }

    function Extract(): T
      requires Success?
    {
      value
    }
  }

  /** Apply `f` to every element left to right, stopping at the first failure. */
  function MapAll<T, U, E>(xs: seq<T>, f: T -> Result<U, E>): (r: Result<seq<U>, E>)
    ensures r.Success? <==> forall i :: 0 <= i < |xs| ==> f(xs[i]).Success?
    ensures r.Success? ==> |r.value| == |xs| && forall i :: 0 <= i < |xs| ==> r.value[i] == f(xs[i]).value
  {
    if xs == [] then Success([])
    else
      var init := xs[..|xs| - 1];
      assert forall i :: 0 <= i < |init| ==> init[i] == xs[i];
      var done :- MapAll(init, f);
      var last :- f(xs[|xs| - 1]);
      Success(done + [last])
  }

  /** The error `MapAll` reports is that of the first failing element. */
  lemma {:induction false} MapAllFirstFailure<T, U, E>(xs: seq<T>, f: T -> Result<U, E>, i: nat)
    requires i < |xs|
    requires MapAll(xs[..i], f).Success? && f(xs[i]).Failure?
    ensures MapAll(xs, f) == Failure(f(xs[i]).error)
    decreases |xs|
  {
    if |xs| == i + 1 {
      assert xs[..|xs| - 1] == xs[..i];
    } else {
      var init := xs[..|xs| - 1];
      assert init[..i] == xs[..i];
      assert init[i] == xs[i];
      MapAllFirstFailure(init, f, i);
    }
  }

  /** One more successful element extends a successful prefix. */
  lemma MapAllExtend<T, U, E>(xs: seq<T>, f: T -> Result<U, E>, i: nat)
    requires i < |xs|
    requires MapAll(xs[..i], f).Success? && f(xs[i]).Success?
    ensures MapAll(xs[..i + 1], f) == Success(MapAll(xs[..i], f).value + [f(xs[i]).value])
  {
    assert xs[..i + 1][..i] == xs[..i];
  }
}
