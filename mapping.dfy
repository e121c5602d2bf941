/**
 * `Array.prototype.map` with a callback that may throw: the callback runs on
 * the elements in order, the first exception escapes and the remaining elements
 * are never visited; otherwise the results come back in the input's order.
 */
module Mapping {
  import opened Wrappers

  function MapAll<A, B, E>(xs: seq<A>, f: A -> Result<B, E>): (r: Result<seq<B>, E>)
    ensures r.Success? <==> forall i :: 0 <= i < |xs| ==> f(xs[i]).Success?
    ensures r.Success? ==> |r.value| == |xs| &&
                           forall i :: 0 <= i < |xs| ==> f(xs[i]) == Success(r.value[i])
    ensures r.Failure? ==> exists i :: 0 <= i < |xs| && FirstFailure(xs, f, i) && f(xs[i]) == Failure(r.error)
  {
    if xs == [] then Success([])
    else
      match f(xs[0])
      case Failure(e) =>
        assert FirstFailure(xs, f, 0);
        Failure(e)
      case Success(y) =>
        var rest := MapAll(xs[1..], f);
        if rest.Failure? then
          FirstFailureShift(xs, f);
          Failure(rest.error)
        else
          Success([y] + rest.value)
  }

  /** Index i is where the mapping throws: every earlier element maps successfully and xs[i] does not. */
  ghost predicate FirstFailure<A, B, E>(xs: seq<A>, f: A -> Result<B, E>, i: int)
  {
    0 <= i < |xs| && f(xs[i]).Failure? && forall j :: 0 <= j < i ==> f(xs[j]).Success?
  }

  lemma FirstFailureShift<A, B, E>(xs: seq<A>, f: A -> Result<B, E>)
    requires xs != [] && f(xs[0]).Success?
    ensures forall i :: FirstFailure(xs[1..], f, i) ==> FirstFailure(xs, f, i + 1)
  {
    forall i | FirstFailure(xs[1..], f, i)
      ensures FirstFailure(xs, f, i + 1)
    {
      assert xs[i + 1] == xs[1..][i];
      forall j | 0 <= j < i + 1 ensures f(xs[j]).Success? {
        if j > 0 { assert xs[j] == xs[1..][j - 1]; }
      }
    }
  }
}
