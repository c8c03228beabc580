/** Swift's `Optional`: a value or nothing. */
module Options {

  datatype Option<+T> = None | Some(value: T) {

    /** Swift's `??`: the wrapped value, or `default` when there is none. */
    function GetOr(default: T): (r: T)
      ensures Some? ==> r == value
      ensures None? ==> r == default
    {
      match this
      case Some(v) => v
      case None => default
    }
  }

  /**
   * Swift's `flatMap` with an optional-returning transform (`compactMap`):
   * the transformed elements that are present, in order.
   */
  function FlatMap<A, B>(xs: seq<A>, f: A -> Option<B>): (r: seq<B>)
    ensures |r| <= |xs|
    ensures forall y :: y in r ==> exists i :: 0 <= i < |xs| && f(xs[i]) == Some(y)
  {
    if |xs| == 0 then []
    else
      var rest := FlatMap(xs[1..], f);
      assert forall y :: y in rest ==> exists i :: 0 <= i < |xs| && f(xs[i]) == Some(y) by {
        forall y | y in rest ensures exists i :: 0 <= i < |xs| && f(xs[i]) == Some(y) {
          var j :| 0 <= j < |xs[1..]| && f(xs[1..][j]) == Some(y);
          assert f(xs[j + 1]) == Some(y);
        }
      }
      match f(xs[0])
      case Some(y) => [y] + rest
      case None => rest
  }

  /** `flatMap` of a concatenation is the concatenation of the parts: order is kept. */
  lemma {:induction false} FlatMapAppend<A, B>(xs: seq<A>, ys: seq<A>, f: A -> Option<B>)
    ensures FlatMap(xs + ys, f) == FlatMap(xs, f) + FlatMap(ys, f)
  {
    if |xs| == 0 {
      assert xs + ys == ys;
    } else {
      assert (xs + ys)[1..] == xs[1..] + ys;
      FlatMapAppend(xs[1..], ys, f);
    }
  }

  /** Every element whose transform is present contributes it. */
  lemma {:induction false} FlatMapKeeps<A, B>(xs: seq<A>, f: A -> Option<B>, i: nat)
    requires i < |xs| && f(xs[i]).Some?
    ensures f(xs[i]).value in FlatMap(xs, f)
  {
    if i > 0 {
      FlatMapKeeps(xs[1..], f, i - 1);
    }
  }

  /** When every transform is present, nothing is dropped and the order is the input's. */
  lemma {:induction false} FlatMapAllPresent<A, B>(xs: seq<A>, f: A -> Option<B>)
    requires forall i :: 0 <= i < |xs| ==> f(xs[i]).Some?
    ensures |FlatMap(xs, f)| == |xs|
    ensures forall i :: 0 <= i < |xs| ==> FlatMap(xs, f)[i] == f(xs[i]).value
  {
    if |xs| > 0 {
      FlatMapAllPresent(xs[1..], f);
    }
  }
}
