/** Failure-carrying results, standing in for JavaScript's thrown errors and
    rejected promises. */
module Outcomes {

  datatype Option<+T> = None | Some(value: T)

  datatype Result<+R, +E> = Success(value: R) | Failure(error: E)
}

/** Sequence helpers shared by the label parser and the prediction ranking. */
module Seqs {

  function Min(a: int, b: int): (r: int)
    ensures r <= a && r <= b && (r == a || r == b)
  {
    if a <= b then a else b
  }

  /** The positions of `xs` whose element satisfies `keep`, in ascending order:
      the indices that an order-preserving `filter(keep)` retains. */
  function Positions<T>(xs: seq<T>, keep: T -> bool): (r: seq<nat>)
    ensures forall k :: 0 <= k < |r| ==> r[k] < |xs| && keep(xs[r[k]])
    ensures forall k, m :: 0 <= k < m < |r| ==> r[k] < r[m]
    ensures forall j :: 0 <= j < |xs| && keep(xs[j]) ==> j in r
  {
    if xs == [] then []
    else
      var last := |xs| - 1;
      Positions(xs[..last], keep) + (if keep(xs[last]) then [last] else [])
  }
}
