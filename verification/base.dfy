/**
 * Small building blocks shared by every screen: an optional value (JavaScript's
 * `null`/`undefined` versus a present value) and the order-preserving filter
 * that `Array.prototype.filter` performs for the list screens.
 */
module Base {

  datatype Option<+T> = None | Some(value: T)

  /** `opt || ""`: a missing string reads as the empty string. */
  function OrEmpty(opt: Option<string>): (r: string)
    ensures opt.None? ==> r == ""
    ensures opt.Some? ==> r == opt.value
  {
    match opt
    case None => ""
    case Some(s) => s
  }

  /** `Array.prototype.filter`: keeps, in their original order, the elements that satisfy `p`. */
  function Filter<T(!new)>(xs: seq<T>, p: T -> bool): (r: seq<T>)
    ensures |r| <= |xs|
    ensures forall x :: x in r <==> x in xs && p(x)
    ensures multiset(r) <= multiset(xs)
  {
    if |xs| == 0 then []
    else
      var rest := Filter(xs[1..], p);
      assert forall x :: x in xs <==> x == xs[0] || x in xs[1..];
      assert xs == [xs[0]] + xs[1..];
      if p(xs[0]) then [xs[0]] + rest else rest
  }

  /** Filtering a concatenation filters each part and keeps them in order:
      the relative order of the kept elements is the input order. */
  lemma {:induction false} FilterAppend<T(!new)>(xs: seq<T>, ys: seq<T>, p: T -> bool)
    ensures Filter(xs + ys, p) == Filter(xs, p) + Filter(ys, p)
  {
    if |xs| == 0 {
      assert xs + ys == ys;
    } else {
      assert (xs + ys)[1..] == xs[1..] + ys;
      FilterAppend(xs[1..], ys, p);
    }
  }

  /** When every element passes, the filter returns the list unchanged. */
  lemma {:induction false} FilterKeepsAll<T(!new)>(xs: seq<T>, p: T -> bool)
    requires forall i :: 0 <= i < |xs| ==> p(xs[i])
    ensures Filter(xs, p) == xs
  {
    if |xs| > 0 {
      FilterKeepsAll(xs[1..], p);
    }
  }
}
