/** Helpers over sequences shared by the other modules. */
module Sequences {

  /** `xs` with `f` applied to every element, in order: Java's `stream().map(f).collect(toList())`. */
  function Project<A, B>(xs: seq<A>, f: A -> B): (ys: seq<B>)
    ensures |ys| == |xs|
    ensures forall i :: 0 <= i < |xs| ==> ys[i] == f(xs[i])
  {
    seq(|xs|, i requires 0 <= i < |xs| => f(xs[i]))
  }
}
