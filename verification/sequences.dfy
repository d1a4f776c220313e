/** Element-wise maps over sequences: the model of Rust's
    `iter().map(f).collect()`. */
module Sequences {

  /** Applies `f` to every element, keeping the order. */
  function Map<A, B>(f: A -> B, s: seq<A>): (r: seq<B>)
    ensures |r| == |s|
    ensures forall i :: 0 <= i < |s| ==> r[i] == f(s[i])
  {
    if s == [] then [] else [f(s[0])] + Map(f, s[1..])
  }

  /** Every element of `s` satisfies `p`. */
  predicate All<A>(p: A -> bool, s: seq<A>) {
    forall i :: 0 <= i < |s| ==> p(s[i])
  }
}
