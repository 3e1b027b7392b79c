/** Facts about sequences that the solver does not find on its own when the
    elements are themselves sequences or datatypes holding them. */
module Sequences {

  /** A nonempty sequence is its head followed by its tail. */
  lemma ConsSplit<T>(xs: seq<T>)
    requires xs != []
    ensures [xs[0]] + xs[1..] == xs
  {
  }

  /** Where x lands in a + [x] + b, and what the tail of that is. */
  lemma AroundOne<T>(a: seq<T>, x: T, b: seq<T>)
    ensures |a + [x] + b| == |a| + 1 + |b|
    ensures (a + [x] + b)[|a|] == x
    ensures a == [] ==> (a + [x] + b)[0] == x
    ensures a != [] ==> (a + [x] + b)[0] == a[0] && (a + [x] + b)[1..] == a[1..] + [x] + b
    ensures forall i :: 0 <= i < |a| ==> (a + [x] + b)[i] == a[i]
    ensures forall i :: 0 <= i < |b| ==> (a + [x] + b)[|a| + 1 + i] == b[i]
  {
    if a != [] {
      assert (a + [x] + b)[1..] == a[1..] + [x] + b;
    }
  }

  /** The head and tail of [x] + a. */
  lemma HeadTail<T>(x: T, a: seq<T>)
    ensures ([x] + a)[0] == x && ([x] + a)[1..] == a
    ensures forall i :: 0 <= i < |a| ==> ([x] + a)[i + 1] == a[i]
  {
  }
}
