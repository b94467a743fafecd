// Sequences.
module Sequences {

  ghost predicate Distinct<T>(xs: seq<T>) {
    forall i, j :: 0 <= i < j < |xs| ==> xs[i] != xs[j]
  }

  function Reverse<T>(xs: seq<T>): (ys: seq<T>)
    ensures |ys| == |xs|
    ensures forall i :: 0 <= i < |xs| ==> ys[i] == xs[|xs| - 1 - i]
  {
    if xs == [] then [] else Reverse(xs[1..]) + [xs[0]]
  }

  lemma {:induction false} ReverseAppend<T>(xs: seq<T>, x: T)
    ensures Reverse(xs + [x]) == [x] + Reverse(xs)
  {
    assert forall i :: 0 <= i < |xs| + 1 ==> Reverse(xs + [x])[i] == ([x] + Reverse(xs))[i];
  }

  lemma {:induction false} ReverseTwice<T>(xs: seq<T>)
    ensures Reverse(Reverse(xs)) == xs
  {
  }

  lemma {:induction false} OneByOne<T>(xs: seq<T>, a: T, b: T, c: T, d: T)
    ensures xs + [a] + [b] + [c] + [d] == xs + [a, b, c, d]
  {
  }
}
