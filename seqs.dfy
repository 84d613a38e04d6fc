/** Sequence helpers: reversal (Rust's `.rev().collect()`) and flattening. */
module Seqs {

  /** The elements in the opposite order. */
  function Reversed<T>(s: seq<T>): (r: seq<T>)
    ensures |r| == |s|
  {
    if |s| == 0 then [] else [s[|s| - 1]] + Reversed(s[..|s| - 1])
  }

  lemma {:induction false} ReversedIndex<T>(s: seq<T>)
    ensures forall k :: 0 <= k < |s| ==> Reversed(s)[k] == s[|s| - 1 - k]
    decreases |s|
  {
    if |s| > 0 {
      ReversedIndex(s[..|s| - 1]);
    }
  }

  /** Reversing a slice of the reversed sequence gives back a slice of the original. */
  lemma {:induction false} ReversedSlice<T>(s: seq<T>, i: nat, j: nat)
    requires i <= j <= |s|
    ensures Reversed(Reversed(s)[i..j]) == s[|s| - j..|s| - i]
  {
    var m := Reversed(s)[i..j];
    ReversedIndex(s);
    ReversedIndex(m);
    assert forall k :: 0 <= k < j - i ==> Reversed(m)[k] == s[|s| - j + k];
  }

  lemma {:induction false} ReversedSnoc<T>(s: seq<T>, x: T)
    ensures Reversed(s + [x]) == [x] + Reversed(s)
  {
    assert (s + [x])[..|s|] == s;
  }

  /** Concatenation of a sequence of strings, in order. */
  function Flatten<T>(ss: seq<seq<T>>): seq<T> {
    if ss == [] then [] else Flatten(ss[..|ss| - 1]) + ss[|ss| - 1]
  }

  /** The images of the elements under `f`, concatenated in order. */
  function FlatMap<T, U>(f: T -> seq<U>, xs: seq<T>): seq<U> {
    if |xs| == 0 then [] else FlatMap(f, xs[..|xs| - 1]) + f(xs[|xs| - 1])
  }

  lemma {:induction false} FlatMapConcat<T, U>(f: T -> seq<U>, a: seq<T>, b: seq<T>)
    ensures FlatMap(f, a + b) == FlatMap(f, a) + FlatMap(f, b)
    decreases |b|
  {
    if |b| == 0 {
      assert a + b == a;
    } else {
      var b' := b[..|b| - 1];
      assert (a + b)[..|a + b| - 1] == a + b';
      FlatMapConcat(f, a, b');
    }
  }
}
