/** Sequence helpers: duplicate-freedom, element sets, and the behaviour of
    the JavaScript call `xs.splice(start, 1)` on an array, which the reducers
    use to delete one scene id or one modulator.
 */
module Sequences {

  predicate NoDuplicates<T(==)>(xs: seq<T>) {
    forall i, j :: 0 <= i < j < |xs| ==> xs[i] != xs[j]
  }

  function Elems<T>(xs: seq<T>): set<T> {
    set x | x in xs
  }

  /** The position `Array.prototype.splice` starts at for an integer
      `start` on an array of length `len`: a negative start counts back from
      the end (and stops at 0), a start past the end is the end. */
  function SpliceStart(len: nat, start: int): (k: nat)
    ensures k <= len
    ensures 0 <= start <= len ==> k == start
    ensures start > len ==> k == len
    ensures start < 0 && len + start >= 0 ==> k == len + start
    ensures len + start < 0 ==> k == 0
  {
    if start < 0 then (if len + start < 0 then 0 else len + start)
    else if start > len then len
    else start
  }

  /** The array left behind by `xs.splice(start, 1)`. */
  function Splice1<T>(xs: seq<T>, start: int): (r: seq<T>)
    ensures SpliceStart(|xs|, start) == |xs| ==> r == xs
    ensures SpliceStart(|xs|, start) < |xs| ==> |r| == |xs| - 1
    ensures forall j :: 0 <= j < SpliceStart(|xs|, start) && j < |r| ==> r[j] == xs[j]
    ensures forall j :: SpliceStart(|xs|, start) <= j < |r| ==> r[j] == xs[j + 1]
  {
    var k := SpliceStart(|xs|, start);
    if k < |xs| then xs[..k] + xs[k + 1..] else xs
  }

  /** Deleting one position keeps every other element: the multiset of
      the result plus the removed element is the multiset of the input. */
  lemma {:induction false} SplicePermutation<T>(xs: seq<T>, k: int)
    requires 0 <= k < |xs|
    ensures multiset(Splice1(xs, k)) + multiset{xs[k]} == multiset(xs)
  {
    assert xs == xs[..k] + [xs[k]] + xs[k + 1..];
    assert Splice1(xs, k) == xs[..k] + xs[k + 1..];
  }

  /** On a duplicate-free sequence, deleting position `k` removes exactly
      the element `xs[k]` and leaves the result duplicate-free. */
  lemma SpliceElems<T>(xs: seq<T>, k: int)
    requires NoDuplicates(xs)
    requires 0 <= k < |xs|
    ensures NoDuplicates(Splice1(xs, k))
    ensures Elems(Splice1(xs, k)) == Elems(xs) - {xs[k]}
  {
  }

  /** Appending keeps a sequence duplicate-free exactly when the new
      element is not already in it. */
  lemma AppendNoDuplicates<T>(xs: seq<T>, x: T)
    ensures NoDuplicates(xs + [x]) <==> NoDuplicates(xs) && x !in xs
  {
    if NoDuplicates(xs + [x]) {
      forall i | 0 <= i < |xs|
        ensures xs[i] != x
      {
        assert (xs + [x])[i] == xs[i] && (xs + [x])[|xs|] == x;
      }
      forall i, j | 0 <= i < j < |xs|
        ensures xs[i] != xs[j]
      {
        assert (xs + [x])[i] == xs[i] && (xs + [x])[j] == xs[j];
      }
    }
  }

  /** `splice` at the last position, or at -1, undoes a `push`. */
  lemma SpliceUndoesPush<T>(xs: seq<T>, x: T)
    ensures Splice1(xs + [x], |xs|) == xs
    ensures Splice1(xs + [x], -1) == xs
  {
  }
}
