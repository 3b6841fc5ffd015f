/**
 * Sequence facts shared by the other modules: how slices and concatenations
 * relate, stated once so that proofs about the parser and the ingestion loop
 * can use them without re-deriving them next to large definitions.
 */
module Sequences {

  lemma TakeSnoc<T>(xs: seq<T>, i: nat)
    requires i < |xs|
    ensures xs[..i + 1] == xs[..i] + [xs[i]]
  {
  }

  lemma TakeAll<T>(xs: seq<T>)
    ensures xs[..|xs|] == xs
  {
  }

  lemma AppendNil<T>(xs: seq<T>)
    ensures xs + [] == xs
  {
  }

  lemma ButLastOfSnoc<T>(xs: seq<T>, x: T)
    ensures (xs + [x])[..|xs|] == xs && (xs + [x])[|xs|] == x
  {
  }

  /** Peeling the last element off the second half of a concatenation. */
  lemma PeelLast<T>(a: seq<T>, b: seq<T>)
    requires b != []
    ensures a + b == (a + b[..|b| - 1]) + [b[|b| - 1]]
  {
  }

  /** The same, with one element in between. */
  lemma PeelLast3<T>(a: seq<T>, x: T, b: seq<T>)
    requires b != []
    ensures a + [x] + b == (a + [x] + b[..|b| - 1]) + [b[|b| - 1]]
  {
  }

  /** A prefix of a prefix. */
  lemma PrefixOfPrefix<T>(xs: seq<T>, ys: seq<T>, zs: seq<T>)
    requires |xs| <= |ys| <= |zs|
    requires zs[..|ys|] == ys && ys[..|xs|] == xs
    ensures zs[..|xs|] == xs
  {
    assert zs[..|xs|] == zs[..|ys|][..|xs|];
  }
}
