/**
 * Small facts about sequences, stated once so that the proofs about schedules
 * and builders can cite them instead of re-deriving sequence equalities.
 */
module Seqs {

  /** No repeated element. */
  predicate Distinct<T(==)>(xs: seq<T>) {
    forall i, j :: 0 <= i < j < |xs| ==> xs[i] != xs[j]
  }

  /** Concatenation is associative. */
  lemma AppendAssoc<T>(a: seq<T>, b: seq<T>, c: seq<T>)
    ensures a + (b + c) == (a + b) + c
  {
  }

  /** A non-empty sequence is its front followed by its last element. */
  lemma LastSplit<T>(b: seq<T>)
    requires |b| > 0
    ensures b == b[..|b| - 1] + [b[|b| - 1]]
  {
  }

  /** A prefix one element longer is the prefix with that element appended; and its own prefix is the shorter one. */
  lemma PrefixSnoc<T>(xs: seq<T>, i: nat)
    requires i < |xs|
    ensures xs[..i] + [xs[i]] == xs[..i + 1]
    ensures xs[..i + 1][..i] == xs[..i]
  {
  }

  /** The prefix of full length is the whole sequence. */
  lemma PrefixAll<T>(xs: seq<T>)
    ensures xs[..|xs|] == xs
  {
  }

  /** Dropping the first element of a suffix moves the suffix on by one. */
  lemma SuffixStep<T>(xs: seq<T>, j: nat)
    requires j < |xs|
    ensures xs[j..][1..] == xs[j + 1..] && xs[j..][0] == xs[j]
  {
  }

  /** A sequence extended by one more element, after a prefix. */
  lemma SnocTwo<T>(l0: seq<T>, front: seq<T>, last: T, xs: seq<T>)
    requires |xs| > 0 && front == xs[..|xs| - 1] && last == xs[|xs| - 1]
    ensures l0 + front + [last] == l0 + xs
  {
    assert front + [last] == xs;
  }

  /** Three single appends in a row. */
  lemma SnocThree<T>(i0: seq<T>, i1: seq<T>, i2: seq<T>, i3: seq<T>, x: T, y: T, z: T)
    requires i1 == i0 + [x] && i2 == i1 + [y] && i3 == i2 + [z]
    ensures i3 == i0 + [x, y, z]
  {
  }

  /** Membership in a non-empty sequence: in its front, or its last element. */
  lemma MemberSplit<T>(xs: seq<T>)
    requires |xs| > 0
    ensures forall c :: c in xs <==> c in xs[..|xs| - 1] || c == xs[|xs| - 1]
  {
  }

  /** Membership in a non-empty sequence: its first element, or in its tail. */
  lemma MemberHeadTail<T>(xs: seq<T>)
    requires |xs| > 0
    ensures forall c :: c in xs <==> c == xs[0] || c in xs[1..]
  {
  }
}
