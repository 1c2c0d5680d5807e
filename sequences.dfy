/** Order and uniqueness over sequences, shared by the list-filtering parts of the app. */
module Sequences {

  /** `a` is `b` with some elements left out, the rest in the same order. */
  ghost predicate Subsequence<T>(a: seq<T>, b: seq<T>)
    decreases |b|
  {
    if a == [] then true
    else if b == [] then false
    else if a[0] == b[0] then Subsequence(a[1..], b[1..])
    else Subsequence(a, b[1..])
  }

  predicate NoDuplicates<T(==)>(s: seq<T>) {
    forall i, j :: 0 <= i < j < |s| ==> s[i] != s[j]
  }

  /** A sequence has no duplicates iff its head is not in its tail and the tail has none. */
  lemma NoDuplicatesCons<T>(s: seq<T>)
    requires s != []
    ensures NoDuplicates(s) <==> s[0] !in s[1..] && NoDuplicates(s[1..])
  {
    assert forall i :: 0 < i < |s| ==> s[i] == s[1..][i - 1];
  }

  /** Skipping the head of `b` keeps a subsequence of its tail one of `b`. */
  lemma {:induction false} SubsequenceDropHead<T>(a: seq<T>, b: seq<T>)
    requires b != [] && Subsequence(a, b[1..])
    ensures Subsequence(a, b)
    decreases |a| + |b|
  {
    if a != [] && a[0] == b[0] {
      // a[1..] is a subsequence of a, and a of b[1..]
      SubsequenceTail(a, b[1..]);
    }
  }

  /** Dropping the head of a subsequence keeps it a subsequence. */
  lemma {:induction false} SubsequenceTail<T>(a: seq<T>, b: seq<T>)
    requires a != [] && Subsequence(a, b)
    ensures Subsequence(a[1..], b)
    decreases |a| + |b|
  {
    if a[0] == b[0] {
      if a[1..] != [] {
        SubsequenceDropHead(a[1..], b);
      }
    } else {
      SubsequenceTail(a, b[1..]);
      if a[1..] != [] {
        SubsequenceDropHead(a[1..], b);
      }
    }
  }
}
