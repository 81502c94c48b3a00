/** `Array.prototype.filter` on sequences, and the facts the client's queries
    rely on: the result keeps storage order, filters compose by conjunction,
    and a predicate and its negation split a list. */
module Sequences {

  /** `r` is `s` with some elements dropped, the rest in their original order. */
  ghost predicate IsSubsequence<T>(r: seq<T>, s: seq<T>)
    decreases |s|
  {
    if r == [] then true
    else if s == [] then false
    else if r[0] == s[0] then IsSubsequence(r[1..], s[1..])
    else IsSubsequence(r, s[1..])
  }

  /** `s.filter(p)`. */
  function Select<T>(s: seq<T>, p: T -> bool): (r: seq<T>)
    ensures |r| <= |s|
    ensures forall i :: 0 <= i < |r| ==> r[i] in s && p(r[i])
    ensures forall i :: 0 <= i < |s| && p(s[i]) ==> s[i] in r
  {
    if s == [] then []
    else if p(s[0]) then [s[0]] + Select(s[1..], p)
    else Select(s[1..], p)
  }

  /** The filtered list is an order-preserving subsequence of the input. */
  lemma {:induction false} SelectIsSubsequence<T>(s: seq<T>, p: T -> bool)
    ensures IsSubsequence(Select(s, p), s)
  {
    if s != [] {
      SelectIsSubsequence(s[1..], p);
      if p(s[0]) {
        assert Select(s, p)[1..] == Select(s[1..], p);
      } else if Select(s, p) != [] {
        assert Select(s, p)[0] in s[1..];
        SubsequenceSkip(Select(s, p), s);
      }
    }
  }

  /** A subsequence of the tail that does not start with the head is a
      subsequence of the whole list (the skipping step unfolded). */
  lemma SubsequenceSkip<T>(r: seq<T>, s: seq<T>)
    requires s != [] && r != [] && r[0] != s[0]
    requires IsSubsequence(r, s[1..])
    ensures IsSubsequence(r, s)
  {
  }

  /** An element of the input is kept exactly when it satisfies the predicate. */
  lemma SelectKeeps<T>(s: seq<T>, p: T -> bool)
    ensures forall i :: 0 <= i < |s| ==> (s[i] in Select(s, p) <==> p(s[i]))
  {
    var r := Select(s, p);
    forall i | 0 <= i < |s| && s[i] in r ensures p(s[i]) {
      var j :| 0 <= j < |r| && r[j] == s[i];
    }
  }

  /** A filter whose predicate every element satisfies returns the list as is
      (the empty filter returns every record). */
  lemma {:induction false} SelectAll<T>(s: seq<T>, p: T -> bool)
    requires forall i :: 0 <= i < |s| ==> p(s[i])
    ensures Select(s, p) == s
  {
    if s != [] {
      SelectAll(s[1..], p);
    }
  }

  /** Filtering by `p` and then by `q` is filtering once by any `pq` that is
      their conjunction: chained filters AND their predicates. */
  lemma {:induction false} SelectSelect<T>(s: seq<T>, p: T -> bool, q: T -> bool, pq: T -> bool)
    requires forall x :: pq(x) == (p(x) && q(x))
    ensures Select(Select(s, p), q) == Select(s, pq)
  {
    if s != [] {
      SelectSelect(s[1..], p, q, pq);
      if p(s[0]) {
        assert Select(s, p) == [s[0]] + Select(s[1..], p);
        assert Select(s, p)[1..] == Select(s[1..], p);
      }
    }
  }

  /** A predicate and its negation split a list: the two counts add up to its length. */
  lemma {:induction false} SelectPartition<T>(s: seq<T>, p: T -> bool, q: T -> bool)
    requires forall x :: q(x) == !p(x)
    ensures |Select(s, p)| + |Select(s, q)| == |s|
  {
    if s != [] {
      SelectPartition(s[1..], p, q);
    }
  }
}
