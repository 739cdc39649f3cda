/**
 Order-preserving filtering of sequences (the behaviour of `Array.prototype.filter`)
 and the subsequence relation it establishes.
 */
module Seqs {

  /** Keeps, in order, exactly the elements that satisfy `keep`. */
  function Filter<T(!new)>(s: seq<T>, keep: T -> bool): (r: seq<T>)
    ensures |r| <= |s|
    ensures forall i :: 0 <= i < |r| ==> r[i] in s && keep(r[i])
    ensures forall i :: 0 <= i < |s| && keep(s[i]) ==> s[i] in r
    ensures forall x :: multiset(r)[x] == if keep(x) then multiset(s)[x] else 0
    decreases |s|
  {
    if s == [] then []
    else
      var rest := Filter(s[1..], keep);
      FilterCountStep(s, keep, rest);
      if keep(s[0]) then [s[0]] + rest else rest
  }

  /** One step of `Filter`: the head's occurrence is counted exactly when it is kept. */
  lemma FilterCountStep<T(!new)>(s: seq<T>, keep: T -> bool, rest: seq<T>)
    requires s != []
    requires forall x :: multiset(rest)[x] == if keep(x) then multiset(s[1..])[x] else 0
    ensures forall x :: multiset(if keep(s[0]) then [s[0]] + rest else rest)[x]
                        == if keep(x) then multiset(s)[x] else 0
  {
    assert s == [s[0]] + s[1..];
    assert multiset(s) == multiset{s[0]} + multiset(s[1..]);
  }

  /** `a` can be obtained from `b` by deleting elements, without reordering. */
  predicate IsSubsequence<T(==)>(a: seq<T>, b: seq<T>)
    decreases |b|
  {
    if a == [] then true
    else if b == [] then false
    else (a[0] == b[0] && IsSubsequence(a[1..], b[1..])) || IsSubsequence(a, b[1..])
  }

  lemma {:induction false} FilterIsSubsequence<T(!new)>(s: seq<T>, keep: T -> bool)
    ensures IsSubsequence(Filter(s, keep), s)
    decreases |s|
  {
    if s != [] {
      FilterIsSubsequence(s[1..], keep);
      var rest := Filter(s[1..], keep);
      if keep(s[0]) {
        assert Filter(s, keep) == [s[0]] + rest;
        assert ([s[0]] + rest)[1..] == rest;
      } else {
        assert Filter(s, keep) == rest;
        SubsequenceOfTail(rest, s);
      }
    }
  }

  /** Every sequence is a subsequence of itself. */
  lemma {:induction false} SubsequenceReflexive<T>(s: seq<T>)
    ensures IsSubsequence(s, s)
    decreases |s|
  {
    if s != [] {
      SubsequenceReflexive(s[1..]);
    }
  }

  /** Dropping the head of `b` keeps a subsequence of the tail a subsequence of `b`. */
  lemma {:induction false} SubsequenceOfTail<T>(a: seq<T>, b: seq<T>)
    requires b != []
    requires IsSubsequence(a, b[1..])
    ensures IsSubsequence(a, b)
  {
  }

  /** When every element passes, filtering returns the sequence unchanged. */
  lemma {:induction false} FilterAllKept<T(!new)>(s: seq<T>, keep: T -> bool)
    requires forall i :: 0 <= i < |s| ==> keep(s[i])
    ensures Filter(s, keep) == s
    decreases |s|
  {
    if s != [] {
      var t := s[1..];
      assert keep(s[0]);
      FilterAllKept(t, keep);
      calc {
        Filter(s, keep);
        [s[0]] + Filter(t, keep);
        [s[0]] + t;
        s;
      }
    }
  }

  /** Filtering twice with the same test is the same as filtering once. */
  lemma {:induction false} FilterIdempotent<T(!new)>(s: seq<T>, keep: T -> bool)
    ensures Filter(Filter(s, keep), keep) == Filter(s, keep)
  {
    var r := Filter(s, keep);
    forall i | 0 <= i < |r|
      ensures keep(r[i])
    {
    }
    FilterAllKept(r, keep);
  }

  /**
   When exactly the element at index `i` fails the test, filtering deletes
   that one element and keeps all others in their order.
   */
  lemma {:induction false} FilterRemovesOne<T(!new)>(s: seq<T>, keep: T -> bool, i: int)
    requires 0 <= i < |s|
    requires !keep(s[i])
    requires forall j :: 0 <= j < |s| && j != i ==> keep(s[j])
    ensures Filter(s, keep) == s[..i] + s[i + 1..]
    decreases i
  {
    var tail := s[1..];
    if i == 0 {
      FilterAllKept(tail, keep);
      assert s[..0] + s[1..] == tail;
    } else {
      assert keep(s[0]);
      assert forall j :: 0 <= j < |tail| && j != i - 1 ==> keep(tail[j]) by {
        assert forall j :: 0 <= j < |tail| ==> tail[j] == s[j + 1];
      }
      FilterRemovesOne(tail, keep, i - 1);
      ConsSlices(s, i);
    }
  }

  /** Putting the head back in front of a tail with one element deleted. */
  lemma ConsSlices<T>(s: seq<T>, i: int)
    requires 1 <= i < |s|
    ensures [s[0]] + (s[1..][..i - 1] + s[1..][i..]) == s[..i] + s[i + 1..]
  {
    assert s[1..][..i - 1] == s[1..i];
    assert s[1..][i..] == s[i + 1..];
    assert s[..i] == [s[0]] + s[1..i];
  }

  /** The elements after a one-element head are the tail's, one position later. */
  lemma ConsShift<T>(x: T, s: seq<T>)
    ensures |[x] + s| == |s| + 1 && ([x] + s)[0] == x
    ensures forall j :: 0 <= j < |s| ==> ([x] + s)[j + 1] == s[j]
  {
  }
}
