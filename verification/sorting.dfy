/** Ascending sort of integer lists, as PHP's `sort()` on a list of ids, with the
    fact the catalog cache relies on: the sorted copy depends only on the
    multiset of ids, not on their order. */
module Sorting {

  predicate Sorted(s: seq<int>) {
    forall i, j :: 0 <= i < j < |s| ==> s[i] <= s[j]
  }

  function Insert(x: int, s: seq<int>): (r: seq<int>)
    requires Sorted(s)
    ensures Sorted(r)
    ensures multiset(r) == multiset(s) + multiset{x}
  {
    if |s| == 0 then [x]
    else if x <= s[0] then [x] + s
    else
      var tail := Insert(x, s[1..]);
      assert s == [s[0]] + s[1..];
      InsertStep(s[0], s[1..], x, tail);
      [s[0]] + tail
  }

  /** Putting the head back in front of the tail with `x` inserted keeps the
      list sorted and adds exactly `x`. */
  lemma InsertStep(h: int, rest: seq<int>, x: int, tail: seq<int>)
    requires Sorted([h] + rest) && h < x
    requires Sorted(tail) && multiset(tail) == multiset(rest) + multiset{x}
    ensures Sorted([h] + tail)
    ensures multiset([h] + tail) == multiset([h] + rest) + multiset{x}
  {
    forall k | 0 <= k < |tail|
      ensures h <= tail[k]
    {
      assert tail[k] in multiset(rest) + multiset{x};
      if tail[k] in multiset(rest) {
        var j :| 0 <= j < |rest| && rest[j] == tail[k];
        assert ([h] + rest)[0] == h && ([h] + rest)[j + 1] == rest[j];
      }
    }
  }

  /** The sorted copy `sort($ids)` produces. */
  function Sort(s: seq<int>): (r: seq<int>)
    ensures Sorted(r)
    ensures multiset(r) == multiset(s)
  {
    if |s| == 0 then []
    else
      assert s == [s[0]] + s[1..];
      Insert(s[0], Sort(s[1..]))
  }

  /** Two sorted lists holding the same elements are the same list. */
  lemma {:induction false} SortedUnique(a: seq<int>, b: seq<int>)
    requires Sorted(a) && Sorted(b)
    requires multiset(a) == multiset(b)
    ensures a == b
  {
    assert |a| == |multiset(a)| == |multiset(b)| == |b|;
    if |a| > 0 {
      HeadIsMin(b, a[0]);
      HeadIsMin(a, b[0]);
      SplitHead(a);
      SplitHead(b);
      assert a[0] == b[0];
      SortedUnique(a[1..], b[1..]);
      calc {
        a;
        [a[0]] + a[1..];
        [b[0]] + b[1..];
        b;
      }
    }
  }

  /** The head of a sorted list is at most any of its elements. */
  lemma HeadIsMin(s: seq<int>, v: int)
    requires Sorted(s) && v in multiset(s)
    ensures |s| > 0 && s[0] <= v
  {
    var j :| 0 <= j < |s| && s[j] == v;
  }

  /** A non-empty list is its head followed by its tail; the tail holds the
      other elements and stays sorted. */
  lemma SplitHead(s: seq<int>)
    requires |s| > 0
    ensures s == [s[0]] + s[1..]
    ensures multiset(s[1..]) == multiset(s) - multiset{s[0]}
    ensures Sorted(s) ==> Sorted(s[1..])
  {
    assert s == [s[0]] + s[1..];
  }

  /** Sorting is blind to order: two lists sort alike exactly when they are
      permutations of each other. */
  lemma SortPermutationInvariant(a: seq<int>, b: seq<int>)
    ensures Sort(a) == Sort(b) <==> multiset(a) == multiset(b)
  {
    if multiset(a) == multiset(b) {
      SortedUnique(Sort(a), Sort(b));
    }
  }
}
