/** Stable sorting, the model of Python's list.sort: the result is ordered, holds the same elements, and keeps
    elements that compare as equal in the order they came in. */
module Sorting {
  import opened Sums

  ghost predicate TotalPreorder<T(!new)>(leq: (T, T) -> bool) {
    && (forall a, b :: leq(a, b) || leq(b, a))
    && (forall a, b, c :: leq(a, b) && leq(b, c) ==> leq(a, c))
  }

  ghost predicate SortedBy<T>(s: seq<T>, leq: (T, T) -> bool) {
    forall i, j :: 0 <= i < j < |s| ==> leq(s[i], s[j])
  }

  /** x goes behind every element that is not greater, which keeps equal elements in order. */
  function Insert<T>(s: seq<T>, x: T, leq: (T, T) -> bool): seq<T> {
    if |s| == 0 || leq(s[|s| - 1], x) then s + [x]
    else Insert(s[..|s| - 1], x, leq) + [s[|s| - 1]]
  }

  function StableSort<T>(s: seq<T>, leq: (T, T) -> bool): seq<T> {
    if |s| == 0 then [] else Insert(StableSort(s[..|s| - 1], leq), s[|s| - 1], leq)
  }

  lemma {:induction false} InsertKeeps<T>(s: seq<T>, x: T, leq: (T, T) -> bool)
    ensures multiset(Insert(s, x, leq)) == multiset(s) + multiset{x}
  {
    if |s| == 0 || leq(s[|s| - 1], x) {
    } else {
      var front, last := s[..|s| - 1], s[|s| - 1];
      InsertKeeps(front, x, leq);
      assert s == front + [last];
      assert Insert(s, x, leq) == Insert(front, x, leq) + [last];
      hide Insert;
    }
  }

  lemma {:induction false} SortKeeps<T>(s: seq<T>, leq: (T, T) -> bool)
    ensures multiset(StableSort(s, leq)) == multiset(s)
    ensures |StableSort(s, leq)| == |s|
  {
    if |s| > 0 {
      SortKeeps(s[..|s| - 1], leq);
      InsertKeeps(StableSort(s[..|s| - 1], leq), s[|s| - 1], leq);
      assert s == s[..|s| - 1] + [s[|s| - 1]];
    }
    assert |StableSort(s, leq)| == |multiset(StableSort(s, leq))| == |multiset(s)| == |s|;
  }

  lemma {:induction false} InsertSorts<T(!new)>(s: seq<T>, x: T, leq: (T, T) -> bool)
    requires TotalPreorder(leq) && SortedBy(s, leq)
    ensures SortedBy(Insert(s, x, leq), leq)
  {
    if |s| == 0 || leq(s[|s| - 1], x) {
    } else {
      var last := s[|s| - 1];
      var front := Insert(s[..|s| - 1], x, leq);
      InsertSorts(s[..|s| - 1], x, leq);
      InsertKeeps(s[..|s| - 1], x, leq);
      forall i | 0 <= i < |front| ensures leq(front[i], last) {
        assert front[i] in multiset(front);
      }
    }
  }

  lemma {:induction false} SortSorts<T(!new)>(s: seq<T>, leq: (T, T) -> bool)
    requires TotalPreorder(leq)
    ensures SortedBy(StableSort(s, leq), leq)
  {
    if |s| > 0 {
      SortSorts(s[..|s| - 1], leq);
      InsertSorts(StableSort(s[..|s| - 1], leq), s[|s| - 1], leq);
    }
  }

  /** Position i holds the first of the least elements of s. */
  ghost predicate IsFirstLeast<T>(s: seq<T>, leq: (T, T) -> bool, i: int) {
    && 0 <= i < |s|
    && (forall j :: 0 <= j < |s| ==> leq(s[i], s[j]))
    && (forall j :: 0 <= j < i ==> !leq(s[j], s[i]))
  }

  lemma {:induction false} InsertHead<T(!new)>(s: seq<T>, x: T, leq: (T, T) -> bool)
    requires TotalPreorder(leq) && |s| > 0 && SortedBy(s, leq)
    ensures Insert(s, x, leq)[0] == if leq(s[0], x) then s[0] else x
  {
    var n := |s| - 1;
    if leq(s[n], x) {
      assert leq(s[0], s[n]);
    } else if n > 0 {
      InsertHead(s[..n], x, leq);
    }
  }

  /** Stability at the head: sorting brings the first of the least elements to the front. */
  lemma {:induction false} SortHead<T(!new)>(s: seq<T>, leq: (T, T) -> bool) returns (i: nat)
    requires TotalPreorder(leq) && |s| > 0
    ensures IsFirstLeast(s, leq, i)
    ensures StableSort(s, leq)[0] == s[i]
  {
    var n := |s| - 1;
    if n == 0 {
      i := 0;
    } else {
      var k := SortHead(s[..n], leq);
      SortSorts(s[..n], leq);
      SortKeeps(s[..n], leq);
      InsertHead(StableSort(s[..n], leq), s[n], leq);
      i := if leq(s[k], s[n]) then k else n;
      FirstLeastExtends(s, leq, k, i);
    }
  }

  lemma FirstLeastExtends<T(!new)>(s: seq<T>, leq: (T, T) -> bool, k: nat, i: nat)
    requires TotalPreorder(leq) && |s| > 0 && IsFirstLeast(s[..|s| - 1], leq, k)
    requires i == if leq(s[k], s[|s| - 1]) then k else |s| - 1
    ensures IsFirstLeast(s, leq, i)
  {
    forall j | 0 <= j < |s|
      ensures leq(s[i], s[j]) && (j < i ==> !leq(s[j], s[i]))
    {
      if j < |s| - 1 {
        assert s[..|s| - 1][j] == s[j] && leq(s[k], s[j]);
      }
    }
  }

  lemma {:induction false} InsertSum<T>(s: seq<T>, x: T, leq: (T, T) -> bool, f: T -> int)
    ensures Sum(Insert(s, x, leq), f) == Sum(s, f) + f(x)
  {
    if |s| == 0 || leq(s[|s| - 1], x) {
      SumAppend(s, x, f);
    } else {
      var front, last := s[..|s| - 1], s[|s| - 1];
      InsertSum(front, x, leq, f);
      SumAppend(Insert(front, x, leq), last, f);
      SumPrefix(s, |s| - 1, f);
    }
  }

  /** Sorting does not change what the elements add up to. */
  lemma {:induction false} SortSum<T>(s: seq<T>, leq: (T, T) -> bool, f: T -> int)
    ensures Sum(StableSort(s, leq), f) == Sum(s, f)
  {
    if |s| > 0 {
      SortSum(s[..|s| - 1], leq, f);
      InsertSum(StableSort(s[..|s| - 1], leq), s[|s| - 1], leq, f);
      SumPrefix(s, |s| - 1, f);
    }
  }
}
