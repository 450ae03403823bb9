/** Lists without repetition: each value is kept where it occurs first, so that adding more at the end changes
    nothing that was kept before. */
module Lists {
  import opened Sums

  /** Each value once, in the order of first occurrence: the keys of a GROUP BY, or of a Python dict. */
  function Distinct<T(==)>(s: seq<T>): seq<T> {
    if |s| == 0 then []
    else
      var front := Distinct(s[..|s| - 1]);
      if s[|s| - 1] in front then front else front + [s[|s| - 1]]
  }

  lemma {:induction false} DistinctIsExact<T>(s: seq<T>)
    ensures forall i, j :: 0 <= i < j < |Distinct(s)| ==> Distinct(s)[i] != Distinct(s)[j]
    ensures forall x :: x in Distinct(s) <==> x in s
  {
    if |s| > 0 {
      DistinctIsExact(s[..|s| - 1]);
      assert s == s[..|s| - 1] + [s[|s| - 1]];
    }
  }

  lemma DistinctAppend<T>(s: seq<T>, x: T)
    ensures Distinct(s + [x]) == if x in Distinct(s) then Distinct(s) else Distinct(s) + [x]
  {
    assert (s + [x])[..|s|] == s;
  }

  lemma {:induction false} IndexOf<T>(s: seq<T>, x: T) returns (i: nat)
    requires x in s
    ensures i < |s| && s[i] == x
  {
    if s[|s| - 1] == x {
      i := |s| - 1;
    } else {
      assert s == s[..|s| - 1] + [s[|s| - 1]];
      i := IndexOf(s[..|s| - 1], x);
    }
  }

  lemma InDistinct<T>(s: seq<T>, x: T)
    ensures x in Distinct(s) <==> x in s
  {
    DistinctIsExact(s);
  }

  /** Distinct values stand in the order of their first occurrences: before any occurrence of a later one
      there is an occurrence of each earlier one. */
  lemma {:induction false} DistinctInOrder<T>(s: seq<T>, i: nat, j: nat, p: nat) returns (q: nat)
    requires i < j < |Distinct(s)| && p < |s| && s[p] == Distinct(s)[j]
    ensures q < p && s[q] == Distinct(s)[i]
  {
    var front := s[..|s| - 1];
    if p < |front| {
      DistinctIsExact(front);
      assert front[p] in Distinct(front);
      DistinctIsExact(s);
      q := DistinctInOrder(front, i, j, p);
    } else {
      var x := Distinct(front)[i];
      InDistinct(front, x);
      q := IndexOf(front, x);
    }
  }

  /** The values of a prefix come first, in the same order. */
  lemma {:induction false} DistinctOfPrefix<T>(s: seq<T>, n: nat)
    requires n <= |s|
    ensures Distinct(s[..n]) <= Distinct(s)
  {
    if n == |s| {
      assert s[..n] == s;
    } else {
      DistinctOfPrefix(s[..|s| - 1], n);
      assert s[..|s| - 1][..n] == s[..n];
    }
  }

  /** 1 for x itself. */
  function Is<T(==)>(x: T): T -> int {
    (y: T) => if y == x then 1 else 0
  }

  lemma {:induction false} DistinctCounts<T>(s: seq<T>, x: T)
    ensures Sum(Distinct(s), Is(x)) == One(x in s)
  {
    if |s| > 0 {
      var front := s[..|s| - 1];
      DistinctCounts(front, x);
      DistinctIsExact(front);
      SumAppend(Distinct(front), s[|s| - 1], Is(x));
      assert s == front + [s[|s| - 1]];
    }
  }
}
