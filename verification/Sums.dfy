/** Sums over the rows of a table, the model of SQL's SUM and COUNT: how appending, editing, splitting and combining
    rows changes them, and what terms of one sign say about the whole. The laws and reports are sums of this kind. */
module Sums {

  /** SUM(f(row)) over the rows of s; COUNT is the sum of an indicator. */
  function Sum<T>(s: seq<T>, f: T -> int): int {
    SumTo(s, f, |s|)
  }

  /** The sum over the first n rows. */
  function SumTo<T>(s: seq<T>, f: T -> int, n: nat): int
    requires n <= |s|
  {
    if n == 0 then 0 else SumTo(s, f, n - 1) + f(s[n - 1])
  }

  /** 1 when c holds, else 0: turns a condition on rows into something to sum. */
  function One(c: bool): int {
    if c then 1 else 0
  }

  function Abs(n: int): nat {
    if n < 0 then -n else n
  }

  /** Only the first n rows matter, and only through f and g. */
  lemma {:induction false} SumToSame<T, U>(s: seq<T>, f: T -> int, t: seq<U>, g: U -> int, n: nat)
    requires n <= |s| && n <= |t| && forall i :: 0 <= i < n ==> f(s[i]) == g(t[i])
    ensures SumTo(s, f, n) == SumTo(t, g, n)
  {
    if n > 0 {
      SumToSame(s, f, t, g, n - 1);
    }
  }

  lemma SumAppend<T>(s: seq<T>, x: T, f: T -> int)
    ensures Sum(s + [x], f) == Sum(s, f) + f(x)
  {
    SumToSame(s, f, s + [x], f, |s|);
  }

  lemma {:induction false} SumToUpdate<T>(s: seq<T>, i: nat, x: T, f: T -> int, n: nat)
    requires i < n <= |s|
    ensures SumTo(s[i := x], f, n) == SumTo(s, f, n) - f(s[i]) + f(x)
  {
    if i == n - 1 {
      SumToSame(s[i := x], f, s, f, i);
    } else {
      SumToUpdate(s, i, x, f, n - 1);
    }
  }

  lemma SumUpdate<T>(s: seq<T>, i: nat, x: T, f: T -> int)
    requires i < |s|
    ensures Sum(s[i := x], f) == Sum(s, f) - f(s[i]) + f(x)
  {
    SumToUpdate(s, i, x, f, |s|);
  }

  /** The effect on a sum of appending at most one row. */
  lemma SumGrows<T>(s: seq<T>, s': seq<T>, f: T -> int)
    requires s <= s' && |s'| <= |s| + 1
    ensures Sum(s', f) == Sum(s, f) + if |s'| > |s| then f(s'[|s|]) else 0
  {
    SumToSame(s, f, s', f, |s|);
  }

  /** The effect on a sum of rewriting at most row i. */
  lemma SumEdits<T>(s: seq<T>, s': seq<T>, i: nat, f: T -> int)
    requires |s'| == |s| && i < |s| && forall j :: 0 <= j < |s| && j != i ==> s'[j] == s[j]
    ensures Sum(s', f) == Sum(s, f) - f(s[i]) + f(s'[i])
  {
    assert s' == s[i := s'[i]];
    SumUpdate(s, i, s'[i], f);
  }

  /** The sum over a prefix is the sum so far. */
  lemma SumPrefix<T>(s: seq<T>, n: nat, f: T -> int)
    requires n <= |s|
    ensures Sum(s[..n], f) == SumTo(s, f, n)
  {
    SumToSame(s[..n], f, s, f, n);
  }

  lemma SumSame<T>(s: seq<T>, f: T -> int, g: T -> int)
    requires forall i :: 0 <= i < |s| ==> f(s[i]) == g(s[i])
    ensures Sum(s, f) == Sum(s, g)
  {
    SumToSame(s, f, s, g, |s|);
  }

  lemma {:induction false} SumToAtMost<T>(s: seq<T>, f: T -> int, g: T -> int, n: nat)
    requires n <= |s| && forall i :: 0 <= i < n ==> f(s[i]) <= g(s[i])
    ensures SumTo(s, f, n) <= SumTo(s, g, n)
  {
    if n > 0 {
      SumToAtMost(s, f, g, n - 1);
    }
  }

  lemma SumAtMost<T>(s: seq<T>, f: T -> int, g: T -> int)
    requires forall i :: 0 <= i < |s| ==> f(s[i]) <= g(s[i])
    ensures Sum(s, f) <= Sum(s, g)
  {
    SumToAtMost(s, f, g, |s|);
  }

  lemma {:induction false} SumToLinear<T>(s: seq<T>, h: T -> int, a: int, f: T -> int, b: int, g: T -> int, n: nat)
    requires n <= |s| && forall i :: 0 <= i < n ==> h(s[i]) == a * f(s[i]) + b * g(s[i])
    ensures SumTo(s, h, n) == a * SumTo(s, f, n) + b * SumTo(s, g, n)
  {
    if n > 0 {
      SumToLinear(s, h, a, f, b, g, n - 1);
    }
  }

  /** a*SUM(f) + b*SUM(g) is the sum of a*f + b*g. */
  lemma SumLinear<T>(s: seq<T>, h: T -> int, a: int, f: T -> int, b: int, g: T -> int)
    requires forall i :: 0 <= i < |s| ==> h(s[i]) == a * f(s[i]) + b * g(s[i])
    ensures Sum(s, h) == a * Sum(s, f) + b * Sum(s, g)
  {
    SumToLinear(s, h, a, f, b, g, |s|);
  }

  lemma {:induction false} SumToZero<T>(s: seq<T>, f: T -> int, n: nat)
    requires n <= |s| && forall i :: 0 <= i < n ==> f(s[i]) == 0
    ensures SumTo(s, f, n) == 0
  {
    if n > 0 {
      SumToZero(s, f, n - 1);
    }
  }

  lemma SumZero<T>(s: seq<T>, f: T -> int)
    requires forall i :: 0 <= i < |s| ==> f(s[i]) == 0
    ensures Sum(s, f) == 0
  {
    SumToZero(s, f, |s|);
  }

  lemma SumNonNegative<T>(s: seq<T>, f: T -> int)
    requires forall i :: 0 <= i < |s| ==> f(s[i]) >= 0
    ensures Sum(s, f) >= 0
  {
    var zero := (x: T) => 0;
    SumZero(s, zero);
    SumAtMost(s, zero, f);
  }

  lemma {:induction false} SumToAtLeastTerms<T>(s: seq<T>, f: T -> int, i: nat, j: nat, n: nat)
    requires i < n && j < n && n <= |s|
    requires forall k :: 0 <= k < n ==> f(s[k]) >= 0
    ensures SumTo(s, f, n) >= f(s[i]) + (if i == j then 0 else f(s[j]))
  {
    var last := n - 1;
    if i < last && j < last {
      SumToAtLeastTerms(s, f, i, j, last);
    } else if i < last {
      SumToAtLeastTerms(s, f, i, i, last);
    } else if j < last {
      SumToAtLeastTerms(s, f, j, j, last);
    } else {
      SumNonNegative(s[..last], f);
      SumPrefix(s, last, f);
    }
  }

  /** A sum of non-negative terms is at least each term, and at least any two of them. */
  lemma SumAtLeastTerms<T>(s: seq<T>, f: T -> int, i: nat, j: nat)
    requires i < |s| && j < |s|
    requires forall k :: 0 <= k < |s| ==> f(s[k]) >= 0
    ensures Sum(s, f) >= f(s[i]) + (if i == j then 0 else f(s[j]))
  {
    SumToAtLeastTerms(s, f, i, j, |s|);
  }

  /** A positive sum has a positive term. */
  lemma SumPositive<T>(s: seq<T>, f: T -> int) returns (i: nat)
    requires Sum(s, f) > 0
    ensures i < |s| && f(s[i]) > 0
  {
    if forall k :: 0 <= k < |s| ==> f(s[k]) <= 0 {
      var zero := (x: T) => 0;
      SumAtMost(s, f, zero);
      SumZero(s, zero);
      assert false;
    }
    i :| 0 <= i < |s| && f(s[i]) > 0;
  }

  // ---------------------------------------------------------------- counting

  /** How many rows of s satisfy p. */
  function Count<T>(s: seq<T>, p: T -> bool): nat {
    |Which(s, p, |s|)|
  }

  /** The positions of those among the first n. */
  function Which<T>(s: seq<T>, p: T -> bool, n: nat): set<nat>
    requires n <= |s|
  {
    set i: nat | i < n && p(s[i])
  }

  lemma {:induction false} SumToIsCount<T>(s: seq<T>, f: T -> int, p: T -> bool, n: nat)
    requires n <= |s| && forall i :: 0 <= i < n ==> f(s[i]) == if p(s[i]) then 1 else 0
    ensures SumTo(s, f, n) == |Which(s, p, n)|
  {
    if n > 0 {
      SumToIsCount(s, f, p, n - 1);
      assert Which(s, p, n) == if p(s[n - 1]) then Which(s, p, n - 1) + {n - 1} else Which(s, p, n - 1);
    }
  }

  /** COUNT is the sum of an indicator. */
  lemma SumIsCount<T>(s: seq<T>, f: T -> int, p: T -> bool)
    requires forall i :: 0 <= i < |s| ==> f(s[i]) == if p(s[i]) then 1 else 0
    ensures Sum(s, f) == Count(s, p)
  {
    SumToIsCount(s, f, p, |s|);
  }

  lemma CountAppend<T>(s: seq<T>, x: T, p: T -> bool)
    ensures Count(s + [x], p) == Count(s, p) + if p(x) then 1 else 0
  {
    var n := |s|;
    assert Which(s + [x], p, n) == Which(s, p, n);
    assert Which(s + [x], p, n + 1) == if p(x) then Which(s, p, n) + {n} else Which(s, p, n);
  }
}
