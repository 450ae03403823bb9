/** Pinging the buyers: a semaphore of m slots, taken in order, and the bid window around all of it: how long the last
    of n pings can take, and for how many buyers the window can fire. */
module FanOut {
  import opened Sums

  const PING_TIMEOUT := 2.5
  const BID_WINDOW := 5.0
  const MAX_PARALLEL_PINGS := 50

  /** The slot that is free first. */
  function FirstFree(slots: seq<real>): (j: nat)
    requires |slots| > 0
    ensures j < |slots| && forall i :: 0 <= i < |slots| ==> slots[j] <= slots[i]
  {
    if |slots| == 1 then 0
    else
      var j := FirstFree(slots[..|slots| - 1]);
      if slots[|slots| - 1] < slots[j] then |slots| - 1 else j
  }

  /** slots after one more ping, which takes the slot that is free first and keeps it for hold. */
  function Taken(slots: seq<real>, hold: real): seq<real>
    requires |slots| > 0
  {
    slots[FirstFree(slots) := slots[FirstFree(slots)] + hold]
  }

  /** When each slot becomes free, once the first n pings have been given one; holds[i] is how long ping i keeps its
      slot. */
  function Slots(holds: seq<real>, m: nat, n: nat): (slots: seq<real>)
    requires m > 0 && n <= |holds|
    ensures |slots| == m
  {
    if n == 0 then seq(m, i => 0.0)
    else
      var slots := Slots(holds, m, n - 1);
      Taken(slots, holds[n - 1])
  }

  function StartOf(holds: seq<real>, m: nat, i: nat): real
    requires m > 0 && i < |holds|
  {
    Slots(holds, m, i)[FirstFree(Slots(holds, m, i))]
  }

  function FinishOf(holds: seq<real>, m: nat, i: nat): real
    requires m > 0 && i < |holds|
  {
    StartOf(holds, m, i) + holds[i]
  }

  /** No ping holds its slot longer than t. */
  predicate HoldsAtMost(holds: seq<real>, t: real) {
    forall i :: 0 <= i < |holds| ==> 0.0 <= holds[i] <= t
  }

  /** 1 for a slot that is taken after instant x. */
  function TakenAfter(x: real): real -> int {
    (free: real) => if free > x then 1 else 0
  }

  /** k rounds of length t. */
  function Rounds(k: nat, t: real): real {
    if k == 0 then 0.0 else Rounds(k - 1, t) + t
  }

  lemma OneTimesMore(x: real, t: real)
    ensures (x + 1.0) * t == x * t + t
  {
  }

  lemma {:induction false} RoundsAreProduct(k: nat, t: real)
    ensures Rounds(k, t) == k as real * t
  {
    if k > 0 {
      RoundsAreProduct(k - 1, t);
      OneTimesMore((k - 1) as real, t);
    }
  }

  lemma NextRound(k: nat, t: real)
    ensures Rounds(0, t) == 0.0 && Rounds(k + 1, t) == Rounds(k, t) + t
  {
  }

  /** After n = k * m + r pings at most r slots are taken beyond round k, and none beyond the round after it. */
  predicate Bounded(slots: seq<real>, k: nat, r: nat, t: real) {
    && Sum(slots, TakenAfter(Rounds(k, t))) <= r
    && forall i :: 0 <= i < |slots| ==> slots[i] <= Rounds(k + 1, t)
  }

  /** Exactly r slots are taken until round k + 1 and the others until round k. */
  predicate Exact(slots: seq<real>, k: nat, r: nat, t: real) {
    && (forall i :: 0 <= i < |slots| ==> slots[i] == Rounds(k, t) || slots[i] == Rounds(k + 1, t))
    && Sum(slots, TakenAfter(Rounds(k, t))) == r
  }

  /** Someone is free by the start of the current round. */
  lemma FreeInRound(slots: seq<real>, k: nat, r: nat, t: real)
    requires r < |slots| && Bounded(slots, k, r, t)
    ensures slots[FirstFree(slots)] <= Rounds(k, t)
  {
    var x := Rounds(k, t);
    if slots[FirstFree(slots)] > x {
      CountAll(slots, TakenAfter(x), |slots|);
    }
  }

  lemma {:induction false} CountAll(slots: seq<real>, f: real -> int, n: nat)
    requires n <= |slots| && forall i :: 0 <= i < n ==> f(slots[i]) == 1
    ensures SumTo(slots, f, n) == n
  {
    if n > 0 {
      CountAll(slots, f, n - 1);
    }
  }

  /** One more ping, held at most t, in the same round. */
  lemma OneMore(slots: seq<real>, k: nat, r: nat, t: real, hold: real)
    requires r < |slots| && Bounded(slots, k, r, t) && 0.0 <= hold <= t
    ensures Bounded(Taken(slots, hold), k, r + 1, t)
  {
    var j := FirstFree(slots);
    FreeInRound(slots, k, r, t);
    NextRound(k, t);
    SumUpdate(slots, j, slots[j] + hold, TakenAfter(Rounds(k, t)));
  }

  /** A full round is the start of the next one. */
  lemma RoundOver(slots: seq<real>, k: nat, t: real)
    requires Bounded(slots, k, |slots|, t) && t >= 0.0
    ensures Bounded(slots, k + 1, 0, t)
  {
    NextRound(k + 1, t);
    SumZero(slots, TakenAfter(Rounds(k + 1, t)));
  }

  lemma SlotsStep(holds: seq<real>, m: nat, n: nat)
    requires m > 0 && 0 < n <= |holds|
    ensures Slots(holds, m, n) == Taken(Slots(holds, m, n - 1), holds[n - 1])
  {
  }

  lemma SlotsStart(holds: seq<real>, m: nat, t: real)
    requires m > 0 && t >= 0.0
    ensures Bounded(Slots(holds, m, 0), 0, 0, t) && Exact(Slots(holds, m, 0), 0, 0, t)
  {
    NextRound(0, t);
    SumZero(Slots(holds, m, 0), TakenAfter(Rounds(0, t)));
  }

  /** The number of pings in k full rounds and r more. */
  function Place(k: nat, m: nat, r: nat): nat {
    k * m + r
  }

  lemma Places(k: nat, m: nat, r: nat)
    requires m > 0
    ensures Place(k, m, r) == 0 <==> k == 0 && r == 0
    ensures r > 0 ==> Place(k, m, r) == Place(k, m, r - 1) + 1
    ensures k > 0 ==> Place(k, m, 0) == Place(k - 1, m, m - 1) + 1
  {
  }

  lemma PlaceOf(n: nat, m: nat)
    requires m > 0
    ensures Place(n / m, m, n % m) == n
  {
  }

  lemma {:induction false} SlotsBounded(holds: seq<real>, m: nat, t: real, n: nat, k: nat, r: nat)
    requires m > 0 && HoldsAtMost(holds, t) && t >= 0.0 && n == Place(k, m, r) && n <= |holds| && r < m
    ensures Bounded(Slots(holds, m, n), k, r, t)
    decreases n
  {
    hide Place, Rounds, Slots, Taken, Bounded;
    Places(k, m, r);
    if n == 0 {
      SlotsStart(holds, m, t);
      return;
    }
    SlotsStep(holds, m, n);
    if r > 0 {
      SlotsBounded(holds, m, t, n - 1, k, r - 1);
      OneMore(Slots(holds, m, n - 1), k, r - 1, t, holds[n - 1]);
    } else {
      SlotsBounded(holds, m, t, n - 1, k - 1, m - 1);
      OneMore(Slots(holds, m, n - 1), k - 1, m - 1, t, holds[n - 1]);
      RoundOver(Slots(holds, m, n), k - 1, t);
    }
  }

  /** Ping i starts by round i / m and is finished by the round after, whatever each ping takes up to t. */
  lemma StartsInItsRound(holds: seq<real>, m: nat, t: real, i: nat)
    requires m > 0 && HoldsAtMost(holds, t) && t >= 0.0 && i < |holds|
    ensures StartOf(holds, m, i) <= Rounds(i / m, t)
    ensures FinishOf(holds, m, i) <= Rounds(i / m + 1, t)
  {
    var k, r := i / m, i % m;
    PlaceOf(i, m);
    SlotsBounded(holds, m, t, i, k, r);
    FreeInRound(Slots(holds, m, i), k, r, t);
    NextRound(k, t);
  }

  // ---------------------------------------------------------------- the worst case

  /** n pings that all take t. */
  function Slowest(n: nat, t: real): seq<real> {
    seq(n, i => t)
  }

  lemma ExactFirst(slots: seq<real>, k: nat, r: nat, t: real)
    requires r < |slots| && Exact(slots, k, r, t) && t > 0.0
    ensures slots[FirstFree(slots)] == Rounds(k, t)
  {
    NextRound(k, t);
    FreeInRound(slots, k, r, t);
  }

  lemma ExactOneMore(slots: seq<real>, k: nat, r: nat, t: real)
    requires r < |slots| && Exact(slots, k, r, t) && t > 0.0
    ensures Exact(Taken(slots, t), k, r + 1, t)
  {
    var j := FirstFree(slots);
    ExactFirst(slots, k, r, t);
    NextRound(k, t);
    SumUpdate(slots, j, slots[j] + t, TakenAfter(Rounds(k, t)));
  }

  lemma ExactRoundOver(slots: seq<real>, k: nat, t: real)
    requires Exact(slots, k, |slots|, t) && t > 0.0
    ensures Exact(slots, k + 1, 0, t)
  {
    NextRound(k, t);
    NextRound(k + 1, t);
    forall i | 0 <= i < |slots| ensures slots[i] == Rounds(k + 1, t) {
      if slots[i] == Rounds(k, t) {
        AllTaken(slots, TakenAfter(Rounds(k, t)), i);
      }
    }
    SumZero(slots, TakenAfter(Rounds(k + 1, t)));
  }

  /** When the count of taken slots is full, every slot is taken. */
  lemma AllTaken(slots: seq<real>, f: real -> int, i: nat)
    requires i < |slots| && Sum(slots, f) == |slots| && forall k :: 0 <= k < |slots| ==> f(slots[k]) <= 1
    ensures f(slots[i]) >= 1
  {
    var one, rest := (x: real) => 1, (x: real) => 1 - f(x);
    CountAll(slots, one, |slots|);
    SumLinear(slots, rest, 1, one, -1, f);
    forall k | 0 <= k < |slots| ensures rest(slots[k]) >= 0 {
      assert f(slots[k]) <= 1;
    }
    SumAtLeastTerms(slots, rest, i, i);
  }

  lemma {:induction false} SlowestIsExact(pings: nat, m: nat, t: real, n: nat, k: nat, r: nat)
    requires m > 0 && t > 0.0 && n == Place(k, m, r) && n <= pings && r < m
    ensures Exact(Slots(Slowest(pings, t), m, n), k, r, t)
    decreases n
  {
    hide Place, Rounds, Slots, Taken, Exact;
    Places(k, m, r);
    if n == 0 {
      SlotsStart(Slowest(pings, t), m, t);
      return;
    }
    SlotsStep(Slowest(pings, t), m, n);
    if r > 0 {
      SlowestIsExact(pings, m, t, n - 1, k, r - 1);
      ExactOneMore(Slots(Slowest(pings, t), m, n - 1), k, r - 1, t);
    } else {
      SlowestIsExact(pings, m, t, n - 1, k - 1, m - 1);
      ExactOneMore(Slots(Slowest(pings, t), m, n - 1), k - 1, m - 1, t);
      ExactRoundOver(Slots(Slowest(pings, t), m, n), k - 1, t);
    }
  }

  /** The last of n pings that all take t finishes exactly at the end of its round. */
  lemma SlowestFinish(n: nat, m: nat, t: real)
    requires m > 0 && t > 0.0 && n > 0
    ensures FinishOf(Slowest(n, t), m, n - 1) == Rounds((n - 1) / m + 1, t)
  {
    var k, r := (n - 1) / m, (n - 1) % m;
    PlaceOf(n - 1, m);
    SlowestIsExact(n, m, t, n - 1, k, r);
    ExactFirst(Slots(Slowest(n, t), m, n - 1), k, r, t);
    NextRound(k, t);
  }

  // ---------------------------------------------------------------- the bid window

  /** All pings are over within the window, so no response is thrown away. */
  predicate WindowHolds(holds: seq<real>, m: nat, window: real)
    requires m > 0
  {
    forall i :: 0 <= i < |holds| ==> FinishOf(holds, m, i) <= window
  }

  lemma {:induction false} RoundsGrow(j: nat, k: nat, t: real)
    requires j <= k && t >= 0.0
    ensures Rounds(j, t) <= Rounds(k, t)
  {
    if j < k {
      RoundsGrow(j, k - 1, t);
    }
  }

  lemma QuotientsGrow(i: nat, n: nat, m: nat)
    requires i < n && m > 0
    ensures i / m <= (n - 1) / m
  {
    var a, b := i / m, (n - 1) / m;
    if a > b {
      TimesGrows(a, b + 1, m);
    }
  }

  lemma TimesGrows(x: nat, y: nat, m: nat)
    requires x >= y
    ensures x * m >= y * m
  {
  }

  /** For n buyers and pings of up to t, the window never fires exactly when ceil(n / m) rounds fit into it. */
  lemma WindowNeverFires(n: nat, m: nat, t: real, window: real)
    requires m > 0 && t > 0.0 && n > 0
    ensures (forall holds :: |holds| == n && HoldsAtMost(holds, t) ==> WindowHolds(holds, m, window))
       <==> Rounds((n - 1) / m + 1, t) <= window
  {
    hide Rounds, FinishOf;
    if Rounds((n - 1) / m + 1, t) <= window {
      forall holds | |holds| == n && HoldsAtMost(holds, t) ensures WindowHolds(holds, m, window) {
        forall i | 0 <= i < n ensures FinishOf(holds, m, i) <= window {
          StartsInItsRound(holds, m, t, i);
          QuotientsGrow(i, n, m);
          RoundsGrow(i / m + 1, (n - 1) / m + 1, t);
        }
      }
    } else {
      SlowestFinish(n, m, t);
      assert HoldsAtMost(Slowest(n, t), t);
    }
  }

  /** With the service's settings the window never fires for up to a hundred buyers, and can fire for more. */
  lemma WindowFiresBeyondAHundred(n: nat)
    requires n > 0
    ensures (forall holds :: |holds| == n && HoldsAtMost(holds, PING_TIMEOUT) ==>
              WindowHolds(holds, MAX_PARALLEL_PINGS, BID_WINDOW))
       <==> n <= 100
  {
    WindowNeverFires(n, MAX_PARALLEL_PINGS, PING_TIMEOUT, BID_WINDOW);
    RoundsAreProduct((n - 1) / MAX_PARALLEL_PINGS + 1, PING_TIMEOUT);
  }
}
