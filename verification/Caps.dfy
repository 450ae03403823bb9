/** How far a buyer's daily cap and monthly budget can be overrun. */
module Caps {
  // The caps are read once, before the pings; the sale that uses them up is stored later. The overrun is bounded
  // by the number of auctions in flight for the buyer, across midnight and month end included. Both caps are one
  // argument over a period, a limit and a price per sale.

  import opened Market
  import opened Saga
  import opened Links
  import opened Effects
  import opened Ledger
  import opened Deals
  import opened Sums

  /** price for each run under way that buyer b is eligible for. */
  function InFlight(b: nat, price: nat): Run -> int {
    (run: Run) => if b in run.eligible && !run.crashed && !run.phase.Finished? then price else 0
  }

  /** What buyer b has used in period number i. */
  function UsedIn(period: Period, b: nat, i: nat): BillingEvent -> int {
    (e: BillingEvent) =>
      if e.buyer == b && e.kind.LeadPosted? && IndexOf(period, e.at) == i then UsageOf(period, e) else 0
  }

  function Used(s: Sys, period: Period, b: nat, i: nat): int {
    Sum(s.db.billing, UsedIn(period, b, i))
  }

  /** limit is buyer b's limit for the period, now and in every row a run has loaded. */
  ghost predicate LimitFixed(s: Sys, period: Period, b: nat, limit: nat) {
    && (b < |s.db.buyers| ==> LimitOf(period, s.db.buyers[b]) == limit)
    && forall r :: 0 <= r < |s.runs| && s.runs[r].phase.Screening? && b in s.runs[r].phase.pending
         ==> LimitOf(period, s.runs[r].phase.pending[b]) == limit
  }

  function Bound(limit: nat, k: nat, price: nat): nat {
    (if limit == 0 then 0 else limit - 1) + k * price
  }

  /** Usage now, plus a full price for every run in flight, is within the bound, and so is every past period. */
  ghost predicate Capped(s: Sys, period: Period, b: nat, price: nat, bound: nat) {
    && Used(s, period, b, IndexOf(period, s.now)) + Sum(s.runs, InFlight(b, price)) <= bound
    && forall i: nat :: Used(s, period, b, i) <= bound
  }

  /** The cap query, which counts from the start of the current period, counts exactly that period. */
  lemma NothingFromTheFuture(s: Sys, period: Period, b: nat, i: nat)
    requires Linked(s)
    ensures i > IndexOf(period, s.now) ==> Used(s, period, b, i) == 0
    ensures i == IndexOf(period, s.now) ==> Used(s, period, b, i) == Sum(s.db.billing, UsedSince(period, b, i))
  {
    forall j | 0 <= j < |s.db.billing| ensures IndexOf(period, s.db.billing[j].at) <= IndexOf(period, s.now) {
      assert NotAfter(s.db.billing[j].at, s.now);
    }
    if i > IndexOf(period, s.now) {
      SumZero(s.db.billing, UsedIn(period, b, i));
    } else if i == IndexOf(period, s.now) {
      SumSame(s.db.billing, UsedIn(period, b, i), UsedSince(period, b, i));
    }
  }

  /** At most k in flight cost at most k times the price. */
  lemma InFlightCost(s: Sys, b: nat, price: nat, k: nat)
    requires Sum(s.runs, InFlight(b, 1)) <= k
    ensures Sum(s.runs, InFlight(b, price)) <= k * price
  {
    SumLinear(s.runs, InFlight(b, price), price, InFlight(b, 1), 0, InFlight(b, 1));
    var n := Sum(s.runs, InFlight(b, 1));
    assert price * n <= price * k;
  }

  function AtMost(b: nat, price: nat): (nat, int) -> bool {
    (buyer: nat, bid: int) => buyer == b ==> bid <= price
  }

  /** A sale to b uses at most price of the period's limit. */
  ghost predicate PriceCovers(s: Sys, period: Period, b: nat, price: nat) {
    if period.Day? then price >= 1 else DealsSatisfy(s, AtMost(b, price))
  }

  lemma CappedIdle(s: Sys, s': Sys, period: Period, b: nat, limit: nat, k: nat, price: nat)
    requires Linked(s) && Capped(s, period, b, price, Bound(limit, k, price)) && Effected(s, s', Idle)
    requires Sum(s'.runs, InFlight(b, 1)) <= k
    ensures Capped(s', period, b, price, Bound(limit, k, price))
  {
    InFlightCost(s', b, price, k);
    NothingFromTheFuture(s, period, b, IndexOf(period, s'.now));
    forall i: nat ensures Used(s', period, b, i) == Used(s, period, b, i) {
    }
  }

  lemma CappedMoved(s: Sys, s': Sys, r: nat, period: Period, b: nat, limit: nat, k: nat, price: nat)
    requires Linked(s) && Capped(s, period, b, price, Bound(limit, k, price)) && Effected(s, s', Moved(r))
    requires LimitFixed(s, period, b, limit) && Sum(s'.runs, InFlight(b, 1)) <= k
    ensures Capped(s', period, b, price, Bound(limit, k, price))
  {
    var now := IndexOf(period, s.now);
    InFlightCost(s', b, price, k);
    NothingFromTheFuture(s, period, b, now);
    SumEdits(s.runs, s'.runs, r, InFlight(b, price));
    assert s'.db.billing == s.db.billing && s'.now == s.now;
    assert Used(s', period, b, now) == Used(s, period, b, now);
    if b in s'.runs[r].eligible && b !in s.runs[r].eligible {
      assert WithinCap(s, b, s.runs[r].phase.pending[b], period);
    }
    forall i: nat ensures Used(s', period, b, i) <= Bound(limit, k, price) {
      assert Used(s', period, b, i) == Used(s, period, b, i);
    }
  }

  /** What run r, about to store its outcome, will add to the usage of buyer b. */
  function SaleUsage(s: Sys, r: nat, period: Period, b: nat): int
    requires CanSettle(s, r)
  {
    var post := NewPost(s, r);
    if post.delivered && post.buyer == b then (if period.Day? then 1 else post.bid) else 0
  }

  lemma UsedSettled(s: Sys, s': Sys, r: nat, period: Period, b: nat, i: nat)
    requires Effected(s, s', Settled(r))
    ensures Used(s', period, b, i) == Used(s, period, b, i) +
              if i == IndexOf(period, s.now) then SaleUsage(s, r, period, b) else 0
  {
    SumBilling(s, s', Settled(r), UsedIn(period, b, i));
  }

  /** Storing a sale takes the run out of flight, which pays for the usage it adds. */
  lemma InFlightSettled(s: Sys, s': Sys, r: nat, period: Period, b: nat, price: nat)
    requires Linked(s) && Effected(s, s', Settled(r)) && PriceCovers(s, period, b, price)
    ensures Sum(s'.runs, InFlight(b, price)) <= Sum(s.runs, InFlight(b, price))
    ensures Sum(s'.runs, InFlight(b, price)) + SaleUsage(s, r, period, b) <= Sum(s.runs, InFlight(b, price))
  {
    assert RunLinked(s.db, s.runs[r]);
    SumEdits(s.runs, s'.runs, r, InFlight(b, price));
  }

  lemma CappedSettled(s: Sys, s': Sys, r: nat, period: Period, b: nat, price: nat, bound: nat)
    requires Linked(s) && Capped(s, period, b, price, bound) && Effected(s, s', Settled(r))
    requires PriceCovers(s, period, b, price)
    ensures Capped(s', period, b, price, bound)
  {
    var now: nat := IndexOf(period, s.now);
    InFlightSettled(s, s', r, period, b, price);
    UsedSettled(s, s', r, period, b, now);
    SumNonNegative(s'.runs, InFlight(b, price));
    forall i: nat ensures Used(s', period, b, i) <= bound {
      UsedSettled(s, s', r, period, b, i);
      assert Used(s, period, b, i) <= bound;
    }
  }

  lemma CappedOther(s: Sys, s': Sys, e: Effect, period: Period, b: nat, price: nat, bound: nat)
    requires Capped(s, period, b, price, bound) && Effected(s, s', e)
    requires !e.Idle? && !e.Moved? && !e.Settled?
    ensures Capped(s', period, b, price, bound)
  {
    SumRuns(s, s', e, InFlight(b, price));
    forall i: nat ensures Used(s', period, b, i) == Used(s, period, b, i) {
      SumBilling(s, s', e, UsedIn(period, b, i));
    }
    assert s'.now == s.now;
    assert Used(s', period, b, IndexOf(period, s.now)) == Used(s, period, b, IndexOf(period, s.now));
  }

  lemma LimitFixedEffect(s: Sys, s': Sys, e: Effect, period: Period, b: nat, limit: nat)
    requires Linked(s) && LimitFixed(s, period, b, limit) && Effected(s, s', e)
    requires b < |s'.db.buyers| ==> LimitOf(period, s'.db.buyers[b]) == limit
    ensures LimitFixed(s', period, b, limit)
  {
  }

  /** Throughout the history at most k auctions are in flight for buyer b and its limit does not change. */
  ghost predicate Watched(steps: seq<Step>, period: Period, b: nat, limit: nat, k: nat) {
    forall j :: 0 <= j <= |steps| ==>
      && Sum(Exec(START, steps[..j]).runs, InFlight(b, 1)) <= k
      && (b < |Exec(START, steps[..j]).db.buyers| ==> LimitOf(period, Exec(START, steps[..j]).db.buyers[b]) == limit)
  }

  lemma CappedEffect(s: Sys, s': Sys, e: Effect, period: Period, b: nat, limit: nat, k: nat, price: nat)
    requires Linked(s) && Effected(s, s', e)
    requires LimitFixed(s, period, b, limit) && Capped(s, period, b, price, Bound(limit, k, price))
    requires PriceCovers(s, period, b, price) && Sum(s'.runs, InFlight(b, 1)) <= k
    ensures Capped(s', period, b, price, Bound(limit, k, price))
  {
    match e
    case Idle => CappedIdle(s, s', period, b, limit, k, price);
    case Moved(r) => CappedMoved(s, s', r, period, b, limit, k, price);
    case Settled(r) => CappedSettled(s, s', r, period, b, price, Bound(limit, k, price));
    case _ => CappedOther(s, s', e, period, b, price, Bound(limit, k, price));
  }

  lemma {:induction false} AlwaysCapped(steps: seq<Step>, period: Period, b: nat, limit: nat, k: nat, price: nat)
    requires Watched(steps, period, b, limit, k)
    requires if period.Day? then price >= 1 else HistoryBids(steps, AtMost(b, price))
    ensures LimitFixed(Exec(START, steps), period, b, limit)
    ensures Capped(Exec(START, steps), period, b, price, Bound(limit, k, price))
  {
    if |steps| == 0 {
      assert forall i: nat :: Used(START, period, b, i) == 0;
    } else {
      ExecLast(START, steps);
      var n := |steps| - 1;
      var s, s' := Exec(START, steps[..n]), Exec(START, steps);
      assert forall j :: 0 <= j <= n ==> steps[..n][..j] == steps[..j];
      assert steps[..|steps|] == steps;
      AlwaysCapped(steps[..n], period, b, limit, k, price);
      AlwaysLinked(steps[..n]);
      if period.Month? {
        AlwaysDeals(steps[..n], AtMost(b, price));
      }
      var e := StepEffect(s, steps[n]);
      CappedEffect(s, s', e, period, b, limit, k, price);
      LimitFixedEffect(s, s', e, period, b, limit);
    }
  }

  /** Sales to b on any one UTC day: at most the daily cap plus one less than the auctions ever in flight for b. */
  lemma DailyCapOverrun(steps: seq<Step>, b: nat, cap: nat, k: nat, day: nat)
    requires cap >= 1 && Watched(steps, Day, b, cap, k)
    ensures Used(Exec(START, steps), Day, b, day) <= cap + k - 1
  {
    AlwaysCapped(steps, Day, b, cap, k, 1);
  }

  /** Money posted to b in any one month, for bids of b up to price: below the budget plus one price per auction in
      flight. */
  lemma MonthlyBudgetOverrun(steps: seq<Step>, b: nat, budget: nat, k: nat, price: nat, month: nat)
    requires Watched(steps, Month, b, budget, k) && HistoryBids(steps, AtMost(b, price))
    ensures Used(Exec(START, steps), Month, b, month) <= (if budget == 0 then 0 else budget - 1) + k * price
  {
    AlwaysCapped(steps, Month, b, budget, k, price);
  }
}
