/** The cap bounds are reached: for every cap and number of runs in flight, one explicit history goes all the way, and
    stays within what the bounds assume at each of its steps. */
module CapReach {
  import opened Market
  import opened Saga
  import opened Bidding
  import opened Links
  import opened Caps
  import opened Deals
  import opened Scripts
  import opened Sums
  import Resale

  /** Both limits of the one buyer are n; in the end k runs are in flight at once, and their bids are the price. */
  datatype Plan = Plan(n: nat, k: nat, price: nat)

  /** All of them are at least one. */
  type Proper = p: Plan | p.n >= 1 && p.k >= 1 && p.price >= 1 witness Plan(1, 1, 1)

  // ---------------------------------------------------------------- what holds all the time

  /** Buyer 0 sells within the plan's limits and has no more than k runs in flight. */
  predicate Fine(s: Sys, p: Plan) {
    && Sum(s.runs, InFlight(0, 1)) <= p.k
    && (|s.db.buyers| > 0 ==> s.db.buyers[0].dailyCap == p.n && s.db.buyers[0].monthlyBudget == p.n)
  }

  /** It is so before, during and after the steps, and no bid in them is above the price. */
  ghost predicate StaysFine(s: Sys, steps: seq<Step>, p: Plan) {
    && HistoryBids(steps, AtMost(0, p.price))
    && forall j :: 0 <= j <= |steps| ==> Fine(ExecTo(s, steps, j), p)
  }

  lemma FineThenFine(s: Sys, first: seq<Step>, second: seq<Step>, p: Plan)
    requires StaysFine(s, first, p) && StaysFine(Exec(s, first), second, p)
    ensures StaysFine(s, first + second, p) && Exec(s, first + second) == Exec(Exec(s, first), second)
  {
    hide Apply, Fine, StepBids;
    ExecConcat(s, first, second);
    forall j | 0 <= j <= |first + second| ensures Fine(ExecTo(s, first + second, j), p) {
      if j <= |first| {
        ExecToSame(s, first + second, first, j);
      } else {
        var i := j - |first|;
        ExecToSame(s, first + second, first + second[..i], j);
        ExecConcat(s, first, second[..i]);
        ExecToSame(Exec(s, first), second, second[..i], i);
      }
    }
  }

  lemma StepStaysFine(s: Sys, step: Step, p: Plan)
    requires Fine(s, p) && Fine(Apply(s, step), p) && StepBids(step, AtMost(0, p.price))
    ensures StaysFine(s, [step], p)
  {
    hide Apply, Fine;
    assert forall j :: 0 <= j <= 1 ==> ExecTo(s, [step], j) == if j == 0 then s else Apply(s, step);
  }

  predicate MovesOnly(steps: seq<Step>, r: nat) {
    forall i :: 0 <= i < |steps| ==> steps[i].RunMoved? && steps[i].r == r
  }

  /** Moves of one run leave the other runs and the limits of the buyers alone. */
  predicate OneRunMoved(s: Sys, s': Sys, r: nat) {
    && r < |s.runs| && |s'.runs| == |s.runs| && (forall i :: 0 <= i < |s.runs| && i != r ==> s'.runs[i] == s.runs[i])
    && |s'.db.buyers| == |s.db.buyers|
    && forall b :: 0 <= b < |s.db.buyers| ==>
         s'.db.buyers[b].dailyCap == s.db.buyers[b].dailyCap &&
           s'.db.buyers[b].monthlyBudget == s.db.buyers[b].monthlyBudget
  }

  lemma MoveMovesOne(s: Sys, r: nat, move: Move)
    requires r < |s.runs|
    ensures OneRunMoved(s, Apply(s, RunMoved(r, move)), r)
  {
    hide PickWinner, FromPinged, HasSale, WithinCap, HasDeliveryKey;
  }

  lemma {:induction false} MovesMoveOne(s: Sys, steps: seq<Step>, r: nat, j: nat)
    requires r < |s.runs| && MovesOnly(steps, r) && j <= |steps|
    ensures OneRunMoved(s, ExecTo(s, steps, j), r)
  {
    hide Apply;
    if j > 0 {
      MovesMoveOne(s, steps, r, j - 1);
      assert steps[j - 1] == RunMoved(r, steps[j - 1].move);
      MoveMovesOne(ExecTo(s, steps, j - 1), r, steps[j - 1].move);
    }
  }

  /** While only run r moves at most one more run is in flight than the others. */
  lemma MovesStayFine(s: Sys, steps: seq<Step>, r: nat, p: Plan)
    requires r < |s.runs| && MovesOnly(steps, r) && Fine(s, p) && HistoryBids(steps, AtMost(0, p.price))
    requires Sum(s.runs, InFlight(0, 1)) - InFlight(0, 1)(s.runs[r]) < p.k
    ensures StaysFine(s, steps, p)
  {
    hide ExecTo;
    forall j | 0 <= j <= |steps| ensures Fine(ExecTo(s, steps, j), p) {
      MovesMoveOne(s, steps, r, j);
      SumEdits(s.runs, ExecTo(s, steps, j).runs, r, InFlight(0, 1));
    }
  }

  lemma EnterStaysFine(s: Sys, l: nat, p: Plan)
    requires Fine(s, p) && Sum(s.runs, InFlight(0, 1)) < p.k && l < |s.db.leads|
    ensures StaysFine(s, Enter(|s.runs|, l), p)
  {
    var r, start := |s.runs|, RunStarted(l, 0.0, 0.0);
    var rest := Enter(r, l)[1..];
    var s1 := Apply(s, start);
    SumAppend(s.runs, s1.runs[r], InFlight(0, 1));
    ExecOne(s, start);
    StepStaysFine(s, start, p);
    MovesStayFine(s1, rest, r, p);
    FineThenFine(s, [start], rest, p);
    assert [start] + rest == Enter(r, l);
  }

  // ---------------------------------------------------------------- the plan

  /** Lead and run r: the first n - 1 are sold for one, the k others for the price. */
  function Leads(p: Proper): nat {
    p.n - 1 + p.k
  }

  function PriceOf(p: Proper, r: nat): nat {
    if r < p.n - 1 then 1 else p.price
  }

  /** What runs 0 to r - 1 pay. */
  function Paid(p: Proper, r: nat): nat {
    if r == 0 then 0 else Paid(p, r - 1) + PriceOf(p, r - 1)
  }

  lemma {:induction false} PaidIs(p: Proper, r: nat)
    ensures Paid(p, r) == if r < p.n then r else p.n - 1 + (r - (p.n - 1)) * p.price
  {
    if r > 0 {
      PaidIs(p, r - 1);
      if r >= p.n {
        assert (r - (p.n - 1)) * p.price == (r - 1 - (p.n - 1)) * p.price + p.price;
      }
    }
  }

  /** No run pays more than what is left when all those before it but some have paid. */
  lemma {:induction false} PaidCovers(p: Proper, d: nat, r: nat, end: nat)
    requires d <= r < end
    ensures Paid(p, d) + PriceOf(p, r) <= Paid(p, end)
  {
    if d + 1 < end {
      PaidCovers(p, d, if r + 1 < end then r else d, end - 1);
    }
  }

  /** Limits and leads as planned, with so many leads sold so far, all on the opening day. */
  ghost predicate Trading(s: Sys, p: Proper, sold: nat) {
    && OneBuyerMarket(s) && Linked(s) && |s.db.leads| == Leads(p) && s.now == START.now
    && s.db.buyers[0].dailyCap == p.n && s.db.buyers[0].monthlyBudget == p.n
    && s.db.buyers[0].balance == Paid(p, Leads(p)) - Paid(p, sold)
    && (forall i :: 0 <= i < |s.db.posts| ==> s.db.posts[i].lead < sold)
    && Used(s, Day, 0, 0) == sold && Used(s, Month, 0, 0) == Paid(p, sold)
  }

  /** Run r has passed its cap check on a row that covers its price. */
  predicate Ready(s: Sys, p: Proper, r: nat) {
    && r < |s.runs| && 0 in s.runs[r].eligible && Entered(s, r, s.runs[r].eligible[0]) && s.runs[r].lead == r
    && s.runs[r].eligible[0].balance >= PriceOf(p, r)
  }

  /** So many runs have entered, and the first of them have sold; the others are in flight. */
  ghost predicate Stage(s: Sys, p: Proper, entered: nat, sold: nat) {
    && Trading(s, p, sold) && |s.runs| == entered && (forall r :: sold <= r < entered ==> Ready(s, p, r))
    && Sum(s.runs, InFlight(0, 1)) == entered - sold
  }

  lemma EnterOne(s: Sys, p: Proper, entered: nat, sold: nat)
    requires Stage(s, p, entered, sold) && sold < p.n && sold <= entered < Leads(p)
    ensures var s' := Exec(s, Enter(entered, entered));
            && Trading(s', p, sold)
            && s' == With(s, Run(entered, s.db.leads[entered].leadClass, map[0 := s.db.buyers[0]], Soliciting, false))
            && s.db.buyers[0].balance >= PriceOf(p, entered)
  {
    PaidIs(p, sold);
    PaidCovers(p, sold, entered, Leads(p));
    NothingFromTheFuture(s, Day, 0, 0);
    NothingFromTheFuture(s, Month, 0, 0);
    EnterWorks(s, entered);
    Resale.LinkedAfter(s, Enter(entered, entered));
    assert Exec(s, Enter(entered, entered)).db == s.db;
  }

  lemma EnterNext(s: Sys, p: Proper, entered: nat, sold: nat)
    requires Stage(s, p, entered, sold) && sold < p.n && sold <= entered < Leads(p) && entered - sold < p.k
    ensures Stage(Exec(s, Enter(entered, entered)), p, entered + 1, sold)
    ensures StaysFine(s, Enter(entered, entered), p)
  {
    EnterStaysFine(s, entered, p);
    EnterOne(s, p, entered, sold);
    hide Enter, Exec, OneBuyerMarket, Linked;
    SumAppend(s.runs, Exec(s, Enter(entered, entered)).runs[entered], InFlight(0, 1));
    forall r | sold <= r <= entered ensures Ready(Exec(s, Enter(entered, entered)), p, r) {
      assert r < entered ==> Ready(s, p, r);
    }
  }

  /** A debit and a sale use one of the day and the bid of the month. */
  lemma SaleUses(s: Sys, s': Sys, l: nat, bid: int)
    requires s.now == START.now
    requires s'.db.billing == s.db.billing + [BillingEvent(0, Some(l), LeadReserved, -bid, s.now)]
                                           + [BillingEvent(0, Some(l), LeadPosted, bid, s.now)]
    ensures Used(s', Day, 0, 0) == Used(s, Day, 0, 0) + 1 && Used(s', Month, 0, 0) == Used(s, Month, 0, 0) + bid
  {
    var debit, sale := BillingEvent(0, Some(l), LeadReserved, -bid, s.now),
      BillingEvent(0, Some(l), LeadPosted, bid, s.now);
    forall period: Period
      ensures Used(s', period, 0, 0) == Used(s, period, 0, 0) + UsedIn(period, 0, 0)(debit) + UsedIn(period, 0, 0)(sale)
    {
      SumAppend(s.db.billing, debit, UsedIn(period, 0, 0));
      SumAppend(s.db.billing + [debit], sale, UsedIn(period, 0, 0));
    }
  }

  /** The rest of a run, from its bid to its sale. */
  function Close(p: Proper, r: nat): seq<Step> {
    Win(r, PriceOf(p, r)) + Sell(r)
  }

  /** s after the sale of run r and its lead. */
  function Sold(s: Sys, r: nat, bid: int): Sys
    requires r < |s.runs| && s.runs[r].lead < |s.db.leads| && CanReserve(s.db, 0, bid)
  {
    var l := s.runs[r].lead;
    Advance(s.(outbox := s.outbox + [Sent(r, l, 0, bid)],
               db := StoreResult(Reserve(s.db, 0, l, bid, s.now), l, 0, bid, true, s.now)), r, Finished)
  }

  lemma CloseWorks(s: Sys, p: Proper, r: nat)
    requires Ready(s, p, r) && CanReserve(s.db, 0, PriceOf(p, r)) && r < |s.db.leads|
    requires !HasDeliveryKey(s.db, r, 0, PriceOf(p, r))
    ensures Exec(s, Close(p, r)) == Sold(s, r, PriceOf(p, r))
  {
    var bid := PriceOf(p, r);
    WinWorks(s, r, s.runs[r].eligible[0], bid);
    var s1 := Exec(s, Win(r, bid));
    Resale.SameKeys(s.db, s1.db, r, 0, bid);
    hide HasDeliveryKey;
    SettleWorks(s1, r, bid, true);
    ExecConcat(s, Win(r, bid), Sell(r));
    assert s1.runs[r := s1.runs[r].(phase := Finished)] == s.runs[r := s.runs[r].(phase := Finished)];
  }

  lemma SellOne(s: Sys, p: Proper, sold: nat)
    requires Trading(s, p, sold) && Ready(s, p, sold) && sold < Leads(p)
    ensures var s' := Exec(s, Close(p, sold));
            Trading(s', p, sold + 1) && s'.runs == s.runs[sold := s.runs[sold].(phase := Finished)]
  {
    PaidCovers(p, sold, sold, Leads(p));
    CloseWorks(s, p, sold);
    hide HasDeliveryKey, Exec, Close, Linked, Used;
    Resale.LinkedAfter(s, Close(p, sold));
    SaleUses(s, Sold(s, sold, PriceOf(p, sold)), sold, PriceOf(p, sold));
  }

  lemma SellNext(s: Sys, p: Proper, entered: nat, sold: nat)
    requires Stage(s, p, entered, sold) && sold < entered <= Leads(p) && entered - sold <= p.k
    ensures Stage(Exec(s, Close(p, sold)), p, entered, sold + 1) && StaysFine(s, Close(p, sold), p)
  {
    assert Ready(s, p, sold);
    SellOne(s, p, sold);
    MovesStayFine(s, Close(p, sold), sold, p);
    hide Exec, Close, OneBuyerMarket, Linked;
    SumUpdate(s.runs, sold, s.runs[sold].(phase := Finished), InFlight(0, 1));
    forall r | sold < r < entered ensures Ready(Exec(s, Close(p, sold)), p, r) {
      assert Ready(s, p, r);
    }
  }

  /** The first n - 1 runs sell one after the other; then k runs all pass their checks before any of them sells. */
  function Play(p: Proper, entered: nat, sold: nat): seq<Step>
    decreases entered + sold
  {
    hide Exec, Stage, StaysFine, Enter, Close, Paid;
    if sold > 0 && (sold == entered || sold >= p.n) then Play(p, entered, sold - 1) + Close(p, sold - 1)
    else if entered > 0 then Play(p, entered - 1, sold) + Enter(entered - 1, entered - 1)
    else []
  }

  lemma StartsFine(s: Sys, p: Proper)
    requires Stage(s, p, 0, 0)
    ensures StaysFine(s, [], p) && Exec(s, []) == s
  {
    hide Apply;
  }

  lemma {:induction false} PlayWorks(s: Sys, p: Proper, entered: nat, sold: nat)
    requires Stage(s, p, 0, 0) && sold <= entered <= Leads(p)
    requires (sold < p.n - 1 ==> entered <= sold + 1) && (sold >= p.n ==> entered == Leads(p))
    ensures Stage(Exec(s, Play(p, entered, sold)), p, entered, sold) && StaysFine(s, Play(p, entered, sold), p)
    decreases entered + sold
  {
    hide Exec, Stage, StaysFine, Enter, Close, Paid;
    if sold > 0 && (sold == entered || sold >= p.n) {
      PlayWorks(s, p, entered, sold - 1);
      SellNext(Exec(s, Play(p, entered, sold - 1)), p, entered, sold - 1);
      FineThenFine(s, Play(p, entered, sold - 1), Close(p, sold - 1), p);
    } else if entered > 0 {
      PlayWorks(s, p, entered - 1, sold);
      EnterNext(Exec(s, Play(p, entered - 1, sold)), p, entered - 1, sold);
      FineThenFine(s, Play(p, entered - 1, sold), Enter(entered - 1, entered - 1), p);
    } else {
      StartsFine(s, p);
    }
  }

  // ---------------------------------------------------------------- from the start

  /** Opens the market: the buyer, and so many leads. */
  function Opening(p: Proper, leads: nat): seq<Step> {
    if leads == 0 then [BuyerCreated(Paid(p, Leads(p)), p.n, p.n), BuyerUpdated(0, Active, p.n, p.n)]
    else Opening(p, leads - 1) + [LeadArrived(GOOD_LEAD)]
  }

  function Opened(p: Proper, leads: nat): Sys {
    var deposit := Paid(p, Leads(p));
    START.(db := Db([Buyer(Active, deposit, 0, p.n, p.n)], seq(leads, i => GOOD_LEAD), [], [],
                    [BillingEvent(0, None, DepositAdded, deposit, START.now)]))
  }

  lemma {:induction false} OpeningWorks(p: Proper, leads: nat)
    ensures Exec(START, Opening(p, leads)) == Opened(p, leads) && StaysFine(START, Opening(p, leads), p)
  {
    if leads == 0 {
      var steps := Opening(p, 0);
      var s1 := Apply(START, steps[0]);
      PaidCovers(p, 0, 0, Leads(p));
      assert Apply(s1, steps[1]) == Opened(p, 0);
      StepStaysFine(START, steps[0], p);
      StepStaysFine(s1, steps[1], p);
      hide Apply, StaysFine, Opened;
      ExecOne(START, steps[0]);
      ExecOne(s1, steps[1]);
      hide Exec;
      FineThenFine(START, [steps[0]], [steps[1]], p);
      assert [steps[0]] + [steps[1]] == steps;
    } else {
      OpeningWorks(p, leads - 1);
      var s, step := Opened(p, leads - 1), LeadArrived(GOOD_LEAD);
      hide Paid;
      assert Apply(s, step) == Opened(p, leads);
      StepStaysFine(s, step, p);
      ExecOne(s, step);
      hide Apply, StaysFine, Exec, Opened;
      FineThenFine(START, Opening(p, leads - 1), [step], p);
    }
  }

  lemma OpenedIsStage(p: Proper)
    ensures Stage(Opened(p, Leads(p)), p, 0, 0)
  {
    var s := Opened(p, Leads(p));
    OpeningWorks(p, Leads(p));
    AlwaysLinked(Opening(p, Leads(p)));
    SumZero(s.db.billing, UsedIn(Day, 0, 0));
    SumZero(s.db.billing, UsedIn(Month, 0, 0));
  }

  // ---------------------------------------------------------------- the bounds are reached

  function Overrun(p: Proper): seq<Step> {
    Opening(p, Leads(p)) + Play(p, Leads(p), Leads(p))
  }

  lemma FineIsWatched(steps: seq<Step>, p: Plan, period: Period)
    requires StaysFine(START, steps, p)
    ensures Watched(steps, period, 0, p.n, p.k)
  {
    hide Apply;
    forall j | 0 <= j <= |steps|
      ensures Exec(START, steps[..j]) == ExecTo(START, steps, j) && Fine(ExecTo(START, steps, j), p)
    {
      ExecToSame(START, steps[..j], steps, j);
    }
  }

  /** For all limits and numbers of runs in flight from one up the two bounds are attained, by one history: the
      daily cap is overrun to n + k - 1 sales, and the monthly budget to n - 1 plus k times the largest bid. */
  lemma BoundsAreReached(n: nat, k: nat, price: nat)
    requires n >= 1 && k >= 1 && price >= 1
    ensures var steps := Overrun(Plan(n, k, price));
            && Watched(steps, Day, 0, n, k) && Watched(steps, Month, 0, n, k) && HistoryBids(steps, AtMost(0, price))
            && Used(Exec(START, steps), Day, 0, 0) == n + k - 1
            && Used(Exec(START, steps), Month, 0, 0) == n - 1 + k * price
  {
    hide Exec, OneBuyerMarket, Watched, Opened;
    var p: Proper := Plan(n, k, price);
    OpeningWorks(p, Leads(p));
    OpenedIsStage(p);
    PlayWorks(Opened(p, Leads(p)), p, Leads(p), Leads(p));
    FineThenFine(START, Opening(p, Leads(p)), Play(p, Leads(p), Leads(p)), p);
    PaidIs(p, Leads(p));
    FineIsWatched(Overrun(p), p, Day);
    FineIsWatched(Overrun(p), p, Month);
  }
}
