/** Histories that show why the guarantees are conditional: what overlap and crashes can do. */
module Witnesses {
  import opened Market
  import opened Saga
  import opened Effects
  import opened Ledger
  import opened Laws
  import opened Scripts
  import opened BidSigns
  import opened Serial
  import opened Caps
  import opened Reports
  import opened Revenue
  import opened Sums

  /** Two runs of one lead pass their checks before either sells it. */
  function Overlap(p: nat, q: nat): seq<Step> {
    OpenMarket(p + q, 1, 1) + Enter(0, 0) + Enter(1, 0) + Win(0, p) + Win(1, q) + Sell(0) + Sell(1)
  }

  lemma OverlapEnters(p: nat, q: nat)
    requires p > 0 && q > 0
    ensures var row := Buyer(Active, p + q, 0, 1, 1);
            var run := Run(0, None, map[0 := row], Soliciting, false);
            Exec(START, OpenMarket(p + q, 1, 1) + Enter(0, 0) + Enter(1, 0)) ==
              START.(db := Db([row], [GOOD_LEAD], [], [], [BillingEvent(0, None, DepositAdded, p + q, START.now)]),
                     runs := [run, run])
  {
    var open := OpenMarket(p + q, 1, 1);
    OpenMarketWorks(p + q, 1, 1);
    var s0 := Exec(START, open);
    assert NothingSold(s0);
    FreshWithinCaps(s0, Day);
    FreshWithinCaps(s0, Month);
    EnterWorks(s0, 0);
    ExecConcat(START, open, Enter(0, 0));
    var s1 := Exec(START, open + Enter(0, 0));
    FreshWithinCaps(s1, Day);
    FreshWithinCaps(s1, Month);
    EnterWorks(s1, 0);
    ExecConcat(START, open + Enter(0, 0), Enter(1, 0));
  }

  lemma OverlapReserves(p: nat, q: nat)
    requires p > 0 && q > 0
    ensures var s := Exec(START, OpenMarket(p + q, 1, 1) + Enter(0, 0) + Enter(1, 0) + Win(0, p) + Win(1, q));
            && s.db.posts == [] && |s.db.leads| == 1 && |s.runs| == 2 && s.now == START.now && |s.db.buyers| == 1 &&
                 s.db.buyers[0].dailyCap == 1
            && s.runs[0] == Run(0, None, s.runs[0].eligible, Reserved(0, p), false)
            && s.runs[1] == Run(0, None, s.runs[1].eligible, Reserved(0, q), false)
            && Sum(s.db.billing, UsedIn(Day, 0, 0)) == 0
  {
    var entered := OpenMarket(p + q, 1, 1) + Enter(0, 0) + Enter(1, 0);
    OverlapEnters(p, q);
    var row := Buyer(Active, p + q, 0, 1, 1);
    var s2 := Exec(START, entered);
    WinWorks(s2, 0, row, p);
    ExecConcat(START, entered, Win(0, p));
    var s3 := Exec(START, entered + Win(0, p));
    WinWorks(s3, 1, row, q);
    ExecConcat(START, entered + Win(0, p), Win(1, q));
    var s4 := Exec(START, entered + Win(0, p) + Win(1, q));
    SumZero(s4.db.billing, UsedIn(Day, 0, 0));
  }

  /** What storing a sale of lead 0 to buyer 0 adds up to. */
  lemma SaleAddsOne(s: Sys, r: nat, bid: int)
    requires r < |s.runs| && !s.runs[r].crashed && s.runs[r].phase == Reserved(0, bid) && s.runs[r].lead == 0
    requires |s.db.leads| == 1 && !HasDeliveryKey(s.db, 0, 0, bid) && s.now == START.now
    ensures var s' := Exec(s, Sell(r));
            && s'.db.buyers == s.db.buyers && |s'.db.leads| == 1 && s'.now == s.now
            && s'.db.posts == s.db.posts + [Post(0, 0, bid, true, false, s.now)]
            && s'.runs == s.runs[r := s.runs[r].(phase := Finished)]
            && Sum(s'.db.posts, SaleOf(0)) == Sum(s.db.posts, SaleOf(0)) + 1
            && Used(s', Day, 0, 0) == Used(s, Day, 0, 0) + 1
  {
    SettleWorks(s, r, bid, true);
    SumAppend(s.db.posts, Post(0, 0, bid, true, false, s.now), SaleOf(0));
    SumAppend(s.db.billing, BillingEvent(0, Some(0), LeadPosted, bid, s.now), UsedIn(Day, 0, 0));
  }

  lemma SecondSells(s: Sys, p: nat, q: nat)
    requires p != q && s.db.posts == [Post(0, 0, p, true, false, s.now)]
    requires |s.db.leads| == 1 && |s.runs| == 2 && s.now == START.now
    requires s.runs[1] == Run(0, None, s.runs[1].eligible, Reserved(0, q), false)
    ensures var s' := Exec(s, Sell(1));
            && s'.db.buyers == s.db.buyers && |s'.runs| == 2
            && Sum(s'.db.posts, SaleOf(0)) == Sum(s.db.posts, SaleOf(0)) + 1
            && Used(s', Day, 0, 0) == Used(s, Day, 0, 0) + 1
  {
    SaleAddsOne(s, 1, q);
  }

  /** The second of two reserved runs sells as well, because its delivery key differs. */
  lemma BothSell(s: Sys, p: nat, q: nat)
    requires p > 0 && q > 0 && p != q && s.db.posts == [] && |s.db.leads| == 1 && |s.runs| == 2 && s.now == START.now
    requires s.runs[0] == Run(0, None, s.runs[0].eligible, Reserved(0, p), false)
    requires s.runs[1] == Run(0, None, s.runs[1].eligible, Reserved(0, q), false)
    requires Used(s, Day, 0, 0) == 0
    ensures var s' := Exec(Exec(s, Sell(0)), Sell(1));
            && s'.db.buyers == s.db.buyers && Sum(s'.db.posts, SaleOf(0)) == 2 && Used(s', Day, 0, 0) == 2
            && |s'.runs| == 2
  {
    SaleAddsOne(s, 0, p);
    SecondSells(Exec(s, Sell(0)), p, q);
  }

  /** Overlapping runs sell one lead twice, and take a buyer capped at one sale a day to two. */
  lemma OverlapSellsTwice(p: nat, q: nat)
    requires p > 0 && q > 0 && p != q
    ensures var s := Exec(START, Overlap(p, q));
            && Sum(s.db.posts, SaleOf(0)) == 2 && |s.runs| == 2
            && |s.db.buyers| == 1 && s.db.buyers[0].dailyCap == 1 && Used(s, Day, 0, 0) == 2
  {
    var reserved := OpenMarket(p + q, 1, 1) + Enter(0, 0) + Enter(1, 0) + Win(0, p) + Win(1, q);
    OverlapReserves(p, q);
    BothSell(Exec(START, reserved), p, q);
    ExecConcat(START, reserved, Sell(0));
    ExecConcat(START, reserved + Sell(0), Sell(1));
  }

  lemma RunsGrow(s: Sys, step: Step)
    ensures |s.runs| <= |Apply(s, step).runs|
  {
    var e := StepEffect(s, step);
  }

  lemma {:induction false} RunsOfPrefix(steps: seq<Step>, j: nat)
    requires j <= |steps|
    ensures |Exec(START, steps[..j]).runs| <= |Exec(START, steps).runs|
  {
    hide Apply;
    if j == |steps| {
      assert steps[..j] == steps;
    } else {
      ExecLast(START, steps);
      RunsOfPrefix(steps[..|steps| - 1], j);
      assert steps[..|steps| - 1][..j] == steps[..j];
      RunsGrow(Exec(START, steps[..|steps| - 1]), steps[|steps| - 1]);
    }
  }

  lemma LiveAtMostAll(runs: seq<Run>, l: nat)
    ensures Sum(runs, LiveOf(l)) <= |runs|
  {
    SumAtMost(runs, LiveOf(l), (run: Run) => 1);
    CountRuns(runs, |runs|);
  }

  lemma {:induction false} CountRuns(runs: seq<Run>, n: nat)
    requires n <= |runs|
    ensures SumTo(runs, (run: Run) => 1, n) == n
  {
    if n > 0 {
      CountRuns(runs, n - 1);
    }
  }

  /** At most one sale per lead is guaranteed for histories with at most k live runs of a lead exactly when k <= 1. */
  lemma OneSaleIffNoOverlap(k: nat)
    ensures (forall steps, l: nat :: AtMostLive(steps, l, k) ==> Sum(Exec(START, steps).db.posts, SaleOf(l)) <= 1) <==>
              k <= 1
  {
    hide Exec;
    if k <= 1 {
      forall steps, l: nat | AtMostLive(steps, l, k) ensures Sum(Exec(START, steps).db.posts, SaleOf(l)) <= 1 {
        assert AlwaysSerial(steps, l);
        AlwaysSoldOnce(steps, l);
      }
    } else {
      var steps := Overlap(1, 2);
      OverlapSellsTwice(1, 2);
      forall j | 0 <= j <= |steps| ensures Sum(Exec(START, steps[..j]).runs, LiveOf(0)) <= k {
        RunsOfPrefix(steps, j);
        LiveAtMostAll(Exec(START, steps[..j]).runs, 0);
      }
      assert AtMostLive(steps, 0, k);
    }
  }

  /** A run debits, then dies; the retry debits again. */
  function CrashAndRetry(p: nat): seq<Step> {
    OpenMarket(p + p, 1, 1) + Debit(0, p) + [RunMoved(0, Crash)] + Debit(1, p)
  }

  /** The run dies with its debit standing. */
  function Dead(s: Sys): Sys
    requires |s.runs| == 1
  {
    s.(runs := [s.runs[0].(crashed := true)])
  }

  lemma CrashedDebit(p: nat)
    requires p > 0
    ensures var s1 := Exec(START, OpenMarket(p + p, 1, 1) + Debit(0, p));
            && NothingSold(s1) && |s1.runs| == 1 && s1.db.buyers[0].balance == p && |s1.db.leads| == 1 &&
                 s1.now == START.now
            && s1.runs[0].phase == Reserved(0, p) && s1.runs[0].lead == 0
            && Exec(START, OpenMarket(p + p, 1, 1) + Debit(0, p) + [RunMoved(0, Crash)]) == Dead(s1)
  {
    var open := OpenMarket(p + p, 1, 1);
    OpenMarketWorks(p + p, 1, 1);
    DebitWorks(Exec(START, open), p);
    ExecConcat(START, open, Debit(0, p));
    ExecAppend(START, open + Debit(0, p), RunMoved(0, Crash));
  }

  lemma RetryReserves(p: nat)
    requires p > 0
    ensures var s := Exec(START, CrashAndRetry(p));
            && s.db.posts == [] && |s.db.leads| == 1 && |s.runs| == 2 && s.now == START.now
            && s.runs[0].phase == s.runs[1].phase == Reserved(0, p)
            && s.runs[0].lead == s.runs[1].lead == 0 && !s.runs[1].crashed
  {
    var first := OpenMarket(p + p, 1, 1) + Debit(0, p) + [RunMoved(0, Crash)];
    CrashedDebit(p);
    var s2 := Exec(START, first);
    DebitWorks(s2, p);
    ExecConcat(START, first, Debit(1, p));
    assert s2.runs <= Exec(START, CrashAndRetry(p)).runs;
  }

  /** A crash between the debit and the result leaves the debit standing: one sale, charged twice. */
  lemma RetryChargesTwice(p: nat)
    requires p > 0
    ensures var s := Exec(START, CrashAndRetry(p) + Sell(1));
            Sum(s.db.posts, SaleOf(0)) == 1 && NetCharge(s, 0) == p + p
  {
    var s3 := Exec(START, CrashAndRetry(p));
    RetryReserves(p);
    SaleAddsOne(s3, 1, p);
    ExecConcat(START, CrashAndRetry(p), Sell(1));
    var s4 := Exec(START, CrashAndRetry(p) + Sell(1));
    AlwaysBalanced(CrashAndRetry(p) + Sell(1), BidFor(0));
    assert s4.db.posts == [Post(0, 0, p, true, false, s3.now)];
    assert SumTo(s4.db.posts, Kept(BidFor(0)), 1) == p;
    assert s4.runs[0].phase == Reserved(0, p) && s4.runs[1].phase == Finished;
    assert SumTo(s4.runs, Outstanding(BidFor(0)), 1) == p;
    assert SumTo(s4.runs, Outstanding(BidFor(0)), 2) == p;
  }

  const CAMPAIGN_LEAD := GOOD_LEAD.(campaign := Some(0))

  /** A lead of a campaign is sold. */
  function CampaignSale(bid: int): seq<Step> {
    [BuyerCreated(1, 1, 1), BuyerUpdated(0, Active, 1, 1), LeadArrived(CAMPAIGN_LEAD)] + Debit(0, bid) + Sell(0)
  }

  lemma CampaignSaleWorks(bid: int)
    requires bid < 0
    ensures var s := Exec(START, CampaignSale(bid));
            && s.db.posts == [Post(0, 0, bid, true, false, START.now)] && s.db.requests == [] && |s.db.buyers| == 1
            && s.db.leads == [CAMPAIGN_LEAD.(status := Sold)] && s.now == START.now
  {
    var open := [BuyerCreated(1, 1, 1), BuyerUpdated(0, Active, 1, 1), LeadArrived(CAMPAIGN_LEAD)];
    ExecThree(START, open);
    var s0 := Exec(START, open);
    DebitWorks(s0, bid);
    ExecConcat(START, open, Debit(0, bid));
    SettleWorks(Exec(s0, Debit(0, bid)), 0, bid, true);
    ExecConcat(START, open + Debit(0, bid), Sell(0));
  }

  /** The sale is returned, and the return approved. */
  function NegativeReturn(bid: int): seq<Step> {
    CampaignSale(bid) + [ReturnOpened(0, 0)] + [ReturnReviewed(0, Approve)]
  }

  lemma NegativeReturnWorks(bid: int)
    requires bid < 0
    ensures var db := Exec(START, NegativeReturn(bid)).db;
            db.posts == [Post(0, 0, bid, true, true, START.now)] && db.leads == [CAMPAIGN_LEAD.(status := Sold)]
  {
    CampaignSaleWorks(bid);
    ExecAppend(START, CampaignSale(bid), ReturnOpened(0, 0));
    ExecAppend(START, CampaignSale(bid) + [ReturnOpened(0, 0)], ReturnReviewed(0, Approve));
  }

  /** Nothing of the sale is kept, and giving a negative bid back is a gain; but the reports of the campaign and of the
      zip take it for a second loss. */
  lemma NegativeReturnCountsTwice(bid: int)
    requires bid < 0
    ensures var db := Exec(START, NegativeReturn(bid)).db;
            && GroupReturns(db, Campaign(), 0) == GroupReturns(db, ZipIn(0), 0) == bid
            && GroupKept(db, Campaign(), 0) == GroupKept(db, ZipIn(0), 0) == 0
            && NetOf(GetCampaignRoi(db, 0)) == ZipNet(db, 0)(0) == 2 * bid
  {
    NegativeReturnWorks(bid);
    hide Exec, NegativeReturn;
    var db := Exec(START, NegativeReturn(bid)).db;
    assert SumTo(db.leads, LeadsOfCampaign(0), 1) == 1;
    CampaignIsGroup(db, 0);
    ZipIsGroup(db, 0, 0);
    forall key | key in {Campaign(), ZipIn(0)}
      ensures GroupReturns(db, key, 0) == bid && GroupKept(db, key, 0) == 0 && GroupNet(db, key)(0) == 2 * bid
    {
      assert SumTo(db.posts, InGroup(db.leads, key, 0, ReturnedBid()), 1) == bid;
      assert SumTo(db.posts, InGroup(db.leads, key, 0, KeptBid()), 1) == 0;
      assert SumTo(db.posts, InGroup(db.leads, key, 0, DeliveredBid()), 1) == bid;
    }
  }

  /** The write half of a deposit whose read half saw the given balance. */
  function StaleDeposit(db: Db, b: nat, read: int, amount: nat, at: Stamp): Db
    requires b < |db.buyers|
  {
    db.(buyers := db.buyers[b := db.buyers[b].(balance := read + amount)],
        billing := db.billing + [BillingEvent(b, None, DepositAdded, amount, at)])
  }

  /** Deposits are atomic in the model because otherwise the law fails: of two deposits that both read before
      either writes, the log keeps both and the wallet keeps one. */
  lemma SplitDepositsLoseOne(s: Sys, b: nat, x: nat, y: nat)
    requires b < |s.db.buyers| && Conserved(s) && x > 0
    ensures var read := s.db.buyers[b].balance;
            var db' := StaleDeposit(StaleDeposit(s.db, b, read, x, s.now), b, read, y, s.now);
            && Sum(db'.billing, Cash(b)) == read + x + y && db'.buyers[b].balance == read + y
            && !Conserved(s.(db := db'))
  {
    var first := BillingEvent(b, None, DepositAdded, x, s.now);
    var second := BillingEvent(b, None, DepositAdded, y, s.now);
    SumAppend(s.db.billing, first, Cash(b));
    SumAppend(s.db.billing + [first], second, Cash(b));
  }
}
