/** The operator's reports: why those read from posts agree with those read from the billing log. */
module Reports {
  import opened Market
  import opened Saga
  import opened Links
  import opened Effects
  import opened Ledger
  import opened Laws
  import opened Sums

  // ---------------------------------------------------------------- marketplace totals

  datatype Kpis = Kpis(prepaid: int, activeBuyers: int, sold: int, returned: int, leadRevenue: int, grossRevenue: int,
        adjustments: int)

  function DeliveredBid(): Post -> int {
    (p: Post) => if p.delivered then p.bid else 0
  }

  function ReturnedBid(): Post -> int {
    (p: Post) => if p.returned then p.bid else 0
  }

  function KeptBid(): Post -> int {
    (p: Post) => if p.delivered && !p.returned then p.bid else 0
  }

  function ReturnedAmount(): BillingEvent -> int {
    (e: BillingEvent) => if e.kind.LeadReturned? then e.amount else 0
  }

  function DepositAmount(): BillingEvent -> int {
    (e: BillingEvent) => if e.kind.DepositAdded? then e.amount else 0
  }

  function BalanceOf(): Buyer -> int {
    (row: Buyer) => row.balance
  }

  function AdminKpis(db: Db): Kpis {
    Kpis(Sum(db.buyers, BalanceOf()),
         Sum(db.buyers, (row: Buyer) => if row.status == Active then 1 else 0),
         Sum(db.posts, (p: Post) => if p.delivered then 1 else 0),
         Sum(db.posts, (p: Post) => if p.returned then 1 else 0),
         Sum(db.posts, KeptBid()),
         Sum(db.posts, DeliveredBid()),
         Sum(db.billing, ReturnedAmount()))
  }

  /** What each figure counts or adds up, row by row. */
  lemma KpisAreExact(db: Db)
    ensures var kpis := AdminKpis(db);
            && kpis.prepaid == Sum(db.buyers, (row: Buyer) => row.balance)
            && kpis.activeBuyers == Count(db.buyers, (row: Buyer) => row.status == Active)
            && kpis.sold == Count(db.posts, (p: Post) => p.delivered)
            && kpis.returned == Count(db.posts, (p: Post) => p.returned)
            && kpis.leadRevenue == Sum(db.posts, (p: Post) => if p.delivered && !p.returned then p.bid else 0)
            && kpis.grossRevenue == Sum(db.posts, (p: Post) => if p.delivered then p.bid else 0)
            && kpis.adjustments == Sum(db.billing, (e: BillingEvent) => if e.kind.LeadReturned? then e.amount else 0)
  {
    SumSame(db.buyers, BalanceOf(), (row: Buyer) => row.balance);
    SumIsCount(db.buyers, (row: Buyer) => if row.status == Active then 1 else 0, (row: Buyer) => row.status == Active);
    SumIsCount(db.posts, (p: Post) => if p.delivered then 1 else 0, (p: Post) => p.delivered);
    SumIsCount(db.posts, (p: Post) => if p.returned then 1 else 0, (p: Post) => p.returned);
    SumSame(db.posts, KeptBid(), (p: Post) => if p.delivered && !p.returned then p.bid else 0);
    SumSame(db.posts, DeliveredBid(), (p: Post) => if p.delivered then p.bid else 0);
    SumSame(db.billing, ReturnedAmount(), (e: BillingEvent) => if e.kind.LeadReturned? then e.amount else 0);
  }

  lemma {:induction false} AdjustmentsAreReturns(steps: seq<Step>)
    ensures Sum(Exec(START, steps).db.billing, ReturnedAmount()) == Sum(Exec(START, steps).db.posts, ReturnedBid())
  {
    if |steps| > 0 {
      ExecLast(START, steps);
      var front := steps[..|steps| - 1];
      var s, s' := Exec(START, front), Exec(START, steps);
      AdjustmentsAreReturns(front);
      AlwaysLinked(front);
      var e := StepEffect(s, steps[|steps| - 1]);
      SumBilling(s, s', e, ReturnedAmount());
      SumPosts(s, s', e, ReturnedBid());
    }
  }

  /** Gross revenue read from posts, less adjustments read from the billing log, is the revenue of kept posts. */
  lemma MarginIsLeadRevenue(steps: seq<Step>)
    ensures var kpis := AdminKpis(Exec(START, steps).db);
            kpis.grossRevenue - kpis.adjustments == kpis.leadRevenue
  {
    var s := Exec(START, steps);
    AdjustmentsAreReturns(steps);
    AlwaysLinked(steps);
    forall i | 0 <= i < |s.db.posts|
      ensures KeptBid()(s.db.posts[i]) == 1 * DeliveredBid()(s.db.posts[i]) + -1 * ReturnedBid()(s.db.posts[i])
    {
      assert PostLinked(s.db, s.db.posts[i]);
    }
    SumLinear(s.db.posts, KeptBid(), 1, DeliveredBid(), -1, ReturnedBid());
  }

  /** Cash movements of the first n buyers. */
  function CashOfFirst(n: nat): BillingEvent -> int {
    (e: BillingEvent) => if e.buyer < n && !e.kind.LeadPosted? then e.amount else 0
  }

  lemma {:induction false} BalancesOfFirst(s: Sys, n: nat)
    requires Conserved(s) && n <= |s.db.buyers|
    ensures Sum(s.db.buyers[..n], BalanceOf()) == Sum(s.db.billing, CashOfFirst(n))
  {
    if n == 0 {
      SumZero(s.db.billing, CashOfFirst(0));
    } else {
      BalancesOfFirst(s, n - 1);
      SumPrefix(s.db.buyers, n, BalanceOf());
      SumPrefix(s.db.buyers, n - 1, BalanceOf());
      SumLinear(s.db.billing, CashOfFirst(n), 1, CashOfFirst(n - 1), 1, Cash(n - 1));
    }
  }

  /** The bid of a deal, whoever made it. */
  function AnyBid(): Weight {
    (buyer: nat, lead: nat, bid: int) => bid
  }

  /** Money in equals money held, earned, or reserved: prepaid cash, revenue of kept leads and open
      reservations add up to all deposits; with nothing open, the first two do. */
  lemma PrepaidPlusRevenueIsDeposits(steps: seq<Step>)
    ensures var s := Exec(START, steps);
            var kpis := AdminKpis(s.db);
            && kpis.prepaid + kpis.leadRevenue +
                 Sum(s.runs, Outstanding(AnyBid())) == Sum(s.db.billing, DepositAmount())
            && (Quiescent(s) ==> kpis.prepaid + kpis.leadRevenue == Sum(s.db.billing, DepositAmount()))
  {
    var s := Exec(START, steps);
    AlwaysConserved(steps);
    AlwaysBalanced(steps, AnyBid());
    BalancesOfFirst(s, |s.db.buyers|);
    assert s.db.buyers[..|s.db.buyers|] == s.db.buyers;
    SumSame(s.db.posts, Kept(AnyBid()), KeptBid());
    forall i | 0 <= i < |s.db.billing|
      ensures Charged(AnyBid())(s.db.billing[i])
                == 1 * DepositAmount()(s.db.billing[i]) + -1 * CashOfFirst(|s.db.buyers|)(s.db.billing[i])
    {
      assert EventLinked(s.db, s.db.billing[i]);
    }
    SumLinear(s.db.billing, Charged(AnyBid()), 1, DepositAmount(), -1, CashOfFirst(|s.db.buyers|));
    if Quiescent(s) {
      SumZero(s.runs, Outstanding(AnyBid()));
    }
  }

  // ---------------------------------------------------------------- the buyer's daily report

  datatype DailyReport = DailyReport(delivered: int, grossSpend: int, returned: int, credits: int, capRemaining: int)

  function DeliveredSince(b: nat, day: nat, value: bool): Post -> int {
    (p: Post) => if p.buyer == b && p.delivered && p.at.day >= day then (if value then p.bid else 1) else 0
  }

  /** Of those the returned ones. */
  function ReturnedSince(b: nat, day: nat, value: bool): Post -> int {
    (p: Post) =>
      if p.buyer == b && p.delivered && p.returned && p.at.day >= day then (if value then p.bid else 1) else 0
  }

  function CreditedSince(b: nat, day: nat): BillingEvent -> int {
    (e: BillingEvent) => if e.buyer == b && e.kind.LeadReturned? && e.at.day >= day then e.amount else 0
  }

  function BuyerDailyReport(db: Db, b: nat, now: Stamp): DailyReport
    requires b < |db.buyers|
  {
    var delivered := Sum(db.posts, DeliveredSince(b, now.day, false));
    var remaining := db.buyers[b].dailyCap - delivered;
    DailyReport(delivered, Sum(db.posts, DeliveredSince(b, now.day, true)),
                Sum(db.posts, ReturnedSince(b, now.day, false)), Sum(db.billing, CreditedSince(b, now.day)),
                if remaining > 0 then remaining else 0)
  }

  /** What each column counts or adds up, and that the capacity shown is what the cap leaves. */
  lemma ReportIsExact(db: Db, b: nat, now: Stamp)
    requires b < |db.buyers|
    ensures var report := BuyerDailyReport(db, b, now);
            && report.delivered == Count(db.posts, (p: Post) => p.buyer == b && p.delivered && p.at.day >= now.day)
            && report.grossSpend == Sum(db.posts, (p: Post) =>
                 if p.buyer == b && p.delivered && p.at.day >= now.day then p.bid else 0)
            && report.returned == Count(db.posts, (p: Post) =>
                 p.buyer == b && p.delivered && p.returned && p.at.day >= now.day)
            && report.credits == Sum(db.billing, (e: BillingEvent) =>
                 if e.buyer == b && e.kind.LeadReturned? && e.at.day >= now.day then e.amount else 0)
            && report.capRemaining == if report.delivered <= db.buyers[b].dailyCap
                                      then db.buyers[b].dailyCap - report.delivered else 0
  {
    SumIsCount(db.posts, DeliveredSince(b, now.day, false),
      (p: Post) => p.buyer == b && p.delivered && p.at.day >= now.day);
    SumSame(db.posts, DeliveredSince(b, now.day, true),
      (p: Post) => if p.buyer == b && p.delivered && p.at.day >= now.day then p.bid else 0);
    SumIsCount(db.posts, ReturnedSince(b, now.day, false),
      (p: Post) => p.buyer == b && p.delivered && p.returned && p.at.day >= now.day);
    SumSame(db.billing, CreditedSince(b, now.day),
      (e: BillingEvent) => if e.buyer == b && e.kind.LeadReturned? && e.at.day >= now.day then e.amount else 0);
  }

  /** Sales to b since the start of the given day, as the daily report reads them from posts and as the
      cap check reads them from the billing log, are the same. */
  lemma ReportMatchesCapQuery(steps: seq<Step>, b: nat, day: nat)
    ensures var s := Exec(START, steps);
            Sum(s.db.posts, DeliveredSince(b, day, false)) == Sum(s.db.billing, UsedSince(Day, b, day))
  {
    var s := Exec(START, steps);
    var w: DatedWeight := (buyer: nat, lead: nat, bid: int, at: Stamp) => if buyer == b && at.day >= day then 1 else 0;
    AlwaysPostedMatches(steps, w);
    AlwaysLinked(steps);
    SumSame(s.db.posts, DeliveredSince(b, day, false), Delivered(w));
    forall i | 0 <= i < |s.db.billing| ensures UsedSince(Day, b, day)(s.db.billing[i]) == Posted(w)(s.db.billing[i]) {
      assert EventLinked(s.db, s.db.billing[i]);
    }
    SumSame(s.db.billing, UsedSince(Day, b, day), Posted(w));
  }

  /** Money posted to b since the start of the given day, as the billing log has it. */
  function PostedSince(b: nat, day: nat): BillingEvent -> int {
    (e: BillingEvent) => if e.buyer == b && e.kind.LeadPosted? && e.at.day >= day then e.amount else 0
  }

  /** The gross spend of the daily report, read from posts, is what the billing log posted. */
  lemma ReportSpendMatchesLog(steps: seq<Step>, b: nat, day: nat)
    ensures var s := Exec(START, steps);
            Sum(s.db.posts, DeliveredSince(b, day, true)) == Sum(s.db.billing, PostedSince(b, day))
  {
    var s := Exec(START, steps);
    var w: DatedWeight := (buyer: nat, lead: nat, bid: int, at: Stamp) =>
      if buyer == b && at.day >= day then bid else 0;
    AlwaysPostedMatches(steps, w);
    AlwaysLinked(steps);
    SumSame(s.db.posts, DeliveredSince(b, day, true), Delivered(w));
    forall i | 0 <= i < |s.db.billing| ensures PostedSince(b, day)(s.db.billing[i]) == Posted(w)(s.db.billing[i]) {
      assert EventLinked(s.db, s.db.billing[i]);
    }
    SumSame(s.db.billing, PostedSince(b, day), Posted(w));
  }

  /** The report shows sales remaining exactly when the auction's own daily cap check would let the buyer in. */
  lemma CapRemainingMeansEligible(steps: seq<Step>, b: nat)
    requires b < |Exec(START, steps).db.buyers|
    ensures var s := Exec(START, steps);
            BuyerDailyReport(s.db, b, s.now).capRemaining > 0 <==> WithinCap(s, b, s.db.buyers[b], Day)
  {
    ReportMatchesCapQuery(steps, b, Exec(START, steps).now.day);
  }

  /** Credits since the start of the day for sales of earlier days. */
  function LateCredits(posts: seq<Post>, b: nat, day: nat): BillingEvent -> int {
    (e: BillingEvent) =>
      if e.buyer == b && e.kind.LeadReturned? && e.at.day >= day && e.kind.post < |posts| &&
        posts[e.kind.post].at.day < day
      then e.amount else 0
  }

  /** The credits are the returned ones among the sales since the start of the day, and the late ones. */
  ghost predicate CreditsSplit(s: Sys, b: nat, day: nat) {
    Sum(s.db.billing, CreditedSince(b, day)) ==
      Sum(s.db.posts, ReturnedSince(b, day, true)) + Sum(s.db.billing, LateCredits(s.db.posts, b, day))
  }

  /** Which credits are late does not change when posts are added or returned. */
  lemma LateStaysLate(s: Sys, s': Sys, e: Effect, b: nat, day: nat)
    requires Linked(s) && Effected(s, s', e)
    ensures Sum(s'.db.billing, LateCredits(s'.db.posts, b, day)) ==
              Sum(s'.db.billing, LateCredits(s.db.posts, b, day))
  {
    var event := NewEvent(s, s', e);
    if e.Refunded? {
      assert RequestLinked(s.db, s.db.requests[e.q]);
    }
    forall i | 0 <= i < |s'.db.billing|
      ensures LateCredits(s'.db.posts, b, day)(s'.db.billing[i]) == LateCredits(s.db.posts, b, day)(s'.db.billing[i])
    {
      SumBilling(s, s', e, CreditedSince(b, day));
      if i < |s.db.billing| {
        assert EventLinked(s.db, s.db.billing[i]);
      }
    }
    SumSame(s'.db.billing, LateCredits(s'.db.posts, b, day), LateCredits(s.db.posts, b, day));
  }

  lemma CreditsSplitEffect(s: Sys, s': Sys, e: Effect, b: nat, day: nat)
    requires Linked(s) && CreditsSplit(s, b, day) && Effected(s, s', e)
    ensures CreditsSplit(s', b, day)
  {
    LateStaysLate(s, s', e, b, day);
    SumBilling(s, s', e, CreditedSince(b, day));
    SumBilling(s, s', e, LateCredits(s.db.posts, b, day));
    SumPosts(s, s', e, ReturnedSince(b, day, true));
    if e.Refunded? {
      assert RequestLinked(s.db, s.db.requests[e.q]);
      assert NotAfter(s.db.posts[s.db.requests[e.q].post].at, s.now);
    }
  }

  lemma {:induction false} AlwaysCreditsSplit(steps: seq<Step>, b: nat, day: nat)
    ensures CreditsSplit(Exec(START, steps), b, day)
  {
    if |steps| > 0 {
      ExecLast(START, steps);
      var front := steps[..|steps| - 1];
      AlwaysCreditsSplit(front, b, day);
      AlwaysLinked(front);
      var e := StepEffect(Exec(START, front), steps[|steps| - 1]);
      CreditsSplitEffect(Exec(START, front), Exec(START, steps), e, b, day);
    }
  }

  /** The credits of the daily report, read from the log, are the bids of today's returned sales, read from posts,
      and those of earlier sales that were returned today; no more sales are returned than were delivered. */
  lemma ReportCreditsSplit(steps: seq<Step>, b: nat)
    requires b < |Exec(START, steps).db.buyers|
    ensures var s := Exec(START, steps);
            var report := BuyerDailyReport(s.db, b, s.now);
            && report.credits == Sum(s.db.posts, ReturnedSince(b, s.now.day, true)) +
                 Sum(s.db.billing, LateCredits(s.db.posts, b, s.now.day))
            && 0 <= report.returned <= report.delivered
  {
    var s := Exec(START, steps);
    AlwaysCreditsSplit(steps, b, s.now.day);
    SumNonNegative(s.db.posts, ReturnedSince(b, s.now.day, false));
    SumAtMost(s.db.posts, ReturnedSince(b, s.now.day, false), DeliveredSince(b, s.now.day, false));
  }
}
