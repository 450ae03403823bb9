/** One lead, one sale: what holds when the runs of a lead do not overlap. */
module Serial {
  import opened Market
  import opened Saga
  import opened Links
  import opened Effects
  import opened Ledger
  import opened Laws
  import opened Deals
  import opened BidSigns
  import opened Sums

  /** 1 for each run of lead l still under way. */
  function LiveOf(l: nat): Run -> int {
    (run: Run) => if run.lead == l && !run.crashed && run.phase != Finished then 1 else 0
  }

  /** At no point are more than k runs of lead l under way; crashed runs may be retried. */
  ghost predicate AtMostLive(steps: seq<Step>, l: nat, k: nat) {
    forall j :: 0 <= j <= |steps| ==> Sum(Exec(START, steps[..j]).runs, LiveOf(l)) <= k
  }

  /** At no point are two runs of lead l under way. */
  ghost predicate AlwaysSerial(steps: seq<Step>, l: nat) {
    AtMostLive(steps, l, 1)
  }

  /** 1 for each delivered post of lead l. */
  function SaleOf(l: nat): Post -> int {
    (p: Post) => if p.delivered && p.lead == l then 1 else 0
  }

  lemma HasSaleCounts(db: Db, l: nat)
    ensures HasSale(db, l) <==> Sum(db.posts, SaleOf(l)) > 0
  {
    if HasSale(db, l) {
      var p :| 0 <= p < |db.posts| && db.posts[p].lead == l && db.posts[p].delivered;
      SumAtLeastTerms(db.posts, SaleOf(l), p, p);
    }
    if Sum(db.posts, SaleOf(l)) > 0 {
      var p := SumPositive(db.posts, SaleOf(l));
    }
  }

  ghost predicate SoldOnce(s: Sys, l: nat) {
    && Sum(s.db.posts, SaleOf(l)) <= 1
    && forall r :: 0 <= r < |s.runs| && s.runs[r].lead == l && !s.runs[r].crashed && PastCheck(s.runs[r].phase)
         ==> Sum(s.db.posts, SaleOf(l)) == 0
  }

  /** Storing a sale ends the only run of the lead that was past its check. */
  lemma SoldOnceSettled(s: Sys, s': Sys, r: nat, l: nat)
    requires SoldOnce(s, l) && Effected(s, s', Settled(r)) && Sum(s.runs, LiveOf(l)) <= 1
    ensures SoldOnce(s', l)
  {
    SumPosts(s, s', Settled(r), SaleOf(l));
    if s.runs[r].lead == l {
      forall i | 0 <= i < |s'.runs| && i != r && s'.runs[i].lead == l && !s'.runs[i].crashed &&
        PastCheck(s'.runs[i].phase)
        ensures Sum(s'.db.posts, SaleOf(l)) == 0
      {
        SumAtLeastTerms(s.runs, LiveOf(l), i, r);
      }
    }
  }

  lemma SoldOnceEffect(s: Sys, s': Sys, e: Effect, l: nat)
    requires SoldOnce(s, l) && Effected(s, s', e) && Sum(s.runs, LiveOf(l)) <= 1
    ensures SoldOnce(s', l)
  {
    if e.Settled? {
      SoldOnceSettled(s, s', e.r, l);
    } else {
      SumPosts(s, s', e, SaleOf(l));
      HasSaleCounts(s.db, l);
      SumNonNegative(s.db.posts, SaleOf(l));
    }
  }

  lemma {:induction false} AlwaysSoldOnce(steps: seq<Step>, l: nat)
    requires AlwaysSerial(steps, l)
    ensures SoldOnce(Exec(START, steps), l)
  {
    if |steps| > 0 {
      ExecLast(START, steps);
      var n := |steps| - 1;
      assert forall k :: 0 <= k <= n ==> steps[..n][..k] == steps[..k];
      AlwaysSoldOnce(steps[..n], l);
      var e := StepEffect(Exec(START, steps[..n]), steps[n]);
      SoldOnceEffect(Exec(START, steps[..n]), Exec(START, steps), e, l);
    }
  }

  // ---------------------------------------------------------------- what lead l was charged

  /** The bid of a deal, when the lead is l. */
  function BidFor(l: nat): Weight {
    (buyer: nat, lead: nat, bid: int) => if lead == l then bid else 0
  }

  /** What lead l has cost all its buyers together: debits less credits and refunds. */
  function NetCharge(s: Sys, l: nat): int {
    Sum(s.db.billing, Charged(BidFor(l)))
  }

  /** No run of lead l, crashed or not, holds a reservation. */
  predicate SettledFor(s: Sys, l: nat) {
    forall r :: 0 <= r < |s.runs| && s.runs[r].lead == l ==> !IsOpen(s.runs[r].phase)
  }

  /** 1 for each posted event of lead l. */
  function PostedOf(l: nat): BillingEvent -> int {
    (e: BillingEvent) => if e.kind.LeadPosted? && e.lead == Some(l) then 1 else 0
  }

  lemma SalesArePosted(steps: seq<Step>, l: nat)
    ensures Sum(Exec(START, steps).db.billing, PostedOf(l)) == Sum(Exec(START, steps).db.posts, SaleOf(l))
  {
    var s := Exec(START, steps);
    var w: DatedWeight := (buyer: nat, lead: nat, bid: int, at: Stamp) => if lead == l then 1 else 0;
    AlwaysPostedMatches(steps, w);
    SumSame(s.db.billing, PostedOf(l), Posted(w));
    SumSame(s.db.posts, SaleOf(l), Delivered(w));
  }

  /** A sum with a single non-zero term is that term. */
  lemma {:induction false} OnlySale(posts: seq<Post>, l: nat, p: nat, w: Weight)
    requires p < |posts| && posts[p].delivered && posts[p].lead == l && Sum(posts, SaleOf(l)) <= 1
    requires forall b, lead, bid :: lead != l ==> w(b, lead, bid) == 0
    ensures Sum(posts, Kept(w)) == Kept(w)(posts[p])
  {
    forall i | 0 <= i < |posts| && i != p ensures Kept(w)(posts[i]) == 0 {
      SumAtLeastTerms(posts, SaleOf(l), i, p);
    }
    SumUpdate(posts, p, posts[p].(delivered := false), Kept(w));
    SumZero(posts[p := posts[p].(delivered := false)], Kept(w));
  }

  /** What the reservations of lead l that are neither settled nor credited add up to. */
  function Unsettled(s: Sys, l: nat): int {
    Sum(s.runs, Outstanding(BidFor(l)))
  }

  /** What the buyers of lead l together owe for its sales: the bid of a sale that was not returned. */
  function PriceOf(db: Db, l: nat): int {
    Sum(db.posts, Kept(BidFor(l)))
  }

  /** When the runs of a lead never overlap it is sold at most once, its price is the bid of that sale unless it was
      returned, and its buyers together have paid exactly that price and its unsettled reservations. */
  lemma SerialLeadPaysOnce(steps: seq<Step>, l: nat)
    requires AlwaysSerial(steps, l)
    ensures var s := Exec(START, steps);
            && Sum(s.db.posts, SaleOf(l)) <= 1
            && Sum(s.db.billing, PostedOf(l)) <= 1
            && NetCharge(s, l) == PriceOf(s.db, l) + Unsettled(s, l)
            && (!HasSale(s.db, l) ==> PriceOf(s.db, l) == 0)
            && forall p :: 0 <= p < |s.db.posts| && s.db.posts[p].lead == l && s.db.posts[p].delivered
                 ==> PriceOf(s.db, l) == if s.db.posts[p].returned then 0 else s.db.posts[p].bid
  {
    var s := Exec(START, steps);
    AlwaysSoldOnce(steps, l);
    SalesArePosted(steps, l);
    AlwaysBalanced(steps, BidFor(l));
    if !HasSale(s.db, l) {
      SumZero(s.db.posts, Kept(BidFor(l)));
    }
    forall p | 0 <= p < |s.db.posts| && s.db.posts[p].lead == l && s.db.posts[p].delivered
      ensures PriceOf(s.db, l) == if s.db.posts[p].returned then 0 else s.db.posts[p].bid
    {
      OnlySale(s.db.posts, l, p, BidFor(l));
    }
  }

  /** A lead has been charged exactly its price if and only if its unsettled reservations cancel out, and when the
      bids in play do not mix signs that means: if and only if it has none. Runs may overlap here. */
  lemma ChargedPriceIffSettled(steps: seq<Step>, l: nat, bids: int -> bool)
    requires HistoryBids(steps, AnyBuyer(bids))
    ensures var s := Exec(START, steps);
            && (NetCharge(s, l) == PriceOf(s.db, l) <==> Unsettled(s, l) == 0)
            && (OneSign(bids) ==> (NetCharge(s, l) == PriceOf(s.db, l) <==> SettledFor(s, l)))
  {
    var s := Exec(START, steps);
    AlwaysBalanced(steps, BidFor(l));
    if SettledFor(s, l) {
      SumZero(s.runs, Outstanding(BidFor(l)));
    } else if OneSign(bids) {
      var r :| 0 <= r < |s.runs| && s.runs[r].lead == l && IsOpen(s.runs[r].phase);
      AlwaysLinked(steps);
      AlwaysDeals(steps, AnyBuyer(bids));
      OneSignedSum(s, l, bids, r);
    }
  }

  /** Open reservations of one sign do not cancel out. */
  lemma OneSignedSum(s: Sys, l: nat, bids: int -> bool, r: nat)
    requires Linked(s) && DealsSatisfy(s, AnyBuyer(bids)) && OneSign(bids)
    requires r < |s.runs| && s.runs[r].lead == l && IsOpen(s.runs[r].phase)
    ensures Unsettled(s, l) != 0
  {
    var f := Outstanding(BidFor(l));
    var sign := if forall bid :: bids(bid) ==> bid >= 0 then 1 else -1;
    var g := (run: Run) => sign * f(run);
    forall i | 0 <= i < |s.runs| ensures g(s.runs[i]) >= 0 && (i == r ==> g(s.runs[i]) > 0) {
      assert RunLinked(s.db, s.runs[i]);
      if IsOpen(s.runs[i].phase) {
        assert bids(DealOf(s.runs[i].phase).value.1);
      }
    }
    SumLinear(s.runs, g, sign, f, 0, f);
    SumAtLeastTerms(s.runs, g, r, r);
  }

  // ---------------------------------------------------------------- messages

  /** 1 for the one deal of buyer b, lead l and the given bid. */
  function DealIs(b: nat, l: nat, bid: int): Weight {
    (buyer: nat, lead: nat, offer: int) => if buyer == b && lead == l && offer == bid then 1 else 0
  }

  /** A lead goes to a buyer under a bid at most as often as that very bid was reserved in the buyer's wallet. */
  lemma EverySendWasReserved(steps: seq<Step>, b: nat, l: nat, bid: int)
    ensures var s := Exec(START, steps);
            Sum(s.outbox, SentDeals(DealIs(b, l, bid))) <= Sum(s.db.billing, ReservedEvents(DealIs(b, l, bid)))
  {
    AlwaysSentWasReserved(steps, DealIs(b, l, bid));
    SumNonNegative(Exec(START, steps).runs, Unsent(DealIs(b, l, bid)));
  }

  // ---------------------------------------------------------------- after a sale

  lemma SaleStays(s: Sys, step: Step, l: nat)
    requires HasSale(s.db, l)
    ensures HasSale(Apply(s, step).db, l)
  {
    var e := StepEffect(s, step);
    SumPosts(s, Apply(s, step), e, SaleOf(l));
    SumNonNegative(s.db.posts, SaleOf(l));
    HasSaleCounts(s.db, l);
    HasSaleCounts(Apply(s, step).db, l);
  }

  /** Runs of lead l from number n on have gone nowhere past the check for an earlier sale. */
  ghost predicate IdleFrom(s: Sys, n: nat, l: nat) {
    && n <= |s.runs|
    && forall r :: n <= r < |s.runs| && s.runs[r].lead == l
         ==> s.runs[r].phase.Opened? || s.runs[r].phase.Barred? || s.runs[r].phase.Finished?
  }

  lemma IdleStep(s: Sys, step: Step, n: nat, l: nat)
    requires HasSale(s.db, l) && IdleFrom(s, n, l)
    ensures IdleFrom(Apply(s, step), n, l)
  {
    var e := StepEffect(s, step);
    assert Effected(s, Apply(s, step), e);
  }

  lemma {:induction false} StaysIdle(s: Sys, steps: seq<Step>, l: nat)
    requires HasSale(s.db, l)
    ensures HasSale(Exec(s, steps).db, l) && IdleFrom(Exec(s, steps), |s.runs|, l)
  {
    if |steps| > 0 {
      ExecLast(s, steps);
      StaysIdle(s, steps[..|steps| - 1], l);
      SaleStays(Exec(s, steps[..|steps| - 1]), steps[|steps| - 1], l);
      IdleStep(Exec(s, steps[..|steps| - 1]), steps[|steps| - 1], |s.runs|, l);
    }
  }

  /** A run started after its lead was sold never touches a wallet, a post, a return, the billing log
      or a buyer, whatever else happens around it. */
  lemma RunAfterSaleChangesNoMoney(before: seq<Step>, after: seq<Step>, r: nat, move: Move)
    requires |Exec(START, before).runs| <= r < |Exec(START, before + after).runs|
    requires HasSale(Exec(START, before).db, Exec(START, before + after).runs[r].lead)
    ensures SameMoney(Exec(START, before + after), Apply(Exec(START, before + after), RunMoved(r, move)))
  {
    var s := Exec(START, before + after);
    ExecConcat(START, before, after);
    StaysIdle(Exec(START, before), after, s.runs[r].lead);
  }
}
