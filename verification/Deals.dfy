/** Every bid a run or a post carries came out of a reply some buyer gave, so what holds of all bids in a history
    holds of all deals in its tables. */
module Deals {
  import opened Market
  import opened Bidding
  import opened Saga
  import opened Links

  /** Every accepted bid in the replies of a history satisfies p, which sees the buyer and the bid. */
  predicate StepBids(step: Step, p: (nat, int) -> bool) {
    step.RunMoved? && step.move.ReceiveBids? ==>
      forall i :: 0 <= i < |step.move.replies| && step.move.replies[i].accepted
        ==> p(step.move.replies[i].buyer, BidOf(step.move.replies[i]))
  }

  predicate HistoryBids(steps: seq<Step>, p: (nat, int) -> bool) {
    forall i :: 0 <= i < |steps| ==> StepBids(steps[i], p)
  }

  ghost predicate DealsSatisfy(s: Sys, p: (nat, int) -> bool) {
    && (forall i :: 0 <= i < |s.runs| && DealOf(s.runs[i].phase).Some? ==>
          p(DealOf(s.runs[i].phase).value.0, DealOf(s.runs[i].phase).value.1))
    && (forall i :: 0 <= i < |s.db.posts| ==> p(s.db.posts[i].buyer, s.db.posts[i].bid))
  }

  lemma WinnerBid(replies: seq<PingResponse>, eligible: map<nat, Buyer>, p: (nat, int) -> bool)
    requires FromPinged(replies, eligible)
    requires forall i :: 0 <= i < |replies| && replies[i].accepted ==> p(replies[i].buyer, BidOf(replies[i]))
    ensures var winner := PickWinner(replies, eligible);
            winner.Some? ==> p(winner.value.buyer, BidOf(winner.value))
  {
    var w := PickedIsWinner(replies, eligible);
  }

  /** A move keeps the run's deal, drops it, or settles on the winner of the replies. */
  lemma MoveDeal(s: Sys, r: nat, move: Move)
    requires r < |s.runs|
    ensures var s' := ApplyMove(s, r, move);
            && |s'.runs| == |s.runs| && (forall i :: 0 <= i < |s.runs| && i != r ==> s'.runs[i] == s.runs[i])
            && (DealOf(s'.runs[r].phase).Some? ==>
                  || DealOf(s'.runs[r].phase) == DealOf(s.runs[r].phase)
                  || (&& move.ReceiveBids? && FromPinged(move.replies, s.runs[r].eligible)
                      && var winner := PickWinner(move.replies, s.runs[r].eligible);
                         winner.Some? && DealOf(s'.runs[r].phase) == Some((winner.value.buyer, BidOf(winner.value)))))
            && (s'.db.posts != s.db.posts ==>
                  && DealOf(s.runs[r].phase).Some? && |s'.db.posts| == |s.db.posts| + 1 && s.db.posts <= s'.db.posts
                  && var post := s'.db.posts[|s.db.posts|]; DealOf(s.runs[r].phase) == Some((post.buyer, post.bid)))
  {
    hide PickWinner, FromPinged, HasSale, HasDeliveryKey, WithinCap, CanReserve;
  }

  lemma DealsStep(s: Sys, step: Step, p: (nat, int) -> bool)
    requires DealsSatisfy(s, p) && StepBids(step, p)
    ensures DealsSatisfy(Apply(s, step), p)
  {
    if step.RunMoved? && step.r < |s.runs| {
      MoveDeal(s, step.r, step.move);
      if step.move.ReceiveBids? && FromPinged(step.move.replies, s.runs[step.r].eligible) {
        WinnerBid(step.move.replies, s.runs[step.r].eligible, p);
      }
    } else {
      OutsideDeals(s, step, p);
    }
  }

  lemma OutsideDeals(s: Sys, step: Step, p: (nat, int) -> bool)
    requires DealsSatisfy(s, p) && (step.RunMoved? ==> step.r >= |s.runs|)
    ensures DealsSatisfy(Apply(s, step), p)
  {
    var s' := Apply(s, step);
    assert |s'.db.posts| == |s.db.posts|;
    forall i | 0 <= i < |s'.db.posts|
      ensures s'.db.posts[i].bid == s.db.posts[i].bid && s'.db.posts[i].buyer == s.db.posts[i].buyer
    {
    }
  }

  lemma {:induction false} AlwaysDeals(steps: seq<Step>, p: (nat, int) -> bool)
    requires HistoryBids(steps, p)
    ensures DealsSatisfy(Exec(START, steps), p)
  {
    if |steps| > 0 {
      ExecLast(START, steps);
      AlwaysDeals(steps[..|steps| - 1], p);
      DealsStep(Exec(START, steps[..|steps| - 1]), steps[|steps| - 1], p);
    }
  }
}
