/** The ping-post service: the transactions as methods over the tables, and a whole auction run. */
module PingPost {
  import opened Market
  import opened Bidding
  import opened Saga
  import opened Links
  import opened Delivery
  import opened Scripts
  import Sums

  /** Buyer b is active and funded, its filters accept the lead, and its caps have room. */
  predicate Eligible(db: Db, now: Stamp, accepted: set<nat>, b: nat) {
    && b < |db.buyers| && db.buyers[b].status == Active && db.buyers[b].balance > 0 && b in accepted
    && WithinCap(Sys(db, [], [], now), b, db.buyers[b], Day)
    && WithinCap(Sys(db, [], [], now), b, db.buyers[b], Month)
  }

  lemma EligibleIsExact(db: Db, now: Stamp, accepted: set<nat>, b: nat)
    ensures Eligible(db, now, accepted, b) <==>
              && b < |db.buyers| && db.buyers[b].status == Active && db.buyers[b].balance > 0 && b in accepted
              && SalesSince(db.billing, b, now.day) < db.buyers[b].dailyCap
              && SpentSince(db.billing, b, now.month) < db.buyers[b].monthlyBudget
  {
    CapsAreExact(db.billing, b, now);
  }

  /** The eligible ones among the first n buyers, with their rows. */
  function EligibleOfFirst(db: Db, now: Stamp, accepted: set<nat>, n: nat): map<nat, Buyer>
    requires n <= |db.buyers|
  {
    map b: nat | 0 <= b < n && Eligible(db, now, accepted, b) :: db.buyers[b]
  }

  lemma ScreeningEnds(db: Db, now: Stamp, accepted: set<nat>)
    ensures EligibleOfFirst(db, now, accepted, 0) == map[]
    ensures LoadedFrom(db, |db.buyers|) == map[]
  {
  }

  lemma EligibleStep(db: Db, now: Stamp, accepted: set<nat>, n: nat)
    requires n < |db.buyers|
    ensures EligibleOfFirst(db, now, accepted, n + 1) ==
              if Eligible(db, now, accepted, n) then EligibleOfFirst(db, now, accepted, n)[n := db.buyers[n]]
              else EligibleOfFirst(db, now, accepted, n)
  {
  }

  /** The loaded buyers from number n on. */
  function LoadedFrom(db: Db, n: nat): map<nat, Buyer> {
    map b: nat | n <= b < |db.buyers| && db.buyers[b].status == Active && db.buyers[b].balance > 0 :: db.buyers[b]
  }

  lemma LoadedStep(db: Db, n: nat)
    requires n < |db.buyers|
    ensures LoadedFrom(db, n) - {n} == LoadedFrom(db, n + 1)
    ensures n !in LoadedFrom(db, n) ==> LoadedFrom(db, n) == LoadedFrom(db, n + 1)
  {
  }

  /** The deal the replies lead to: the picked winner's, unless the very deal was tried before. */
  function DealOfReplies(db: Db, l: nat, eligible: map<nat, Buyer>, replies: seq<PingResponse>): Option<(nat, int)>
    requires FromPinged(replies, eligible)
  {
    var picked := PickWinner(replies, eligible);
    if picked.None? || HasDeliveryKey(db, l, picked.value.buyer, BidOf(picked.value)) then None
    else Some((picked.value.buyer, BidOf(picked.value)))
  }

  /** What the buyers reply to a ping of each of them. */
  type Bidders = bidders: map<nat, Buyer> -> seq<PingResponse> | forall pinged :: FromPinged(bidders(pinged), pinged)
    witness (pinged: map<nat, Buyer>) => []

  /** The deal an undisturbed auction of lead l comes to, if any. */
  function DealFor(db: Db, now: Stamp, l: nat, accepted: set<nat>, bidders: Bidders): Option<(nat, int)> {
    var eligible := EligibleOfFirst(db, now, accepted, |db.buyers|);
    if eligible == map[] then None else DealOfReplies(db, l, eligible, bidders(eligible))
  }

  lemma DealIsNew(db: Db, l: nat, eligible: map<nat, Buyer>, replies: seq<PingResponse>)
    requires FromPinged(replies, eligible)
    ensures var deal := DealOfReplies(db, l, eligible, replies);
            deal.Some? ==> !HasDeliveryKey(db, l, deal.value.0, deal.value.1) && deal.value.0 in eligible
  {
    WinnerWasPinged(replies, eligible);
  }

  /** The buyer takes the lead at the attempt where the delivery loop stops. */
  predicate Succeeds(script: nat -> Reply, maxAttempts: nat)
    requires maxAttempts >= 1
  {
    IsSuccess(script(StopsAt(script, 1, maxAttempts)))
  }

  /** In an undisturbed auction the debit of the deal goes through. */
  lemma DealIsAffordable(db: Db, now: Stamp, l: nat, accepted: set<nat>, bidders: Bidders)
    ensures var deal := DealFor(db, now, l, accepted, bidders);
            deal.Some? ==> CanReserve(db, deal.value.0, deal.value.1)
  {
    var eligible := EligibleOfFirst(db, now, accepted, |db.buyers|);
    var w := PickedIsWinner(bidders(eligible), eligible);
  }

  /** The deal is the best offer: the bidders asked are exactly the eligible buyers, the deal is a bid one of them
      accepted to pay and can pay, and no such bid is higher. */
  lemma DealIsHighestBid(db: Db, now: Stamp, l: nat, accepted: set<nat>, bidders: Bidders)
    ensures var eligible := EligibleOfFirst(db, now, accepted, |db.buyers|);
            var rs := bidders(eligible);
            && (forall b: nat :: b in eligible <==> b < |db.buyers| && Eligible(db, now, accepted, b))
            && (forall b: nat :: b in eligible ==> eligible[b] == db.buyers[b])
            && match DealFor(db, now, l, accepted, bidders)
               case Some((b, bid)) =>
                 && (exists i :: Qualifies(rs, eligible, i) && rs[i].buyer == b && rs[i].bid == Some(bid))
                 && (forall j :: Qualifies(rs, eligible, j) ==> rs[j].bid.value <= bid)
                 && !HasDeliveryKey(db, l, b, bid)
               case None =>
                 || eligible == map[] || (forall j :: 0 <= j < |rs| ==> !Qualifies(rs, eligible, j))
                 || exists i :: HighestBid(rs, eligible, i) && HasDeliveryKey(db, l, rs[i].buyer, rs[i].bid.value)
  {
    var eligible := EligibleOfFirst(db, now, accepted, |db.buyers|);
    var rs := bidders(eligible);
    HighestBidWins(rs, eligible);
    hide Eligible, HasDeliveryKey, PickWinner;
    if PickWinner(rs, eligible).Some? {
      var i :| HighestBid(rs, eligible, i);
      assert PickWinner(rs, eligible) == Some(rs[i]);
    }
  }

  /** The status an undisturbed auction leaves: sold or unsold when a deal was made, unsold when bids were
      asked for and none qualified, and otherwise what it was. */
  function StatusAfter(db: Db, now: Stamp, l: nat, accepted: set<nat>, bidders: Bidders, ok: bool): LeadStatus
    requires l < |db.leads|
  {
    var eligible := EligibleOfFirst(db, now, accepted, |db.buyers|);
    if DealFor(db, now, l, accepted, bidders).Some? then (if ok then Sold else LeadStatus.Unsold)
    else if eligible != map[] && PickWinner(bidders(eligible), eligible).None? then LeadStatus.Unsold
    else db.leads[l].status
  }

  /** What an undisturbed auction of lead l, let in and not sold yet, does to the tables. Without a deal no money
      table changes. A deal stores one post, delivered as the last reply of the buyer says, and the buyer is
      charged the bid exactly for a delivery. The deal is reported as the winner either way. */
  predicate Auctioned(before: Db, after: Db, now: Stamp, l: nat, accepted: set<nat>, bidders: Bidders, ok: bool,
                      winner: Option<(nat, int)>)
    requires l < |before.leads|
  {
    && winner == DealFor(before, now, l, accepted, bidders)
    && after.requests == before.requests
    && after.leads == before.leads[l := Marked(before.leads[l], StatusAfter(before, now, l, accepted, bidders, ok))]
    && match winner
       case None => after.posts == before.posts && after.buyers == before.buyers && after.billing == before.billing
       case Some((b, bid)) =>
         && b < |before.buyers|
         && after.posts == before.posts + [Post(l, b, bid, ok, false, now)]
         && after.buyers == (if ok then before.buyers[b := Charged(before.buyers[b], bid)] else before.buyers)
         && after.billing == before.billing +
              [BillingEvent(b, Some(l), LeadReserved, -bid, now), OutcomeRow(b, l, bid, ok, now)]
  }

  /** The run reports a winner of a lead that nobody bought. */
  predicate ReportedUnsold(after: Db, l: nat, winner: Option<(nat, int)>) {
    winner.Some? && !HasSale(after, l)
  }

  lemma FailureReportedAsWinner(before: Db, after: Db, now: Stamp, l: nat, accepted: set<nat>, bidders: Bidders,
                                ok: bool, winner: Option<(nat, int)>)
    requires l < |before.leads| && !HasSale(before, l)
    requires Auctioned(before, after, now, l, accepted, bidders, ok, winner)
    ensures ReportedUnsold(after, l, winner) <==> DealFor(before, now, l, accepted, bidders).Some? && !ok
  {
    hide DealFor;
    if winner.Some? && ok {
      assert after.posts[|before.posts|] == Post(l, winner.value.0, winner.value.1, true, false, now);
    }
  }

  /** The billing row that follows a debit: a sale, or the credit of a failure. */
  function OutcomeRow(b: nat, l: nat, bid: int, ok: bool, now: Stamp): BillingEvent {
    BillingEvent(b, Some(l), if ok then LeadPosted else DeliveryFailedCredit, bid, now)
  }

  /** The routing thresholds when none are configured. */
  const AB_MIN := 0.8
  const HOLD_MIN := 0.6

  class Service {
    var buyers: seq<Buyer>
    var leads: seq<Lead>
    var posts: seq<Post>
    var requests: seq<ReturnRequest>
    var billing: seq<BillingEvent>
    var now: Stamp
    ghost var runs: seq<Run>
    ghost var outbox: seq<Sent>

    function Tables(): Db
      reads this
    {
      Db(buyers, leads, posts, requests, billing)
    }

    /** The state of the step machine this service is in. */
    ghost function State(): Sys
      reads this
    {
      Sys(Tables(), runs, outbox, now)
    }

    constructor ()
      ensures State() == START
    {
      buyers, leads, posts, requests, billing := [], [], [], [], [];
      now := Stamp(0, 0, 0);
      runs, outbox := [], [];
    }

    // -------------------------------------------------------------- endpoints

    method CreateBuyer(deposit: nat, cap: nat, budget: nat) returns (id: nat)
      requires cap >= 1
      modifies this
      ensures State() == Apply(old(State()), BuyerCreated(deposit, cap, budget))
      ensures id == |old(buyers)|
      ensures Tables() == old(Tables()).(
                buyers := old(buyers) + [Buyer(PendingVerification, deposit, 0, cap, budget)],
                billing := old(billing) +
                  if deposit > 0 then [BillingEvent(|old(buyers)|, None, DepositAdded, deposit, now)] else [])
    {
      id := |buyers|;
      buyers := buyers + [Buyer(PendingVerification, deposit, 0, cap, budget)];
      if deposit > 0 {
        billing := billing + [BillingEvent(id, None, DepositAdded, deposit, now)];
      }
    }

    method AddDeposit(b: nat, amount: nat) returns (balance: Result<int>)
      requires amount > 0
      modifies this
      ensures State() == Apply(old(State()), DepositMade(b, amount))
      ensures b >= |old(buyers)| ==> balance == Err(NotFound)
      ensures b < |old(buyers)| ==> balance == Ok(old(buyers[b].balance) + amount)
      ensures Tables() == if b >= |old(buyers)| then old(Tables()) else old(Tables()).(
                buyers := old(buyers)[b := old(buyers[b]).(balance := old(buyers[b].balance) + amount)],
                billing := old(billing) + [BillingEvent(b, None, DepositAdded, amount, now)])
    {
      if b >= |buyers| {
        return Err(NotFound);
      }
      buyers := buyers[b := buyers[b].(balance := buyers[b].balance + amount)];
      billing := billing + [BillingEvent(b, None, DepositAdded, amount, now)];
      balance := Ok(buyers[b].balance);
    }

    method ReviewLead(l: nat, action: ReviewAction) returns (hold: Result<bool>)
      modifies this
      ensures State() == Apply(old(State()), LeadReviewed(l, action))
      ensures hold == if l < |old(leads)| then Ok(action != ApproveLead) else Err(NotFound)
      ensures Tables() == if l >= |old(leads)| then old(Tables()) else old(Tables()).(
                leads := old(leads)[l := old(leads[l]).(hold := action != ApproveLead)])
    {
      if l >= |leads| {
        return Err(NotFound);
      }
      var row := leads[l];
      if action == HoldLead || action == ReviewOnly {
        row := row.(hold := true);
      }
      if action == ApproveLead {
        row := row.(hold := false);
      }
      leads := leads[l := row];
      hold := Ok(row.hold);
    }

    /** The delivered post of lead l with the latest creation time, if any. */
    method LatestSale(l: nat) returns (p: Option<nat>)
      ensures p.None? <==> !HasSale(Tables(), l)
      ensures p.Some? ==> IsLatestSale(Tables(), l, p.value)
      ensures p.None? <==> forall q :: 0 <= q < |posts| ==> posts[q].lead != l || !posts[q].delivered
      ensures p.Some? ==>
                && p.value < |posts| && posts[p.value].lead == l && posts[p.value].delivered
                && forall q :: 0 <= q < |posts| && posts[q].lead == l && posts[q].delivered
                     ==> posts[q].at.tick <= posts[p.value].at.tick
    {
      p := None;
      for i := 0 to |posts|
        invariant p.None? <==> forall q :: 0 <= q < i ==> !(posts[q].lead == l && posts[q].delivered)
        invariant p.Some? ==>
                    && p.value < i && posts[p.value].lead == l && posts[p.value].delivered
                    && forall q :: 0 <= q < i && posts[q].lead == l && posts[q].delivered
                         ==> posts[q].at.tick <= posts[p.value].at.tick
      {
        if posts[i].lead == l && posts[i].delivered && (p.None? || posts[i].at.tick >= posts[p.value].at.tick) {
          p := Some(i);
        }
      }
    }

    method ReturnLead(l: nat) returns (request: Result<nat>)
      modifies this
      ensures !HasSale(old(Tables()), l) ==> request == Err(NotFound) && State() == old(State())
      ensures HasSale(old(Tables()), l) ==>
                exists p: nat :: IsLatestSale(old(Tables()), l, p)
                  && State() == Apply(old(State()), ReturnOpened(l, p))
                  && request == (match OpenReturn(old(Tables()), l, p)
                                 case Ok(_) => Ok(|old(requests)|)
                                 case Err(error) => Err(error))
      ensures request.Err? ==> Tables() == old(Tables())
      ensures request.Ok? ==>
                exists p: nat ::
                  && p < |old(posts)| && old(posts)[p].lead == l && old(posts)[p].delivered && !old(posts)[p].returned
                  && (forall q :: 0 <= q < |old(requests)| && old(requests)[q].post == p ==>
                        old(requests)[q].status in {Approved, Declined})
                  && request == Ok(|old(requests)|)
                  && Tables() == old(Tables()).(
                       requests := old(requests) + [ReturnRequest(p, l, old(posts)[p].buyer, PendingReview)])
    {
      var sale := LatestSale(l);
      if sale.None? {
        return Err(NotFound);
      }
      var p := sale.value;
      if posts[p].buyer >= |buyers| {
        return Err(NotFound);
      }
      if posts[p].returned {
        return Err(Conflict);
      }
      var active := HasActiveReturn(Tables(), p);
      if active {
        return Err(Conflict);
      }
      request := Ok(|requests|);
      requests := requests + [ReturnRequest(p, l, posts[p].buyer, PendingReview)];
    }

    method ReviewReturnRequest(q: nat, decision: Decision) returns (credited: Result<int>)
      modifies this
      ensures State() == Apply(old(State()), ReturnReviewed(q, decision))
      ensures match ReviewReturn(old(Tables()), q, decision, now)
              case Ok(_) => credited == Ok(if decision == Approve then old(posts[requests[q].post].bid) else 0)
              case Err(error) => credited == Err(error)
      ensures q >= |old(requests)| ==> credited == Err(NotFound)
      ensures q < |old(requests)| && old(requests[q]).status in {Approved, Declined} ==> credited == Err(Conflict)
      ensures credited.Err? ==> Tables() == old(Tables())
      ensures credited.Ok? && decision != Approve ==>
                credited == Ok(0) && Tables() == old(Tables()).(
                  requests := old(requests)[q :=
                    old(requests[q]).(status := if decision == Hold then Held else Declined)])
      ensures credited.Ok? && decision == Approve ==>
                var request := old(requests[q]);
                && request.post < |old(posts)| && request.buyer < |old(buyers)| && !old(posts)[request.post].returned
                && var bid, row := old(posts)[request.post].bid, old(buyers)[request.buyer];
                   && credited == Ok(bid)
                   && Tables() == old(Tables()).(
                        buyers := old(buyers)[request.buyer :=
                          row.(balance := row.balance + bid, spend := row.spend - bid)],
                        posts := old(posts)[request.post := old(posts)[request.post].(returned := true)],
                        requests := old(requests)[q := request.(status := Approved)],
                        billing := old(billing) + [BillingEvent(request.buyer, Some(request.lead),
                          LeadReturned(request.post), bid, now)])
    {
      if q >= |requests| {
        return Err(NotFound);
      }
      var request := requests[q];
      if request.status == Approved || request.status == Declined {
        return Err(Conflict);
      }
      if request.post >= |posts| || request.buyer >= |buyers| {
        return Err(NotFound);
      }
      if decision == Hold {
        requests := requests[q := request.(status := Held)];
        return Ok(0);
      } else if decision == Reject {
        requests := requests[q := request.(status := Declined)];
        return Ok(0);
      }
      var post := posts[request.post];
      if post.returned {
        return Err(Conflict);
      }
      var row := buyers[request.buyer];
      row := row.(balance := row.balance + post.bid);
      row := row.(spend := row.spend - post.bid);
      buyers := buyers[request.buyer := row];
      posts := posts[request.post := post.(returned := true)];
      requests := requests[q := request.(status := Approved)];
      billing := billing + [BillingEvent(request.buyer, Some(request.lead), LeadReturned(request.post), post.bid, now)];
      credited := Ok(post.bid);
    }

    // -------------------------------------------------------------- an auction run

    /** Run r has just been started or moved; every other run is as it was in s. */
    ghost predicate OnlyRun(s: Sys, r: nat)
      reads this
    {
      && r < |s.runs| && |runs| == |s.runs| && runs[r].lead == s.runs[r].lead && now == s.now
      && forall i :: 0 <= i < |runs| && i != r ==> runs[i] == s.runs[i]
    }

    /** Moves of run r that only change the run itself or the messages sent. */
    ghost method Mark(r: nat, move: Move)
      requires r < |runs| && !runs[r].crashed && ApplyMove(State(), r, move).db == Tables()
      modifies this`runs, this`outbox
      ensures State() == Apply(old(State()), RunMoved(r, move))
      ensures Tables() == old(Tables()) && OnlyRun(old(State()), r)
    {
      var next := ApplyMove(State(), r, move);
      runs, outbox := next.runs, next.outbox;
    }

    method PersistUnauctionableLead(ghost r: nat, l: nat, reason: GateReason, leadClass: Option<LeadClass>)
      requires r < |runs| && !runs[r].crashed && runs[r].phase == Barred(reason)
      requires runs[r].lead == l && runs[r].leadClass == leadClass
      modifies this`leads, this`runs
      ensures State() == Apply(old(State()), RunMoved(r, StoreBarred))
      ensures OnlyRun(old(State()), r) && runs[r].phase == Finished
      ensures Tables() == PersistUnauctionable(old(Tables()), l, reason, leadClass)
      ensures Tables() == if l >= |old(leads)| then old(Tables()) else old(Tables()).(
                leads := old(leads)[l :=
                  if reason == BlockedForFraud || leadClass == Some(D) then old(leads[l]).(status := Rejected)
                  else if reason in {ClassRequiresReview, BelowHold, HeldForReview} then old(leads[l]).(hold := true)
                  else old(leads[l])])
    {
      runs := runs[r := runs[r].(phase := Finished)];
      if l >= |leads| {
        return;
      }
      var row := leads[l];
      if reason == BlockedForFraud || leadClass == Some(D) {
        leads := leads[l := row.(status := Rejected)];
        return;
      }
      if reason == ClassRequiresReview || reason == BelowHold || reason == HeldForReview {
        leads := leads[l := row.(hold := true)];
      }
    }

    method BuyerWithinCaps(b: nat, row: Buyer) returns (ok: bool)
      ensures ok == (WithinCap(State(), b, row, Day) && WithinCap(State(), b, row, Month))
      ensures ok <==>
                && SalesSince(billing, b, now.day) < row.dailyCap
                && SpentSince(billing, b, now.month) < row.monthlyBudget
    {
      var dayCount, monthSpend := 0, 0;
      CapsAreExact(billing, b, now);
      for i := 0 to |billing|
        invariant dayCount == Sums.Sum(billing[..i], UsedSince(Day, b, now.day))
        invariant monthSpend == Sums.Sum(billing[..i], UsedSince(Month, b, now.month))
      {
        var e := billing[i];
        assert billing[..i + 1] == billing[..i] + [e];
        Sums.SumAppend(billing[..i], e, UsedSince(Day, b, now.day));
        Sums.SumAppend(billing[..i], e, UsedSince(Month, b, now.month));
        if e.buyer == b && e.kind == LeadPosted {
          if e.at.day >= now.day {
            dayCount := dayCount + 1;
          }
          if e.at.month >= now.month {
            monthSpend := monthSpend + e.amount;
          }
        }
      }
      assert billing[..|billing|] == billing;
      if dayCount >= row.dailyCap {
        return false;
      }
      ok := monthSpend < row.monthlyBudget;
    }

    /** Decide one of the loaded buyers. */
    method ScreenOne(ghost r: nat, b: nat, ghost pending: map<nat, Buyer>, accepted: set<nat>,
                     eligible: map<nat, Buyer>)
      returns (eligible': map<nat, Buyer>)
      requires r < |runs| && !runs[r].crashed && runs[r].phase == Screening(pending) && runs[r].eligible == eligible
      requires b < |buyers| && buyers[b].status == Active && buyers[b].balance > 0 && b in pending &&
                 pending[b] == buyers[b]
      modifies this`runs, this`outbox
      ensures State() == Apply(old(State()), RunMoved(r, ScreenBuyer(b, b in accepted)))
      ensures Tables() == old(Tables()) && OnlyRun(old(State()), r) && !runs[r].crashed
      ensures eligible' == if Eligible(Tables(), now, accepted, b) then eligible[b := buyers[b]] else eligible
      ensures runs[r].eligible == eligible' && runs[r].phase == Screening(pending - {b})
    {
      var within := BuyerWithinCaps(b, buyers[b]);
      eligible' := if b in accepted && within then eligible[b := buyers[b]] else eligible;
      Mark(r, ScreenBuyer(b, b in accepted));
    }

    /** One turn of the screening loop: a buyer that was not loaded is passed over. */
    method ScreenNext(ghost r: nat, b: nat, accepted: set<nat>, eligible: map<nat, Buyer>)
      returns (eligible': map<nat, Buyer>, ghost trace: seq<Step>)
      requires r < |runs| && !runs[r].crashed && b < |buyers|
      requires runs[r].phase == Screening(LoadedFrom(Tables(), b)) && runs[r].eligible == eligible
      modifies this`runs, this`outbox
      ensures State() == Exec(old(State()), trace) && MovesOf(trace, r)
      ensures Tables() == old(Tables()) && OnlyRun(old(State()), r) && !runs[r].crashed
      ensures eligible' == if Eligible(Tables(), now, accepted, b) then eligible[b := buyers[b]] else eligible
      ensures runs[r].eligible == eligible' && runs[r].phase == Screening(LoadedFrom(Tables(), b + 1))
    {
      hide ExecTo;
      LoadedStep(Tables(), b);
      if buyers[b].status == Active && buyers[b].balance > 0 {
        trace := [RunMoved(r, ScreenBuyer(b, b in accepted))];
        ExecOne(old(State()), RunMoved(r, ScreenBuyer(b, b in accepted)));
        eligible' := ScreenOne(r, b, LoadedFrom(Tables(), b), accepted, eligible);
      } else {
        ExecNone(old(State()));
        eligible', trace := eligible, [];
      }
    }

    method ScreenBuyers(ghost r: nat, accepted: set<nat>) returns (eligible: map<nat, Buyer>, ghost trace: seq<Step>)
      requires r < |runs| && !runs[r].crashed && runs[r].phase == Screening(LoadedFrom(Tables(), 0)) &&
                 runs[r].eligible == map[]
      modifies this`runs, this`outbox
      ensures State() == Exec(old(State()), trace) && MovesOf(trace, r)
      ensures Tables() == old(Tables()) && OnlyRun(old(State()), r) && !runs[r].crashed
      ensures runs[r].eligible == eligible == EligibleOfFirst(Tables(), now, accepted, |buyers|)
      ensures runs[r].phase == Screening(map[])
    {
      hide ExecTo, EligibleOfFirst, LoadedFrom, Eligible;
      ScreeningEnds(Tables(), now, accepted);
      ExecNone(old(State()));
      trace := [];
      eligible := map[];
      for b := 0 to |buyers|
        invariant Tables() == old(Tables()) && OnlyRun(old(State()), r) && !runs[r].crashed
        invariant State() == Exec(old(State()), trace) && MovesOf(trace, r)
        invariant runs[r].eligible == eligible == EligibleOfFirst(Tables(), now, accepted, b)
        invariant runs[r].phase == Screening(LoadedFrom(Tables(), b))
      {
        ghost var more;
        EligibleStep(Tables(), now, accepted, b);
        eligible, more := ScreenNext(r, b, accepted, eligible);
        ExecConcat(old(State()), trace, more);
        trace := trace + more;
      }
    }

    method SelectEligibleBuyers(ghost r: nat, accepted: set<nat>)
      returns (eligible: map<nat, Buyer>, ghost trace: seq<Step>)
      requires r < |runs| && !runs[r].crashed && runs[r].phase == Selecting && runs[r].eligible == map[]
      modifies this`runs, this`outbox
      ensures State() == Exec(old(State()), trace) && MovesOf(trace, r)
      ensures Tables() == old(Tables()) && OnlyRun(old(State()), r) && !runs[r].crashed
      ensures runs[r].eligible == eligible == EligibleOfFirst(Tables(), now, accepted, |buyers|)
      ensures runs[r].phase == if eligible == map[] then Finished else Soliciting
    {
      hide ExecTo, EligibleOfFirst, WithinCap, HasSale;
      ghost var first := [RunMoved(r, SelectBuyers)];
      ExecOne(old(State()), RunMoved(r, SelectBuyers));
      assert Funded(Tables()) == LoadedFrom(Tables(), 0);
      Mark(r, SelectBuyers);
      ghost var rest;
      eligible, rest := ScreenBuyers(r, accepted);
      ExecConcat(old(State()), first, rest);
      ExecAppend(old(State()), first + rest, RunMoved(r, FinishScreening));
      trace := first + rest + [RunMoved(r, FinishScreening)];
      Mark(r, FinishScreening);
    }

    method ReserveBuyerWallet(ghost r: nat, b: nat, l: nat, bid: int) returns (reserved: bool)
      requires r < |runs| && !runs[r].crashed && runs[r].phase == Keyed(b, bid) && runs[r].lead == l
      modifies this`buyers, this`billing, this`runs
      ensures State() == Apply(old(State()), RunMoved(r, ReserveWallet))
      ensures OnlyRun(old(State()), r)
      ensures runs[r] == old(runs[r]).(phase := if reserved then Reserved(b, bid) else Refused(b, bid))
      ensures reserved == CanReserve(old(Tables()), b, bid)
      ensures reserved <==>
                b < |old(buyers)| && old(buyers[b]).status == Active && old(buyers[b]).balance >= bid
      ensures reserved ==> buyers == old(buyers)[b :=
                old(buyers[b]).(balance := old(buyers[b].balance) - bid, spend := old(buyers[b].spend) + bid)]
      ensures reserved ==> buyers == old(buyers)[b := Charged(old(buyers[b]), bid)]
      ensures reserved ==> billing == old(billing) + [BillingEvent(b, Some(l), LeadReserved, -bid, now)]
      ensures !reserved ==> Tables() == old(Tables())
    {
      reserved := b < |buyers| && buyers[b].status == Active && buyers[b].balance >= bid;
      runs := runs[r := runs[r].(phase := if reserved then Reserved(b, bid) else Refused(b, bid))];
      if reserved {
        var row := buyers[b];
        row := row.(balance := row.balance - bid, spend := row.spend + bid);
        buyers := buyers[b := row];
        billing := billing + [BillingEvent(b, Some(l), LeadReserved, -bid, now)];
      }
    }

    method StoreResult(ghost r: nat, b: nat, l: nat, bid: int, delivered: bool)
      requires r < |runs| && !runs[r].crashed && runs[r].lead == l < |leads| && !HasDeliveryKey(Tables(), l, b, bid)
      requires runs[r].phase == Answered(b, bid, delivered) || (!delivered && runs[r].phase == Refused(b, bid))
      modifies this`posts, this`leads, this`billing, this`runs
      ensures State() == Apply(old(State()), RunMoved(r, StoreOutcome))
      ensures OnlyRun(old(State()), r)
      ensures runs[r] == old(runs[r]).(phase :=
                if delivered || old(runs[r]).phase.Refused? then Finished else Refunding(b, bid))
      ensures posts == old(posts) + [Post(l, b, bid, delivered, false, now)]
      ensures leads == old(leads)[l := Marked(old(leads[l]), if delivered then Sold else LeadStatus.Unsold)]
      ensures leads[l] == old(leads[l]).(status := if delivered then Sold else LeadStatus.Unsold)
      ensures billing == old(billing) + if delivered then [BillingEvent(b, Some(l), LeadPosted, bid, now)] else []
    {
      runs := runs[r := runs[r].(phase := if delivered || runs[r].phase.Refused? then Finished else Refunding(b, bid))];
      posts := posts + [Post(l, b, bid, delivered, false, now)];
      leads := leads[l := leads[l].(status := if delivered then Sold else Unsold)];
      if delivered {
        billing := billing + [BillingEvent(b, Some(l), LeadPosted, bid, now)];
      }
    }

    method CreditFailedDelivery(ghost r: nat, b: nat, l: nat, bid: int)
      requires r < |runs| && !runs[r].crashed && runs[r].phase == Refunding(b, bid) && runs[r].lead == l && b < |buyers|
      modifies this`buyers, this`billing, this`runs
      ensures State() == Apply(old(State()), RunMoved(r, StoreCredit))
      ensures OnlyRun(old(State()), r) && runs[r] == old(runs[r]).(phase := Finished)
      ensures buyers == old(buyers)[b := Charged(old(buyers[b]), -bid)]
      ensures buyers[b] ==
                old(buyers[b]).(balance := old(buyers[b].balance) + bid, spend := old(buyers[b].spend) - bid)
      ensures billing == old(billing) + [BillingEvent(b, Some(l), DeliveryFailedCredit, bid, now)]
    {
      runs := runs[r := runs[r].(phase := Finished)];
      var row := buyers[b];
      row := row.(balance := row.balance + bid, spend := row.spend - bid);
      buyers := buyers[b := row];
      billing := billing + [BillingEvent(b, Some(l), DeliveryFailedCredit, bid, now)];
    }

    method PostLead(ghost r: nat, ghost b: nat, ghost bid: int, script: nat -> Reply, maxAttempts: nat, baseDelay: real)
      returns (ok: bool, ghost trace: seq<Step>)
      requires r < |runs| && !runs[r].crashed && runs[r].phase == Reserved(b, bid) && maxAttempts >= 1
      modifies this`runs, this`outbox
      ensures State() == Exec(old(State()), trace) && MovesOf(trace, r)
      ensures Tables() == old(Tables()) && OnlyRun(old(State()), r)
      ensures runs[r] == old(runs[r]).(phase := Answered(b, bid, ok))
      ensures ok == IsSuccess(script(StopsAt(script, 1, maxAttempts)))
    {
      hide ExecTo;
      ExecOne(old(State()), RunMoved(r, SendPost));
      trace := [RunMoved(r, SendPost)];
      Mark(r, SendPost);
      var outcome, attempts, slept := PostToWinner(script, maxAttempts, baseDelay);
      ok := outcome.Delivered?;
      ExecAppend(old(State()), trace, RunMoved(r, HearAnswer(ok)));
      trace := trace + [RunMoved(r, HearAnswer(ok))];
      Mark(r, HearAnswer(ok));
    }

    /** Store the outcome; credit a failure that had been debited. */
    method SettleRun(ghost r: nat, b: nat, l: nat, bid: int, reserved: bool, ok: bool) returns (ghost trace: seq<Step>)
      requires r < |runs| && !runs[r].crashed && runs[r].lead == l < |leads| && b < |buyers|
      requires runs[r].phase == (if reserved then Answered(b, bid, ok) else Refused(b, bid)) && (ok ==> reserved)
      requires !HasDeliveryKey(Tables(), l, b, bid)
      modifies this
      ensures State() == Exec(old(State()), trace) && MovesOf(trace, r)
      ensures OnlyRun(old(State()), r) && runs[r] == old(runs[r]).(phase := Finished)
      ensures posts == old(posts) + [Post(l, b, bid, ok, false, now)]
      ensures buyers == if reserved && !ok then old(buyers)[b := Charged(old(buyers[b]), -bid)] else old(buyers)
      ensures billing == old(billing) + if reserved then [OutcomeRow(b, l, bid, ok, now)] else []
      ensures requests == old(requests)
      ensures leads == old(leads)[l := Marked(old(leads[l]), if ok then Sold else LeadStatus.Unsold)]
    {
      hide ExecTo;
      ExecOne(old(State()), RunMoved(r, StoreOutcome));
      trace := [RunMoved(r, StoreOutcome)];
      StoreResult(r, b, l, bid, ok);
      if reserved && !ok {
        ExecAppend(old(State()), trace, RunMoved(r, StoreCredit));
        trace := trace + [RunMoved(r, StoreCredit)];
        CreditFailedDelivery(r, b, l, bid);
      }
    }

    /** Debit the wallet and, if that worked, send the lead. */
    method DebitAndPost(ghost r: nat, b: nat, l: nat, bid: int, script: nat -> Reply, maxAttempts: nat, baseDelay: real)
      returns (reserved: bool, ok: bool, ghost trace: seq<Step>)
      requires r < |runs| && !runs[r].crashed && runs[r].phase == Keyed(b, bid) && runs[r].lead == l
      requires maxAttempts >= 1 && b < |buyers|
      modifies this`buyers, this`billing, this`runs, this`outbox
      ensures State() == Exec(old(State()), trace) && MovesOf(trace, r)
      ensures OnlyRun(old(State()), r)
      ensures runs[r] == old(runs[r]).(phase := if reserved then Answered(b, bid, ok) else Refused(b, bid))
      ensures reserved == CanReserve(old(Tables()), b, bid)
      ensures ok == (reserved && IsSuccess(script(StopsAt(script, 1, maxAttempts))))
      ensures buyers == if reserved then old(buyers)[b := Charged(old(buyers[b]), bid)] else old(buyers)
      ensures billing == old(billing) + if reserved then [BillingEvent(b, Some(l), LeadReserved, -bid, now)] else []
    {
      hide ExecTo;
      trace := [RunMoved(r, ReserveWallet)];
      ExecOne(old(State()), RunMoved(r, ReserveWallet));
      reserved := ReserveBuyerWallet(r, b, l, bid);
      ok := false;
      if reserved {
        ghost var sent;
        ok, sent := PostLead(r, b, bid, script, maxAttempts, baseDelay);
        ExecConcat(old(State()), trace, sent);
        trace := trace + sent;
      }
    }

    /** Sell lead l to buyer b: debit, send, store the outcome, and credit a failure. */
    method SellLead(ghost r: nat, b: nat, l: nat, bid: int, script: nat -> Reply, maxAttempts: nat, baseDelay: real)
      returns (reserved: bool, ok: bool, ghost trace: seq<Step>)
      requires r < |runs| && !runs[r].crashed && runs[r].phase == Keyed(b, bid) && runs[r].lead == l < |leads|
      requires !HasDeliveryKey(Tables(), l, b, bid) && maxAttempts >= 1 && b < |buyers|
      modifies this
      ensures State() == Exec(old(State()), trace) && MovesOf(trace, r)
      ensures OnlyRun(old(State()), r) && runs[r] == old(runs[r]).(phase := Finished)
      ensures reserved == CanReserve(old(Tables()), b, bid)
      ensures ok == (reserved && IsSuccess(script(StopsAt(script, 1, maxAttempts))))
      ensures posts == old(posts) + [Post(l, b, bid, ok, false, now)]
      ensures buyers == if ok then old(buyers)[b := Charged(old(buyers[b]), bid)] else old(buyers)
      ensures billing == old(billing) +
                if reserved then [BillingEvent(b, Some(l), LeadReserved, -bid, now), OutcomeRow(b, l, bid, ok, now)]
                else []
      ensures requests == old(requests)
      ensures leads == old(leads)[l := Marked(old(leads[l]), if ok then Sold else LeadStatus.Unsold)]
    {
      hide ExecTo;
      reserved, ok, trace := DebitAndPost(r, b, l, bid, script, maxAttempts, baseDelay);
      ghost var stored := SettleRun(r, b, l, bid, reserved, ok);
      ExecConcat(old(State()), trace, stored);
      trace := trace + stored;
    }

    /** Load the lead, put it through the gate and look for an earlier sale. The run goes on exactly when
        the gate lets the lead in and no sale is found. */
    method OpenRun(l: nat, abMin: real, holdMin: real)
      returns (goOn: bool, reported: Option<(nat, int)>, ghost trace: seq<Step>)
      requires l < |leads|
      modifies this`leads, this`runs, this`outbox
      ensures State() == Exec(old(State()), [RunStarted(l, abMin, holdMin)] + trace) && MovesOf(trace, |old(runs)|)
      ensures |runs| == |old(runs)| + 1 && runs[..|old(runs)|] == old(runs) && |leads| == |old(leads)| &&
                now == old(now)
      ensures goOn <==> GateVerdict(old(leads[l]), abMin, holdMin).0 && !HasSale(old(Tables()), l)
      ensures !GateVerdict(old(leads[l]), abMin, holdMin).0 ==> reported.None?
      ensures GateVerdict(old(leads[l]), abMin, holdMin).0 && HasSale(old(Tables()), l) ==>
                ReportsSale(old(Tables()), l, reported)
      ensures Tables() == AfterGate(old(Tables()), l, abMin, holdMin)
      ensures runs[|old(runs)|] == Run(l, old(leads[l]).leadClass, map[], if goOn then Selecting else Finished, false)
    {
      hide ExecTo;
      ghost var r := |runs|;
      var row := leads[l];
      var (allowed, reason) := GateVerdict(row, abMin, holdMin);
      runs := runs + [NewRun(row, l, abMin, holdMin)];
      ExecOne(old(State()), RunStarted(l, abMin, holdMin));
      reported := None;
      if !allowed {
        PersistUnauctionableLead(r, l, reason, row.leadClass);
        trace := [RunMoved(r, StoreBarred)];
        ExecAppend(old(State()), [RunStarted(l, abMin, holdMin)], RunMoved(r, StoreBarred));
        return false, None, trace;
      }
      var sale := LatestSale(l);
      goOn := sale.None?;
      if sale.Some? {
        reported := Some((posts[sale.value].buyer, posts[sale.value].bid));
      }
      trace := [RunMoved(r, CheckSale)];
      ExecAppend(old(State()), [RunStarted(l, abMin, holdMin)], RunMoved(r, CheckSale));
      Mark(r, CheckSale);
    }

    method DeliveryResultByKey(l: nat, b: nat, bid: int) returns (p: Option<nat>)
      ensures p.None? <==> !HasDeliveryKey(Tables(), l, b, bid)
      ensures p.None? <==>
                forall q :: 0 <= q < |posts| ==> posts[q].lead != l || posts[q].buyer != b || posts[q].bid != bid
      ensures p.Some? ==>
                && p.value < |posts|
                && posts[p.value].lead == l && posts[p.value].buyer == b && posts[p.value].bid == bid
    {
      for i := 0 to |posts|
        invariant forall q :: 0 <= q < i ==> !(posts[q].lead == l && posts[q].buyer == b && posts[q].bid == bid)
      {
        if posts[i].lead == l && posts[i].buyer == b && posts[i].bid == bid {
          return Some(i);
        }
      }
      p := None;
    }

    method MarkLeadUnsold(ghost r: nat, l: nat)
      requires r < |runs| && !runs[r].crashed && runs[r].phase == Losing && runs[r].lead == l < |leads|
      modifies this`leads, this`runs
      ensures State() == Apply(old(State()), RunMoved(r, StoreLoss))
      ensures OnlyRun(old(State()), r) && runs[r] == old(runs[r]).(phase := Finished)
      ensures leads == old(leads)[l := Marked(old(leads[l]), LeadStatus.Unsold)]
      ensures leads[l] == old(leads[l]).(status := LeadStatus.Unsold)
    {
      runs := runs[r := runs[r].(phase := Finished)];
      leads := leads[l := leads[l].(status := LeadStatus.Unsold)];
    }

    /** Pick the winner of the replies and make sure the deal was not tried before. Without a sale of the
        lead on record, a deal that was tried before was a failure, and nobody is reported as winner. */
    method ChooseWinner(ghost r: nat, l: nat, eligible: map<nat, Buyer>, replies: seq<PingResponse>)
      returns (deal: Option<(nat, int)>, reported: Option<(nat, int)>, ghost trace: seq<Step>)
      requires r < |runs| && !runs[r].crashed && runs[r].phase == Soliciting && runs[r].lead == l < |leads|
      requires runs[r].eligible == eligible && FromPinged(replies, eligible) && !HasSale(Tables(), l)
      modifies this`leads, this`runs, this`outbox
      ensures State() == Exec(old(State()), trace) && MovesOf(trace, r)
      ensures OnlyRun(old(State()), r) && !runs[r].crashed && |leads| == |old(leads)|
      ensures runs[r].phase == if deal.Some? then Keyed(deal.value.0, deal.value.1) else Finished
      ensures deal == DealOfReplies(old(Tables()), l, eligible, replies) && reported.None?
      ensures Tables() == old(Tables()).(leads := leads)
      ensures leads == if PickWinner(replies, eligible).None?
                then old(leads)[l := Marked(old(leads[l]), LeadStatus.Unsold)] else old(leads)
    {
      hide ExecTo;
      var picked := PickWinner(replies, eligible);
      WinnerWasPinged(replies, eligible);
      trace := [RunMoved(r, ReceiveBids(replies))];
      ExecOne(old(State()), RunMoved(r, ReceiveBids(replies)));
      Mark(r, ReceiveBids(replies));
      if picked.None? {
        ExecAppend(old(State()), trace, RunMoved(r, StoreLoss));
        trace := trace + [RunMoved(r, StoreLoss)];
        MarkLeadUnsold(r, l);
        return None, None, trace;
      }
      var b, bid := picked.value.buyer, BidOf(picked.value);
      var earlier := DeliveryResultByKey(l, b, bid);
      ExecAppend(old(State()), trace, RunMoved(r, CheckKey));
      trace := trace + [RunMoved(r, CheckKey)];
      Mark(r, CheckKey);
      if earlier.Some? {
        reported := if posts[earlier.value].delivered then Some((b, bid)) else None;
        return None, reported, trace;
      }
      deal, reported := Some((b, bid)), None;
    }

    /** From an open run to its end. */
    method AuctionLead(ghost r: nat, l: nat, accepted: set<nat>, bidders: Bidders,
                       script: nat -> Reply, maxAttempts: nat, baseDelay: real)
      returns (winner: Option<(nat, int)>, ghost trace: seq<Step>)
      requires r < |runs| && !runs[r].crashed && runs[r].phase == Selecting && runs[r].lead == l < |leads|
      requires runs[r].eligible == map[] && !HasSale(Tables(), l) && maxAttempts >= 1
      modifies this
      ensures State() == Exec(old(State()), trace) && MovesOf(trace, r)
      ensures OnlyRun(old(State()), r) && runs[r].phase == Finished && !runs[r].crashed
      ensures Auctioned(old(Tables()), Tables(), now, l, accepted, bidders, Succeeds(script, maxAttempts), winner)
    {
      hide ExecTo, Eligible, PickWinner, FromPinged, HasSale, HasDeliveryKey;
      DealIsAffordable(Tables(), now, l, accepted, bidders);
      var eligible;
      eligible, trace := SelectEligibleBuyers(r, accepted);
      if eligible == map[] {
        return None, trace;
      }
      ghost var chosen;
      var deal;
      deal, winner, chosen := ChooseWinner(r, l, eligible, bidders(eligible));
      ExecConcat(old(State()), trace, chosen);
      trace := trace + chosen;
      if deal.Some? {
        ghost var sold;
        var reserved, ok;
        DealIsNew(Tables(), l, eligible, bidders(eligible));
        reserved, ok, sold := SellLead(r, deal.value.0, l, deal.value.1, script, maxAttempts, baseDelay);
        ExecConcat(old(State()), trace, sold);
        trace := trace + sold;
        winner := if reserved then deal else None;
      }
    }

    /** A whole auction with nothing interleaved, as a history of the step machine.

        accepted are the buyers whose filters match the lead, bidders gives their replies to the pings and
        script the winner's replies to the delivery attempts. */
    method RunAuction(l: nat, abMin: real, holdMin: real, accepted: set<nat>, bidders: Bidders,
                      script: nat -> Reply, maxAttempts: nat, baseDelay: real)
      returns (winner: Option<(nat, int)>, ghost trace: seq<Step>)
      requires l < |leads| && maxAttempts >= 1
      modifies this
      ensures State() == Exec(old(State()), [RunStarted(l, abMin, holdMin)] + trace) && MovesOf(trace, |old(runs)|)
      ensures |runs| == |old(runs)| + 1 && runs[..|old(runs)|] == old(runs) && now == old(now)
      ensures runs[|old(runs)|].phase == Finished && !runs[|old(runs)|].crashed && runs[|old(runs)|].lead == l
      ensures !GateVerdict(old(leads[l]), abMin, holdMin).0 ==> winner.None?
      ensures GateVerdict(old(leads[l]), abMin, holdMin).0 && HasSale(old(Tables()), l) ==>
                ReportsSale(old(Tables()), l, winner)
      ensures GateVerdict(old(leads[l]), abMin, holdMin).0 && !HasSale(old(Tables()), l) ==>
                Auctioned(old(Tables()), Tables(), now, l, accepted, bidders, Succeeds(script, maxAttempts), winner)
      ensures !(GateVerdict(old(leads[l]), abMin, holdMin).0 && !HasSale(old(Tables()), l)) ==>
                Tables() == AfterGate(old(Tables()), l, abMin, holdMin)
      ensures ReportedUnsold(Tables(), l, winner) <==>
                && GateVerdict(old(leads[l]), abMin, holdMin).0 && !HasSale(old(Tables()), l)
                && DealFor(old(Tables()), now, l, accepted, bidders).Some? && !Succeeds(script, maxAttempts)
    {
      hide ExecTo, DealFor, Auctioned;
      var goOn;
      ghost var opening := [RunStarted(l, abMin, holdMin)];
      goOn, winner, trace := OpenRun(l, abMin, holdMin);
      if !goOn {
        return winner, trace;
      }
      ghost var rest;
      winner, rest := AuctionLead(|old(runs)|, l, accepted, bidders, script, maxAttempts, baseDelay);
      FailureReportedAsWinner(old(Tables()), Tables(), now, l, accepted, bidders, Succeeds(script, maxAttempts),
        winner);
      ExecConcat(old(State()), opening + trace, rest);
      assert opening + trace + rest == opening + (trace + rest);
      trace := trace + rest;
    }
  }

  /** How many sales to buyer b were posted on the given day or later. */
  function SalesSince(billing: seq<BillingEvent>, b: nat, day: nat): nat {
    Sums.Count(billing, (e: BillingEvent) => e.buyer == b && e.kind.LeadPosted? && e.at.day >= day)
  }

  /** What the sales to buyer b since the given month add up to. */
  function SpentSince(billing: seq<BillingEvent>, b: nat, month: nat): int {
    Sums.Sum(billing, (e: BillingEvent) =>
      if e.buyer == b && e.kind.LeadPosted? && e.at.month >= month then e.amount else 0)
  }

  lemma CapsAreExact(billing: seq<BillingEvent>, b: nat, now: Stamp)
    ensures Sums.Sum(billing, UsedSince(Day, b, now.day)) == SalesSince(billing, b, now.day)
    ensures Sums.Sum(billing, UsedSince(Month, b, now.month)) == SpentSince(billing, b, now.month)
  {
    Sums.SumIsCount(billing, UsedSince(Day, b, now.day),
      (e: BillingEvent) => e.buyer == b && e.kind.LeadPosted? && e.at.day >= now.day);
    Sums.SumSame(billing, UsedSince(Month, b, now.month), (e: BillingEvent) =>
      if e.buyer == b && e.kind.LeadPosted? && e.at.month >= now.month then e.amount else 0);
  }

  /** What the gate does to a lead: nothing to one it lets in; one that is blocked or of class D is rejected, and any
      other is put on hold. */
  lemma GateIsExact(db: Db, l: nat, abMin: real, holdMin: real, score: real)
    requires l < |db.leads|
    requires score == if db.leads[l].score.Some? then db.leads[l].score.value
                      else if db.leads[l].qualification.Some? then db.leads[l].qualification.value else 0.0
    ensures var lead := db.leads[l];
            AfterGate(db, l, abMin, holdMin) ==
              if !lead.blocked && !lead.hold && lead.leadClass !in {Some(C), Some(D)} &&
                (score >= abMin || score >= holdMin)
              then db
              else db.(leads := db.leads[l :=
                if lead.blocked || lead.leadClass == Some(D) then lead.(status := Rejected) else lead.(hold := true)])
  {
  }

  /** The tables once the gate has seen lead l: a refusal is stored, nothing else is. */
  function AfterGate(db: Db, l: nat, abMin: real, holdMin: real): Db
    requires l < |db.leads|
  {
    var (allowed, reason) := GateVerdict(db.leads[l], abMin, holdMin);
    if allowed then db else PersistUnauctionable(db, l, reason, db.leads[l].leadClass)
  }

  /** The reported winner is the buyer and bid of the latest sale of lead l. */
  ghost predicate ReportsSale(db: Db, l: nat, reported: Option<(nat, int)>) {
    exists p: nat :: IsLatestSale(db, l, p) && reported == Some((db.posts[p].buyer, db.posts[p].bid))
  }

  /** Everyone who is pinged as buyer 0 bids this much. */
  function Bids(bid: int): Bidders {
    (pinged: map<nat, Buyer>) => if 0 in pinged then [PingResponse(0, true, Some(bid), 1)] else []
  }

  /** In an open market the one buyer wins with any bid its wallet covers. */
  lemma LoneBidderWins(deposit: nat, bid: int)
    requires deposit > 0 && bid != 0 && bid <= deposit
    ensures var s := Exec(START, OpenMarket(deposit, 1, 1));
            && |s.db.leads| == 1 && GateVerdict(s.db.leads[0], AB_MIN, HOLD_MIN).0 && !HasSale(s.db, 0)
            && DealFor(s.db, s.now, 0, {0}, Bids(bid)) == Some((0, bid))
  {
    OpenMarketWorks(deposit, 1, 1);
    var s := Exec(START, OpenMarket(deposit, 1, 1));
    var eligible := EligibleOfFirst(s.db, s.now, {0}, 1);
    Sums.SumZero(s.db.billing, UsedSince(Day, 0, 0));
    Sums.SumZero(s.db.billing, UsedSince(Month, 0, 0));
    assert Eligible(s.db, s.now, {0}, 0);
    assert eligible == map[0 := s.db.buyers[0]];
    WinnerIsPicked(Bids(bid)(eligible), eligible, 0);
  }

  /** A run, with the thresholds the service has by default, that reports a winner of an unsold lead: the buyer is
      debited, refuses the lead, is credited again, and is reported. */
  method FailedBuyerStillReported(service: Service, deposit: nat, bid: int) returns (winner: Option<(nat, int)>)
    requires deposit > 0 && bid != 0 && bid <= deposit && service.State() == Exec(START, OpenMarket(deposit, 1, 1))
    modifies service
    ensures winner == Some((0, bid)) && service.buyers == old(service.buyers)
    ensures service.posts == [Post(0, 0, bid, false, false, old(service.now))]
    ensures |service.leads| == 1 && service.leads[0].status == LeadStatus.Unsold
  {
    LoneBidderWins(deposit, bid);
    OpenMarketWorks(deposit, 1, 1);
    ghost var trace;
    winner, trace := service.RunAuction(0, AB_MIN, HOLD_MIN, {0}, Bids(bid), (k: nat) => Status(500), 3, 1.0);
  }

  function Marked(row: Lead, status: LeadStatus): Lead {
    row.(status := status)
  }

  /** A wallet after a debit of bid. */
  function Charged(row: Buyer, bid: int): Buyer {
    row.(balance := row.balance - bid, spend := row.spend + bid)
  }

  /** Every step is a move of run r. */
  predicate MovesOf(trace: seq<Step>, r: nat) {
    forall i :: 0 <= i < |trace| ==> trace[i].RunMoved? && trace[i].r == r
  }
}
