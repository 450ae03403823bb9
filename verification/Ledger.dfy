/** The money laws, stated and kept by each effect: what the wallets, the billing log, the posts and the runs
    say about each other. `Laws` has them over whole histories. */
module Ledger {
  import opened Market
  import opened Saga
  import opened Links
  import opened Effects
  import opened Sums

  // ---------------------------------------------------------------- wallets against the billing log

  /** Billing amounts that move buyer b's wallet: all but the posted events. */
  function Cash(b: nat): BillingEvent -> int {
    (e: BillingEvent) => if e.buyer == b && !e.kind.LeadPosted? then e.amount else 0
  }

  function Deposits(b: nat): BillingEvent -> int {
    (e: BillingEvent) => if e.buyer == b && e.kind.DepositAdded? then e.amount else 0
  }

  /** Each wallet is the sum of its billing rows, and what left it is booked as spend. */
  ghost predicate Conserved(s: Sys) {
    forall b :: 0 <= b < |s.db.buyers| ==>
      && s.db.buyers[b].balance == Sum(s.db.billing, Cash(b))
      && s.db.buyers[b].balance + s.db.buyers[b].spend == Sum(s.db.billing, Deposits(b))
  }

  lemma NoRowsForNewBuyer(s: Sys)
    requires Linked(s)
    ensures Sum(s.db.billing, Cash(|s.db.buyers|)) == 0
    ensures Sum(s.db.billing, Deposits(|s.db.buyers|)) == 0
  {
    forall i | 0 <= i < |s.db.billing| ensures s.db.billing[i].buyer != |s.db.buyers| {
      assert EventLinked(s.db, s.db.billing[i]);
    }
    SumZero(s.db.billing, Cash(|s.db.buyers|));
    SumZero(s.db.billing, Deposits(|s.db.buyers|));
  }

  // ---------------------------------------------------------------- charges against posts and open reservations

  /** Any measure of a deal: a buyer taking a lead at a bid. */
  type Weight = (nat, nat, int) -> int

  /** Reservations count for the deal, credits and returns against it. */
  function Charged(w: Weight): BillingEvent -> int {
    (e: BillingEvent) =>
      if e.lead.None? then 0
      else if e.kind.LeadReserved? then w(e.buyer, e.lead.value, -e.amount)
      else if e.kind.DeliveryFailedCredit? || e.kind.LeadReturned? then -w(e.buyer, e.lead.value, e.amount)
      else 0
  }

  function Kept(w: Weight): Post -> int {
    (p: Post) => if p.delivered && !p.returned then w(p.buyer, p.lead, p.bid) else 0
  }

  /** Reservations a run, live or crashed, has neither turned into a delivered post nor credited back. */
  function Outstanding(w: Weight): Run -> int {
    (run: Run) =>
      if run.phase.Reserved? || run.phase.Posting? || run.phase.Answered? || run.phase.Refunding?
      then w(run.phase.buyer, run.lead, run.phase.bid) else 0
  }

  /** However deals are measured, net charges equal deliveries that were kept plus reservations still open. */
  ghost predicate Balanced(s: Sys, w: Weight) {
    Sum(s.db.billing, Charged(w)) == Sum(s.db.posts, Kept(w)) + Sum(s.runs, Outstanding(w))
  }

  /** How an effect changes the sum of f over the runs. */
  lemma SumRuns(s: Sys, s': Sys, e: Effect, f: Run -> int)
    requires Effected(s, s', e)
    ensures Sum(s'.runs, f) == Sum(s.runs, f) +
              match e
              case Joined(run) => f(run)
              case Moved(r) => f(s'.runs[r]) - f(s.runs[r])
              case Debited(r) => f(s'.runs[r]) - f(s.runs[r])
              case Messaged(r) => f(s'.runs[r]) - f(s.runs[r])
              case Settled(r) => f(s'.runs[r]) - f(s.runs[r])
              case Credited(r) => f(s'.runs[r]) - f(s.runs[r])
              case _ => 0
  {
    match e
    case Joined(run) => SumAppend(s.runs, run, f);
    case Moved(r) => SumEdits(s.runs, s'.runs, r, f);
    case Debited(r) => SumEdits(s.runs, s'.runs, r, f);
    case Messaged(r) => SumEdits(s.runs, s'.runs, r, f);
    case Settled(r) => SumEdits(s.runs, s'.runs, r, f);
    case Credited(r) => SumEdits(s.runs, s'.runs, r, f);
    case _ =>
  }

  /** How an effect changes the sum of f over the posts. */
  lemma SumPosts(s: Sys, s': Sys, e: Effect, f: Post -> int)
    requires Effected(s, s', e)
    ensures Sum(s'.db.posts, f) == Sum(s.db.posts, f) +
              match e
              case Settled(r) => f(NewPost(s, r))
              case Refunded(q) =>
                var post := s.db.posts[s.db.requests[q].post];
                f(post.(returned := true)) - f(post)
              case _ => 0
  {
    match e
    case Settled(r) => SumAppend(s.db.posts, NewPost(s, r), f);
    case Refunded(q) => SumEdits(s.db.posts, s'.db.posts, s.db.requests[q].post, f);
    case _ =>
  }

  /** The post a settling run stores. */
  function NewPost(s: Sys, r: nat): Post
    requires CanSettle(s, r)
  {
    var run := s.runs[r];
    Post(run.lead, run.phase.buyer, run.phase.bid, run.phase.Answered? && run.phase.delivered, false, s.now)
  }

  /** The billing event an effect appends, if any. */
  function NewEvent(s: Sys, s': Sys, e: Effect): Option<BillingEvent>
    requires Effected(s, s', e)
  {
    match e
    case BuyerJoined(deposit, _, _) =>
      if deposit > 0 then Some(BillingEvent(|s.db.buyers|, None, DepositAdded, deposit, s.now)) else None
    case Deposited(b, amount) => Some(BillingEvent(b, None, DepositAdded, amount, s.now))
    case Debited(r) =>
      Some(BillingEvent(s.runs[r].phase.buyer, Some(s.runs[r].lead), LeadReserved, -s.runs[r].phase.bid, s.now))
    case Settled(r) =>
      if NewPost(s, r).delivered
      then Some(BillingEvent(s.runs[r].phase.buyer, Some(s.runs[r].lead), LeadPosted, s.runs[r].phase.bid, s.now))
      else None
    case Credited(r) =>
      Some(BillingEvent(s.runs[r].phase.buyer, Some(s.runs[r].lead), DeliveryFailedCredit, s.runs[r].phase.bid, s.now))
    case Refunded(q) =>
      var request := s.db.requests[q];
      Some(BillingEvent(request.buyer, Some(request.lead), LeadReturned(request.post), s.db.posts[request.post].bid,
        s.now))
    case _ => None
  }

  /** How an effect changes the sum of f over the billing log. */
  lemma SumBilling(s: Sys, s': Sys, e: Effect, f: BillingEvent -> int)
    requires Effected(s, s', e)
    ensures var event := NewEvent(s, s', e);
            && s'.db.billing == (if event.Some? then s.db.billing + [event.value] else s.db.billing)
            && Sum(s'.db.billing, f) == Sum(s.db.billing, f) + if event.Some? then f(event.value) else 0
  {
    if NewEvent(s, s', e).Some? {
      SumAppend(s.db.billing, NewEvent(s, s', e).value, f);
    }
  }

  lemma CashEffect(s: Sys, s': Sys, e: Effect, b: nat)
    requires Conserved(s) && Effected(s, s', e) && b < |s'.db.buyers|
    requires b == |s.db.buyers| ==> Sum(s.db.billing, Cash(b)) == 0
    ensures s'.db.buyers[b].balance == Sum(s'.db.billing, Cash(b))
  {
    SumBilling(s, s', e, Cash(b));
  }

  lemma DepositsEffect(s: Sys, s': Sys, e: Effect, b: nat)
    requires Conserved(s) && Effected(s, s', e) && b < |s'.db.buyers|
    requires b == |s.db.buyers| ==> Sum(s.db.billing, Deposits(b)) == 0
    ensures s'.db.buyers[b].balance + s'.db.buyers[b].spend == Sum(s'.db.billing, Deposits(b))
  {
    SumBilling(s, s', e, Deposits(b));
  }

  lemma ConservedEffect(s: Sys, s': Sys, e: Effect)
    requires Linked(s) && Conserved(s) && Effected(s, s', e)
    ensures Conserved(s')
  {
    NoRowsForNewBuyer(s);
    forall b | 0 <= b < |s'.db.buyers|
      ensures s'.db.buyers[b].balance == Sum(s'.db.billing, Cash(b))
      ensures s'.db.buyers[b].balance + s'.db.buyers[b].spend == Sum(s'.db.billing, Deposits(b))
    {
      CashEffect(s, s', e, b);
      DepositsEffect(s, s', e, b);
    }
  }

  lemma BalancedMoved(s: Sys, s': Sys, r: nat, w: Weight)
    requires Balanced(s, w) && Effected(s, s', Moved(r))
    ensures Balanced(s', w)
  {
    SumEdits(s.runs, s'.runs, r, Outstanding(w));
  }

  lemma BalancedRefunded(s: Sys, s': Sys, q: nat, w: Weight)
    requires Linked(s) && Balanced(s, w) && Effected(s, s', Refunded(q))
    ensures Balanced(s', w)
  {
    assert RequestLinked(s.db, s.db.requests[q]);
    SumBilling(s, s', Refunded(q), Charged(w));
    SumPosts(s, s', Refunded(q), Kept(w));
  }

  /** The tables after run r stored its outcome. */
  lemma SettledTables(s: Sys, s': Sys, r: nat)
    requires Effected(s, s', Settled(r))
    ensures var run, post := s.runs[r], NewPost(s, r);
            && s'.db.posts == s.db.posts + [post]
            && s'.db.billing == s.db.billing +
                 (if post.delivered
                  then [BillingEvent(post.buyer, Some(post.lead), LeadPosted, post.bid, s.now)] else [])
            && s'.runs == s.runs[r := run.(phase := s'.runs[r].phase)]
            && s'.runs[r].phase ==
                 if run.phase.Refused? || post.delivered then Finished else Refunding(post.buyer, post.bid)
  {
  }

  /** A settled deal moves from the open runs to the kept posts, or stays open when it failed. */
  lemma SettledHolds(w: Weight, run: Run, post: Post, next: Phase)
    requires post.lead == run.lead && !post.returned
    requires (run.phase == Refused(post.buyer, post.bid) && !post.delivered && next == Finished)
          || (run.phase == Answered(post.buyer, post.bid, post.delivered) &&
               next == if post.delivered then Finished else Refunding(post.buyer, post.bid))
    ensures Outstanding(w)(run) == Kept(w)(post) + Outstanding(w)(run.(phase := next))
  {
  }

  lemma BalancedSettled(s: Sys, s': Sys, r: nat, w: Weight)
    requires Balanced(s, w) && Effected(s, s', Settled(r))
    ensures Balanced(s', w)
  {
    SettledTables(s, s', r);
    var post := NewPost(s, r);
    SettledHolds(w, s.runs[r], post, s'.runs[r].phase);
    SumAppend(s.db.billing, BillingEvent(post.buyer, Some(post.lead), LeadPosted, post.bid, s.now), Charged(w));
    SumAppend(s.db.posts, post, Kept(w));
    SumUpdate(s.runs, r, s.runs[r].(phase := s'.runs[r].phase), Outstanding(w));
  }

  lemma BalancedEffect(s: Sys, s': Sys, e: Effect, w: Weight)
    requires Linked(s) && Balanced(s, w) && Effected(s, s', e)
    ensures Balanced(s', w)
  {
    if e.Moved? {
      BalancedMoved(s, s', e.r, w);
    } else if e.Refunded? {
      BalancedRefunded(s, s', e.q, w);
    } else if e.Settled? {
      BalancedSettled(s, s', e.r, w);
    } else {
      BalancedOther(s, s', e, w);
    }
  }

  lemma BalancedOther(s: Sys, s': Sys, e: Effect, w: Weight)
    requires Balanced(s, w) && Effected(s, s', e) && !e.Moved? && !e.Refunded? && !e.Settled?
    ensures Balanced(s', w)
  {
    SumBilling(s, s', e, Charged(w));
    SumPosts(s, s', e, Kept(w));
    SumRuns(s, s', e, Outstanding(w));
  }

  // ---------------------------------------------------------------- posted events against delivered posts

  type DatedWeight = (nat, nat, int, Stamp) -> int

  function Posted(w: DatedWeight): BillingEvent -> int {
    (e: BillingEvent) => if e.kind.LeadPosted? && e.lead.Some? then w(e.buyer, e.lead.value, e.amount, e.at) else 0
  }

  function Delivered(w: DatedWeight): Post -> int {
    (p: Post) => if p.delivered then w(p.buyer, p.lead, p.bid, p.at) else 0
  }

  /** Posted events and delivered posts are the same deals at the same instants. */
  ghost predicate PostedMatches(s: Sys, w: DatedWeight) {
    Sum(s.db.billing, Posted(w)) == Sum(s.db.posts, Delivered(w))
  }

  lemma PostedMatchesEffect(s: Sys, s': Sys, e: Effect, w: DatedWeight)
    requires PostedMatches(s, w) && Effected(s, s', e)
    ensures PostedMatches(s', w)
  {
    SumBilling(s, s', e, Posted(w));
    SumPosts(s, s', e, Delivered(w));
  }

  // ---------------------------------------------------------------- messages against reservations

  function ReservedEvents(w: Weight): BillingEvent -> int {
    (e: BillingEvent) => if e.kind.LeadReserved? && e.lead.Some? then w(e.buyer, e.lead.value, -e.amount) else 0
  }

  function SentDeals(w: Weight): Sent -> int {
    (m: Sent) => w(m.buyer, m.lead, m.bid)
  }

  function Unsent(w: Weight): Run -> int {
    (run: Run) => if run.phase.Reserved? then w(run.phase.buyer, run.lead, run.phase.bid) else 0
  }

  /** Every lead sent to a buyer consumed its own committed reservation of the same bid. */
  ghost predicate SentWasReserved(s: Sys, w: Weight) {
    Sum(s.db.billing, ReservedEvents(w)) == Sum(s.outbox, SentDeals(w)) + Sum(s.runs, Unsent(w))
  }

  lemma SentWasReservedMessaged(s: Sys, s': Sys, r: nat, w: Weight)
    requires SentWasReserved(s, w) && Effected(s, s', Messaged(r))
    ensures SentWasReserved(s', w)
  {
    SumAppend(s.outbox, Sent(r, s.runs[r].lead, s.runs[r].phase.buyer, s.runs[r].phase.bid), SentDeals(w));
    SumUpdate(s.runs, r, s'.runs[r], Unsent(w));
  }

  lemma SentWasReservedEffect(s: Sys, s': Sys, e: Effect, w: Weight)
    requires SentWasReserved(s, w) && Effected(s, s', e)
    ensures SentWasReserved(s', w)
  {
    if e.Messaged? {
      SentWasReservedMessaged(s, s', e.r, w);
    } else {
      SumRuns(s, s', e, Unsent(w));
      SumBilling(s, s', e, ReservedEvents(w));
    }
  }
}
