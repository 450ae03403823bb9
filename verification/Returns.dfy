/** The return desk: one open request per sale at most, and one credit, of the price paid. */
module Returns {
  import opened Market
  import opened Saga
  import opened Links
  import opened Effects
  import opened Ledger
  import opened Sums

  // ---------------------------------------------------------------- the two endpoints

  /** A return is opened for the latest sale of the lead, unless that was returned or a request for it is undecided. */
  lemma OpeningIsExact(s: Sys, l: nat, p: nat)
    ensures var posts, requests := s.db.posts, s.db.requests;
            Apply(s, ReturnOpened(l, p)) ==
              if && p < |posts| && posts[p].lead == l && posts[p].delivered && !posts[p].returned
                 && (forall q :: 0 <= q < |posts| && posts[q].lead == l && posts[q].delivered ==>
                       posts[q].at.tick <= posts[p].at.tick)
                 && posts[p].buyer < |s.db.buyers|
                 && forall q :: 0 <= q < |requests| && requests[q].post == p ==>
                      requests[q].status in {Approved, Declined}
              then s.(db := s.db.(requests := requests + [ReturnRequest(p, l, posts[p].buyer, PendingReview)]))
              else s
  {
  }

  /** A request that is still undecided is put on hold, declined, or approved; an approval of a sale that was not
      returned yet gives the bid back, marks the post and logs the credit. */
  lemma ReviewIsExact(s: Sys, q: nat, decision: Decision)
    ensures Apply(s, ReturnReviewed(q, decision)) ==
              if q >= |s.db.requests| || s.db.requests[q].status !in {PendingReview, Held} then s
              else
                var request := s.db.requests[q];
                if request.post >= |s.db.posts| || request.buyer >= |s.db.buyers| then s
                else match decision
                  case Hold => s.(db := s.db.(requests := s.db.requests[q := request.(status := Held)]))
                  case Reject => s.(db := s.db.(requests := s.db.requests[q := request.(status := Declined)]))
                  case Approve =>
                    var post, row := s.db.posts[request.post], s.db.buyers[request.buyer];
                    if post.returned then s
                    else s.(db := s.db.(
                      buyers := s.db.buyers[request.buyer :=
                        row.(balance := row.balance + post.bid, spend := row.spend - post.bid)],
                      posts := s.db.posts[request.post := post.(returned := true)],
                      requests := s.db.requests[q := request.(status := Approved)],
                      billing := s.db.billing + [BillingEvent(request.buyer, Some(request.lead),
                        LeadReturned(request.post), post.bid, s.now)]))
  {
  }

  function ActiveFor(p: nat): ReturnRequest -> int {
    (q: ReturnRequest) => if q.post == p && (q.status == PendingReview || q.status == Held) then 1 else 0
  }

  function ApprovedFor(p: nat): ReturnRequest -> int {
    (q: ReturnRequest) => if q.post == p && q.status == Approved then 1 else 0
  }

  function ApprovedBy(b: nat): ReturnRequest -> int {
    (q: ReturnRequest) => if q.buyer == b && q.status == Approved then 1 else 0
  }

  /** Return events recorded against post p. */
  function ReturnEventFor(p: nat): BillingEvent -> int {
    (e: BillingEvent) => if e.kind.LeadReturned? && e.kind.post == p then 1 else 0
  }

  function ReturnedOf(b: nat): Post -> int {
    (post: Post) => if post.returned && post.buyer == b then 1 else 0
  }

  function DeliveredTo(b: nat): Post -> int {
    (post: Post) => if post.delivered && post.buyer == b then 1 else 0
  }

  predicate IsReturned(s: Sys, p: nat) {
    p < |s.db.posts| && s.db.posts[p].returned
  }

  /** Post p has an approved request and a return event exactly when it is returned, and then no active request. */
  ghost predicate ReturnedOnce(s: Sys, p: nat) {
    && Sum(s.db.requests, ApprovedFor(p)) == One(IsReturned(s, p))
    && Sum(s.db.billing, ReturnEventFor(p)) == One(IsReturned(s, p))
    && Sum(s.db.requests, ActiveFor(p)) + One(IsReturned(s, p)) <= 1
  }

  /** How an effect changes the sum of f over the return requests. */
  lemma SumRequests(s: Sys, s': Sys, e: Effect, f: ReturnRequest -> int)
    requires Effected(s, s', e)
    ensures Sum(s'.db.requests, f) == Sum(s.db.requests, f) +
              match e
              case Asked(l, p) => f(ReturnRequest(p, l, s.db.posts[p].buyer, PendingReview))
              case Judged(q, decision) =>
                f(s.db.requests[q].(status := if decision == Hold then Held else Declined)) - f(s.db.requests[q])
              case Refunded(q) => f(s.db.requests[q].(status := Approved)) - f(s.db.requests[q])
              case _ => 0
  {
    match e
    case Asked(l, p) => SumAppend(s.db.requests, ReturnRequest(p, l, s.db.posts[p].buyer, PendingReview), f);
    case Judged(q, decision) => SumEdits(s.db.requests, s'.db.requests, q, f);
    case Refunded(q) => SumEdits(s.db.requests, s'.db.requests, q, f);
    case _ =>
  }

  lemma NoActiveReturnCounts(db: Db, p: nat)
    requires !HasActiveReturn(db, p)
    ensures Sum(db.requests, ActiveFor(p)) == 0
  {
    SumZero(db.requests, ActiveFor(p));
  }

  lemma ReturnedFlag(s: Sys, s': Sys, e: Effect, p: nat)
    requires Linked(s) && Effected(s, s', e)
    ensures IsReturned(s', p) == (IsReturned(s, p) || (e.Refunded? && s.db.requests[e.q].post == p))
  {
    if e.Refunded? {
      assert RequestLinked(s.db, s.db.requests[e.q]);
    }
  }

  lemma RequestsRefunded(s: Sys, s': Sys, q: nat, p: nat)
    requires Linked(s) && Effected(s, s', Refunded(q))
    ensures var hit := One(s.db.requests[q].post == p);
            && Sum(s'.db.requests, ApprovedFor(p)) == Sum(s.db.requests, ApprovedFor(p)) + hit
            && Sum(s'.db.requests, ActiveFor(p)) == Sum(s.db.requests, ActiveFor(p)) - hit
  {
    SumEdits(s.db.requests, s'.db.requests, q, ApprovedFor(p));
    SumEdits(s.db.requests, s'.db.requests, q, ActiveFor(p));
  }

  lemma ReturnedOnceRefunded(s: Sys, s': Sys, q: nat, p: nat)
    requires Linked(s) && ReturnedOnce(s, p) && Effected(s, s', Refunded(q))
    ensures ReturnedOnce(s', p)
  {
    ReturnedFlag(s, s', Refunded(q), p);
    RequestsRefunded(s, s', q, p);
    SumBilling(s, s', Refunded(q), ReturnEventFor(p));
  }

  lemma ReturnedOnceAsked(s: Sys, s': Sys, l: nat, asked: nat, p: nat)
    requires Linked(s) && ReturnedOnce(s, p) && Effected(s, s', Asked(l, asked))
    ensures ReturnedOnce(s', p)
  {
    NoActiveReturnCounts(s.db, asked);
    SumRequests(s, s', Asked(l, asked), ApprovedFor(p));
    SumRequests(s, s', Asked(l, asked), ActiveFor(p));
  }

  lemma ReturnedOnceEffect(s: Sys, s': Sys, e: Effect, p: nat)
    requires Linked(s) && ReturnedOnce(s, p) && Effected(s, s', e)
    ensures ReturnedOnce(s', p)
  {
    if e.Refunded? {
      ReturnedOnceRefunded(s, s', e.q, p);
    } else if e.Asked? {
      ReturnedOnceAsked(s, s', e.l, e.p, p);
    } else {
      ReturnedFlag(s, s', e, p);
      SumRequests(s, s', e, ApprovedFor(p));
      SumRequests(s, s', e, ActiveFor(p));
      SumBilling(s, s', e, ReturnEventFor(p));
    }
  }

  lemma {:induction false} AlwaysReturnedOnce(steps: seq<Step>, p: nat)
    ensures ReturnedOnce(Exec(START, steps), p)
  {
    if |steps| > 0 {
      ExecLast(START, steps);
      var front := steps[..|steps| - 1];
      AlwaysReturnedOnce(front, p);
      AlwaysLinked(front);
      var e := StepEffect(Exec(START, front), steps[|steps| - 1]);
      ReturnedOnceEffect(Exec(START, front), Exec(START, steps), e, p);
    }
  }

  /** Per sale: at most one active request; returned exactly when there is exactly one approved request and
      exactly one return event, of the price paid, to the buyer who paid it; and then nothing is active. */
  lemma ReturnWorkflow(steps: seq<Step>, p: nat)
    requires p < |Exec(START, steps).db.posts|
    ensures var s := Exec(START, steps);
            var returned := s.db.posts[p].returned;
            && Sum(s.db.requests, ActiveFor(p)) <= 1
            && (returned <==> Sum(s.db.requests, ApprovedFor(p)) == 1)
            && (returned <==> Sum(s.db.billing, ReturnEventFor(p)) == 1)
            && (returned ==> s.db.posts[p].delivered && Sum(s.db.requests, ActiveFor(p)) == 0)
            && (forall i :: 0 <= i < |s.db.billing| && s.db.billing[i].kind == LeadReturned(p) ==>
                  s.db.billing[i].buyer == s.db.posts[p].buyer && s.db.billing[i].amount == s.db.posts[p].bid)
  {
    var s := Exec(START, steps);
    AlwaysReturnedOnce(steps, p);
    AlwaysLinked(steps);
    SumNonNegative(s.db.requests, ActiveFor(p));
    assert PostLinked(s.db, s.db.posts[p]);
    forall i | 0 <= i < |s.db.billing| && s.db.billing[i].kind == LeadReturned(p)
      ensures s.db.billing[i].buyer == s.db.posts[p].buyer && s.db.billing[i].amount == s.db.posts[p].bid
    {
      assert EventLinked(s.db, s.db.billing[i]);
    }
  }

  /** Approving an open request always goes through: the already-credited guard never fires. */
  lemma ApprovalAlwaysCredits(steps: seq<Step>, q: nat)
    requires q < |Exec(START, steps).db.requests| && IsActive(Exec(START, steps).db.requests[q].status)
    ensures var s := Exec(START, steps);
            var request := s.db.requests[q];
            && request.post < |s.db.posts| && request.buyer < |s.db.buyers|
            && ReviewReturn(s.db, q, Approve, s.now) == Ok(ApproveReturn(s.db, q, s.now))
            && ApproveReturn(s.db, q, s.now).buyers[request.buyer].balance ==
                 s.db.buyers[request.buyer].balance + s.db.posts[request.post].bid
  {
    var s := Exec(START, steps);
    AlwaysLinked(steps);
    assert RequestLinked(s.db, s.db.requests[q]);
    assert PostLinked(s.db, s.db.posts[s.db.requests[q].post]);
    AlwaysReturnedOnce(steps, s.db.requests[q].post);
    SumAtLeastTerms(s.db.requests, ActiveFor(s.db.requests[q].post), q, q);
  }

  lemma {:induction false} ApprovedAreReturned(steps: seq<Step>, b: nat)
    ensures Sum(Exec(START, steps).db.requests, ApprovedBy(b)) == Sum(Exec(START, steps).db.posts, ReturnedOf(b))
  {
    if |steps| > 0 {
      ExecLast(START, steps);
      var front := steps[..|steps| - 1];
      var s, s' := Exec(START, front), Exec(START, steps);
      ApprovedAreReturned(front, b);
      AlwaysLinked(front);
      var e := StepEffect(s, steps[|steps| - 1]);
      if e.Refunded? {
        assert RequestLinked(s.db, s.db.requests[e.q]);
      }
      SumRequests(s, s', e, ApprovedBy(b));
      SumPosts(s, s', e, ReturnedOf(b));
    }
  }

  /** A buyer's approved returns never outnumber its deliveries: the adjustment rate is at most one. */
  lemma AdjustmentRateAtMostOne(steps: seq<Step>, b: nat)
    ensures var s := Exec(START, steps);
            0 <= Sum(s.db.requests, ApprovedBy(b)) <= Sum(s.db.posts, DeliveredTo(b))
  {
    var s := Exec(START, steps);
    ApprovedAreReturned(steps, b);
    AlwaysLinked(steps);
    forall i | 0 <= i < |s.db.posts| ensures ReturnedOf(b)(s.db.posts[i]) <= DeliveredTo(b)(s.db.posts[i]) {
      assert PostLinked(s.db, s.db.posts[i]);
    }
    SumAtMost(s.db.posts, ReturnedOf(b), DeliveredTo(b));
    SumNonNegative(s.db.requests, ApprovedBy(b));
  }
}
