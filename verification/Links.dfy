/** References between rows and runs that every step keeps: of runs to leads and buyers, of posts, requests
    and billing rows to each other, and of all of them to the clock. */
module Links {
  import opened Market
  import opened Bidding
  import opened Saga

  /** The buyer and bid a run settled on, once it has. */
  function DealOf(phase: Phase): Option<(nat, int)> {
    match phase
    case Chosen(b, bid) => Some((b, bid))
    case Keyed(b, bid) => Some((b, bid))
    case Reserved(b, bid) => Some((b, bid))
    case Refused(b, bid) => Some((b, bid))
    case Posting(b, bid) => Some((b, bid))
    case Answered(b, bid, _) => Some((b, bid))
    case Refunding(b, bid) => Some((b, bid))
    case _ => None
  }

  predicate RunLinked(db: Db, run: Run) {
    && run.lead < |db.leads|
    && (forall b :: b in run.eligible ==> b < |db.buyers|)
    && (run.phase.Screening? ==> forall b :: b in run.phase.pending ==> b < |db.buyers|)
    && (DealOf(run.phase).Some? ==> DealOf(run.phase).value.0 in run.eligible && DealOf(run.phase).value.1 != 0)
  }

  predicate PostLinked(db: Db, post: Post) {
    && post.buyer < |db.buyers| && post.lead < |db.leads| && (post.returned ==> post.delivered)
  }

  predicate RequestLinked(db: Db, q: ReturnRequest) {
    && q.post < |db.posts| && db.posts[q.post].delivered
    && q.buyer == db.posts[q.post].buyer && q.lead == db.posts[q.post].lead
  }

  predicate EventLinked(db: Db, e: BillingEvent) {
    && e.buyer < |db.buyers| && (e.lead.None? <==> e.kind == DepositAdded)
    && (e.lead.Some? ==> e.lead.value < |db.leads|)
    && (e.kind.LeadReturned? ==>
          && e.kind.post < |db.posts|
          && var post := db.posts[e.kind.post];
             post.returned && e.amount == post.bid && e.buyer == post.buyer && e.lead == Some(post.lead))
  }

  predicate NotAfter(at: Stamp, now: Stamp) {
    at.tick <= now.tick && at.day <= now.day && at.month <= now.month
  }

  ghost predicate Linked(s: Sys) {
    && (forall i :: 0 <= i < |s.runs| ==> RunLinked(s.db, s.runs[i]))
    && (forall i :: 0 <= i < |s.db.posts| ==> PostLinked(s.db, s.db.posts[i]) && NotAfter(s.db.posts[i].at, s.now))
    && (forall i :: 0 <= i < |s.db.requests| ==> RequestLinked(s.db, s.db.requests[i]))
    && (forall i :: 0 <= i < |s.db.billing| ==>
         EventLinked(s.db, s.db.billing[i]) && NotAfter(s.db.billing[i].at, s.now))
  }

  lemma WinnerWasPinged(replies: seq<PingResponse>, eligible: map<nat, Buyer>)
    requires FromPinged(replies, eligible)
    ensures var winner := PickWinner(replies, eligible);
            winner.Some? ==> winner.value.buyer in eligible && BidOf(winner.value) != 0
  {
    var w := PickedIsWinner(replies, eligible);
  }

  /** Appending linked rows, and editing rows in ways no reference depends on, keeps everything linked. */
  lemma LinkedExtends(s: Sys, s': Sys)
    requires Linked(s) && s'.now == s.now && s'.db.requests == s.db.requests
    requires |s.db.buyers| <= |s'.db.buyers| && |s.db.leads| <= |s'.db.leads|
    requires s.db.posts <= s'.db.posts && s.db.billing <= s'.db.billing
    requires forall i :: 0 <= i < |s'.runs| ==>
               (i < |s.runs| && s'.runs[i] == s.runs[i]) || RunLinked(s'.db, s'.runs[i])
    requires forall i :: |s.db.posts| <= i < |s'.db.posts| ==>
               PostLinked(s'.db, s'.db.posts[i]) && NotAfter(s'.db.posts[i].at, s'.now)
    requires forall i :: |s.db.billing| <= i < |s'.db.billing| ==>
               EventLinked(s'.db, s'.db.billing[i]) && NotAfter(s'.db.billing[i].at, s'.now)
    ensures Linked(s')
  {
    forall i | 0 <= i < |s'.runs| ensures RunLinked(s'.db, s'.runs[i]) {
      assert i < |s.runs| ==> RunLinked(s.db, s.runs[i]);
    }
    forall i | 0 <= i < |s.db.posts| ensures PostLinked(s'.db, s'.db.posts[i]) && NotAfter(s'.db.posts[i].at, s'.now) {
      assert PostLinked(s.db, s.db.posts[i]);
    }
    forall i | 0 <= i < |s.db.requests| ensures RequestLinked(s'.db, s'.db.requests[i]) {
      assert RequestLinked(s.db, s.db.requests[i]);
    }
    forall i | 0 <= i < |s.db.billing|
      ensures EventLinked(s'.db, s'.db.billing[i]) && NotAfter(s'.db.billing[i].at, s'.now)
    {
      assert EventLinked(s.db, s.db.billing[i]);
    }
  }

  lemma LinkedBids(s: Sys, r: nat, replies: seq<PingResponse>)
    requires Linked(s) && r < |s.runs|
    ensures Linked(ApplyMove(s, r, ReceiveBids(replies)))
  {
    var run := s.runs[r];
    if run.phase.Soliciting? && FromPinged(replies, run.eligible) {
      WinnerWasPinged(replies, run.eligible);
    }
    assert RunLinked(s.db, run);
    LinkedExtends(s, ApplyMove(s, r, ReceiveBids(replies)));
  }

  lemma LinkedOutcome(s: Sys, r: nat)
    requires Linked(s) && r < |s.runs|
    ensures Linked(ApplyMove(s, r, StoreOutcome))
  {
    assert RunLinked(s.db, s.runs[r]);
    LinkedExtends(s, ApplyMove(s, r, StoreOutcome));
  }

  lemma LinkedMove(s: Sys, r: nat, move: Move)
    requires Linked(s) && r < |s.runs| && !move.ReceiveBids? && !move.StoreOutcome?
    ensures Linked(ApplyMove(s, r, move))
  {
    assert RunLinked(s.db, s.runs[r]);
    LinkedExtends(s, ApplyMove(s, r, move));
  }

  lemma LinkedAnyMove(s: Sys, r: nat, move: Move)
    requires Linked(s) && r < |s.runs|
    ensures Linked(ApplyMove(s, r, move))
  {
    match move {
      case ReceiveBids(replies) => LinkedBids(s, r, replies);
      case StoreOutcome => LinkedOutcome(s, r);
      case _ => LinkedMove(s, r, move);
    }
  }

  lemma LinkedDesk(s: Sys, q: nat, decision: Decision)
    requires Linked(s)
    ensures Linked(Commit(s, ReviewReturn(s.db, q, decision, s.now)))
  {
    if q < |s.db.requests| {
      assert RequestLinked(s.db, s.db.requests[q]);
    }
  }

  lemma LinkedAsk(s: Sys, l: nat, p: nat)
    requires Linked(s) && IsLatestSale(s.db, l, p)
    ensures Linked(Commit(s, OpenReturn(s.db, l, p)))
  {
    assert PostLinked(s.db, s.db.posts[p]);
  }

  lemma LinkedTables(s: Sys, step: Step)
    requires Linked(s) && !step.RunMoved? && !step.ReturnOpened? && !step.ReturnReviewed? && !step.TimePassed?
    ensures Linked(Apply(s, step))
  {
    LinkedExtends(s, Apply(s, step));
  }

  lemma LinkedStep(s: Sys, step: Step)
    requires Linked(s)
    ensures Linked(Apply(s, step))
  {
    match step {
      case RunMoved(r, move) => if r < |s.runs| { LinkedAnyMove(s, r, move); }
      case ReturnReviewed(q, decision) => LinkedDesk(s, q, decision);
      case ReturnOpened(l, p) => if IsLatestSale(s.db, l, p) { LinkedAsk(s, l, p); }
      case TimePassed(_, _, _) =>
      case _ => LinkedTables(s, step);
    }
  }

  lemma {:induction false} AlwaysLinked(steps: seq<Step>)
    ensures Linked(Exec(START, steps))
  {
    if |steps| > 0 {
      ExecLast(START, steps);
      AlwaysLinked(steps[..|steps| - 1]);
      LinkedStep(Exec(START, steps[..|steps| - 1]), steps[|steps| - 1]);
    }
  }
}
