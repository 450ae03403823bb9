/** The money laws over every history: runs, deposits, edits and returns in any order, with crashes. */
module Laws {
  import opened Market
  import opened Saga
  import opened Links
  import opened Effects
  import opened Ledger
  import opened Sums

  lemma {:induction false} AlwaysConserved(steps: seq<Step>)
    ensures Linked(Exec(START, steps)) && Conserved(Exec(START, steps))
  {
    AlwaysLinked(steps);
    if |steps| > 0 {
      ExecLast(START, steps);
      var front := steps[..|steps| - 1];
      AlwaysConserved(front);
      var e := StepEffect(Exec(START, front), steps[|steps| - 1]);
      ConservedEffect(Exec(START, front), Exec(START, steps), e);
    }
  }

  lemma {:induction false} AlwaysBalanced(steps: seq<Step>, w: Weight)
    ensures Balanced(Exec(START, steps), w)
  {
    if |steps| > 0 {
      ExecLast(START, steps);
      var front := steps[..|steps| - 1];
      AlwaysBalanced(front, w);
      AlwaysLinked(front);
      var e := StepEffect(Exec(START, front), steps[|steps| - 1]);
      BalancedEffect(Exec(START, front), Exec(START, steps), e, w);
    }
  }

  lemma {:induction false} AlwaysPostedMatches(steps: seq<Step>, w: DatedWeight)
    ensures PostedMatches(Exec(START, steps), w)
  {
    if |steps| > 0 {
      ExecLast(START, steps);
      var front := steps[..|steps| - 1];
      AlwaysPostedMatches(front, w);
      var e := StepEffect(Exec(START, front), steps[|steps| - 1]);
      PostedMatchesEffect(Exec(START, front), Exec(START, steps), e, w);
    }
  }

  lemma {:induction false} AlwaysSentWasReserved(steps: seq<Step>, w: Weight)
    ensures SentWasReserved(Exec(START, steps), w)
  {
    if |steps| > 0 {
      ExecLast(START, steps);
      var front := steps[..|steps| - 1];
      AlwaysSentWasReserved(front, w);
      var e := StepEffect(Exec(START, front), steps[|steps| - 1]);
      SentWasReservedEffect(Exec(START, front), Exec(START, steps), e, w);
    }
  }

  ghost predicate UniqueDeliveryKeys(db: Db) {
    forall p, q :: 0 <= p < q < |db.posts| ==>
      db.posts[p].lead != db.posts[q].lead || db.posts[p].buyer != db.posts[q].buyer ||
        db.posts[p].bid != db.posts[q].bid
  }

  lemma UniqueDeliveryKeysEffect(s: Sys, s': Sys, e: Effect)
    requires UniqueDeliveryKeys(s.db) && Effected(s, s', e)
    ensures UniqueDeliveryKeys(s'.db)
  {
  }

  /** No deal of lead, buyer and bid is ever delivered, or tried, twice. */
  lemma {:induction false} AlwaysUniqueDeliveryKeys(steps: seq<Step>)
    ensures UniqueDeliveryKeys(Exec(START, steps).db)
  {
    if |steps| > 0 {
      hide Apply, Effected, UniqueDeliveryKeys;
      ExecLast(START, steps);
      var front := steps[..|steps| - 1];
      AlwaysUniqueDeliveryKeys(front);
      var e := StepEffect(Exec(START, front), steps[|steps| - 1]);
      UniqueDeliveryKeysEffect(Exec(START, front), Exec(START, steps), e);
    }
  }

  // ---------------------------------------------------------------- spend

  /** The bid of a deal, when the buyer is b. */
  function BidsOf(b: nat): Weight {
    (buyer: nat, lead: nat, bid: int) => if buyer == b then bid else 0
  }

  /** No reservation is waiting to be turned into a sale or credited back. */
  predicate Quiescent(s: Sys) {
    forall i :: 0 <= i < |s.runs| ==> !IsOpen(s.runs[i].phase)
  }

  /** A buyer's lifetime spend is the bids of its delivered, unreturned leads plus its open reservations. */
  lemma SpendIsKeptPlusOutstanding(steps: seq<Step>, b: nat)
    requires b < |Exec(START, steps).db.buyers|
    ensures var s := Exec(START, steps);
            && s.db.buyers[b].spend == Sum(s.db.posts, Kept(BidsOf(b))) + Sum(s.runs, Outstanding(BidsOf(b)))
            && (Quiescent(s) ==> s.db.buyers[b].spend == Sum(s.db.posts, Kept(BidsOf(b))))
  {
    var s := Exec(START, steps);
    AlwaysConserved(steps);
    AlwaysBalanced(steps, BidsOf(b));
    forall i | 0 <= i < |s.db.billing|
      ensures Charged(BidsOf(b))(s.db.billing[i]) == 1 * Deposits(b)(s.db.billing[i]) + -1 * Cash(b)(s.db.billing[i])
    {
      assert EventLinked(s.db, s.db.billing[i]);
    }
    SumLinear(s.db.billing, Charged(BidsOf(b)), 1, Deposits(b), -1, Cash(b));
    if Quiescent(s) {
      SumZero(s.runs, Outstanding(BidsOf(b)));
    }
  }
}
