/** The marketplace as a step machine.

    A run of an auction is a saga of separately committed transactions. Every step below is
    one such transaction, one message, or one reply; steps of different runs, deposits, buyer
    edits and return reviews interleave in any order, and a run can crash between any two of
    its steps. A step that is not enabled changes nothing, so every sequence of steps is a
    history, and a property of all sequences is a property of all interleavings. */
module Saga {
  import opened Market
  import opened Bidding
  import opened Sums

  datatype Phase =
    | Barred(reason: GateReason)            // refused by the gate, not yet written back
    | Opened                                // admitted by the gate
    | Selecting                             // no earlier sale was found
    | Screening(pending: map<nat, Buyer>)   // buyers loaded, caps being checked one by one
    | Soliciting                            // eligible buyers known
    | Chosen(buyer: nat, bid: int)          // winner picked
    | Keyed(buyer: nat, bid: int)           // no earlier delivery with the same key
    | Reserved(buyer: nat, bid: int)        // wallet debited
    | Refused(buyer: nat, bid: int)         // wallet or status changed before the debit
    | Posting(buyer: nat, bid: int)         // lead sent, outcome unknown
    | Answered(buyer: nat, bid: int, delivered: bool)
    | Refunding(buyer: nat, bid: int)       // failure stored, credit pending
    | Losing                                // nobody to sell to
    | Finished

  datatype Run = Run(lead: nat, leadClass: Option<LeadClass>, eligible: map<nat, Buyer>, phase: Phase, crashed: bool)

  /** A lead sent to a buyer under a bid. */
  datatype Sent = Sent(run: nat, lead: nat, buyer: nat, bid: int)

  datatype Sys = Sys(db: Db, runs: seq<Run>, outbox: seq<Sent>, now: Stamp)

  const START := Sys(EMPTY_DB, [], [], Stamp(0, 0, 0))

  datatype Step =
    | BuyerCreated(deposit: nat, cap: nat, budget: nat)
    | BuyerUpdated(b: nat, status: BuyerStatus, cap: nat, budget: nat)
    | DepositMade(b: nat, amount: nat)
    | LeadArrived(row: Lead)
    | LeadReviewed(l: nat, action: ReviewAction)
    | LeadRequalified(l: nat, leadStatus: LeadStatus, leadClass: Option<LeadClass>, qualification: Option<real>)
    | ReturnOpened(l: nat, p: nat)
    | ReturnReviewed(q: nat, decision: Decision)
    | TimePassed(ticks: nat, days: nat, months: nat)
    | RunStarted(l: nat, abMin: real, holdMin: real)
    | RunMoved(r: nat, move: Move)

  /** The steps of one auction run, in the order a complete run takes them. */
  datatype Move =
    | StoreBarred
    | CheckSale
    | SelectBuyers
    | ScreenBuyer(b: nat, matches: bool)
    | FinishScreening
    | ReceiveBids(replies: seq<PingResponse>)
    | CheckKey
    | ReserveWallet
    | SendPost
    | HearAnswer(ok: bool)
    | StoreOutcome
    | StoreCredit
    | StoreLoss
    | Crash

  function Advance(s: Sys, r: nat, phase: Phase): Sys
    requires r < |s.runs|
  {
    s.(runs := s.runs[r := s.runs[r].(phase := phase)])
  }

  // ---------------------------------------------------------------- caps

  /** The two budgets of a buyer: sales per day and money per month. */
  datatype Period = Day | Month

  function IndexOf(period: Period, at: Stamp): nat {
    if period.Day? then at.day else at.month
  }

  function LimitOf(period: Period, row: Buyer): nat {
    if period.Day? then row.dailyCap else row.monthlyBudget
  }

  function UsageOf(period: Period, e: BillingEvent): int {
    if period.Day? then 1 else e.amount
  }

  /** What the cap query adds up: posted events of buyer b since the start of period number i. */
  function UsedSince(period: Period, b: nat, i: nat): BillingEvent -> int {
    (e: BillingEvent) =>
      if e.buyer == b && e.kind == LeadPosted && IndexOf(period, e.at) >= i then UsageOf(period, e) else 0
  }

  predicate WithinCap(s: Sys, b: nat, row: Buyer, period: Period) {
    Sum(s.db.billing, UsedSince(period, b, IndexOf(period, s.now))) < LimitOf(period, row)
  }

  // ---------------------------------------------------------------- steps

  function Apply(s: Sys, step: Step): Sys {
    match step
    case BuyerCreated(deposit, cap, budget) =>
      if cap < 1 then s else s.(db := CreateBuyer(s.db, deposit, cap, budget, s.now))
    case BuyerUpdated(b, status, cap, budget) =>
      if b >= |s.db.buyers| || cap < 1 then s
      else s.(db := s.db.(buyers := s.db.buyers[b :=
             s.db.buyers[b].(status := status, dailyCap := cap, monthlyBudget := budget)]))
    case DepositMade(b, amount) =>
      if amount == 0 then s else Commit(s, AddDeposit(s.db, b, amount, s.now))
    case LeadArrived(row) => s.(db := s.db.(leads := s.db.leads + [row]))
    case LeadReviewed(l, action) => Commit(s, ReviewLead(s.db, l, action))
    case LeadRequalified(l, leadStatus, leadClass, qualification) =>
      if l >= |s.db.leads| then s
      else s.(db := s.db.(leads := s.db.leads[l :=
             s.db.leads[l].(status := leadStatus, leadClass := leadClass, qualification := qualification)]))
    case ReturnOpened(l, p) =>
      if IsLatestSale(s.db, l, p) then Commit(s, OpenReturn(s.db, l, p)) else s
    case ReturnReviewed(q, decision) => Commit(s, ReviewReturn(s.db, q, decision, s.now))
    case TimePassed(ticks, days, months) =>
      s.(now := Stamp(s.now.tick + ticks, s.now.day + days, s.now.month + months))
    case RunStarted(l, abMin, holdMin) =>
      if l >= |s.db.leads| then s else s.(runs := s.runs + [NewRun(s.db.leads[l], l, abMin, holdMin)])
    case RunMoved(r, move) =>
      if r >= |s.runs| || s.runs[r].crashed then s else ApplyMove(s, r, move)
  }

  /** A rolled-back transaction leaves the state as it was. */
  function Commit(s: Sys, outcome: Result<Db>): Sys {
    if outcome.Ok? then s.(db := outcome.value) else s
  }

  /** A run loads its lead and puts it through the gate. */
  function NewRun(row: Lead, l: nat, abMin: real, holdMin: real): Run {
    var (allowed, reason) := GateVerdict(row, abMin, holdMin);
    Run(l, row.leadClass, map[], if allowed then Opened else Barred(reason), false)
  }

  /** Buyers a run loads: active and funded. */
  function Funded(db: Db): map<nat, Buyer> {
    map b: nat | 0 <= b < |db.buyers| && db.buyers[b].status == Active && db.buyers[b].balance > 0 :: db.buyers[b]
  }

  function ApplyMove(s: Sys, r: nat, move: Move): Sys
    requires r < |s.runs|
  {
    var run := s.runs[r];
    match move
    case StoreBarred =>
      if run.phase.Barred?
      then Advance(s.(db := PersistUnauctionable(s.db, run.lead, run.phase.reason, run.leadClass)), r, Finished)
      else s
    case CheckSale =>
      if run.phase.Opened? then Advance(s, r, if HasSale(s.db, run.lead) then Finished else Selecting) else s
    case SelectBuyers =>
      if run.phase.Selecting? then Advance(s, r, Screening(Funded(s.db))) else s
    case ScreenBuyer(b, matches) =>
      if run.phase.Screening? && b in run.phase.pending then Screen(s, r, b, matches) else s
    case FinishScreening =>
      if run.phase.Screening? && run.phase.pending == map[]
      then Advance(s, r, if run.eligible == map[] then Finished else Soliciting)
      else s
    case ReceiveBids(replies) =>
      if run.phase.Soliciting? && FromPinged(replies, run.eligible) then
        var winner := PickWinner(replies, run.eligible);
        Advance(s, r, if winner.Some? then Chosen(winner.value.buyer, BidOf(winner.value)) else Losing)
      else s
    case CheckKey =>
      if run.phase.Chosen?
      then Advance(s, r, if HasDeliveryKey(s.db, run.lead, run.phase.buyer, run.phase.bid) then Finished
                         else Keyed(run.phase.buyer, run.phase.bid))
      else s
    case ReserveWallet =>
      if !run.phase.Keyed? then s
      else if CanReserve(s.db, run.phase.buyer, run.phase.bid)
      then Advance(s.(db := Reserve(s.db, run.phase.buyer, run.lead, run.phase.bid, s.now)), r,
                   Reserved(run.phase.buyer, run.phase.bid))
      else Advance(s, r, Refused(run.phase.buyer, run.phase.bid))
    case SendPost =>
      if run.phase.Reserved?
      then Advance(s.(outbox := s.outbox + [Sent(r, run.lead, run.phase.buyer, run.phase.bid)]), r,
                   Posting(run.phase.buyer, run.phase.bid))
      else s
    case HearAnswer(ok) =>
      if run.phase.Posting? then Advance(s, r, Answered(run.phase.buyer, run.phase.bid, ok)) else s
    case StoreOutcome =>
      if run.phase.Refused? then StoreOutcomeOf(s, r, run.phase.buyer, run.phase.bid, false, Finished)
      else if run.phase.Answered? then
        StoreOutcomeOf(s, r, run.phase.buyer, run.phase.bid, run.phase.delivered,
                       if run.phase.delivered then Finished else Refunding(run.phase.buyer, run.phase.bid))
      else s
    case StoreCredit =>
      if run.phase.Refunding? && run.phase.buyer < |s.db.buyers|
      then Advance(s.(db := CreditFailedDelivery(s.db, run.phase.buyer, run.lead, run.phase.bid, s.now)), r, Finished)
      else s
    case StoreLoss =>
      if run.phase.Losing? && run.lead < |s.db.leads|
      then Advance(s.(db := MarkUnsold(s.db, run.lead)), r, Finished)
      else s
    case Crash => s.(runs := s.runs[r := run.(crashed := true)])
  }

  function Screen(s: Sys, r: nat, b: nat, matches: bool): Sys
    requires r < |s.runs| && s.runs[r].phase.Screening? && b in s.runs[r].phase.pending
  {
    var run := s.runs[r];
    var row := run.phase.pending[b];
    var passes := matches && WithinCap(s, b, row, Day) && WithinCap(s, b, row, Month);
    s.(runs := s.runs[r := run.(
         eligible := if passes then run.eligible[b := row] else run.eligible,
         phase := Screening(run.phase.pending - {b}))])
  }

  /** The result transaction; a clash on the unique delivery key rolls it back and ends the run with an error. */
  function StoreOutcomeOf(s: Sys, r: nat, b: nat, bid: int, delivered: bool, next: Phase): Sys
    requires r < |s.runs|
  {
    var run := s.runs[r];
    if HasDeliveryKey(s.db, run.lead, b, bid) || run.lead >= |s.db.leads|
    then s.(runs := s.runs[r := run.(crashed := true)])
    else Advance(s.(db := StoreResult(s.db, run.lead, b, bid, delivered, s.now)), r, next)
  }

  /** What a stored outcome does: a post with the same lead, buyer and bid is in the way and ends the run; otherwise the
      post is added, the lead is sold or unsold, a sale is logged, and a debited run that failed has a credit to
      come. */
  lemma OutcomeIsExact(s: Sys, r: nat)
    requires r < |s.runs| && !s.runs[r].crashed && (s.runs[r].phase.Answered? || s.runs[r].phase.Refused?)
    requires s.runs[r].lead < |s.db.leads|
    ensures var run, l, b, bid := s.runs[r], s.runs[r].lead, s.runs[r].phase.buyer, s.runs[r].phase.bid;
            var ok := run.phase.Answered? && run.phase.delivered;
            Apply(s, RunMoved(r, StoreOutcome)) ==
              if exists p :: 0 <= p < |s.db.posts| && s.db.posts[p].lead == l && s.db.posts[p].buyer == b &&
                             s.db.posts[p].bid == bid
              then s.(runs := s.runs[r := run.(crashed := true)])
              else s.(
                db := s.db.(
                  posts := s.db.posts + [Post(l, b, bid, ok, false, s.now)],
                  leads := s.db.leads[l := s.db.leads[l].(status := if ok then Sold else LeadStatus.Unsold)],
                  billing := s.db.billing + if ok then [BillingEvent(b, Some(l), LeadPosted, bid, s.now)] else []),
                runs := s.runs[r := run.(phase :=
                  if ok || run.phase.Refused? then Finished else Refunding(b, bid))])
  {
    assert s.db.billing + [] == s.db.billing;
  }

  // ---------------------------------------------------------------- histories

  /** The state after a sequence of steps. */
  function Exec(s: Sys, steps: seq<Step>): Sys {
    ExecTo(s, steps, |steps|)
  }

  /** The state after the first n steps. */
  function ExecTo(s: Sys, steps: seq<Step>, n: nat): Sys
    requires n <= |steps|
  {
    if n == 0 then s else Apply(ExecTo(s, steps, n - 1), steps[n - 1])
  }

  lemma {:induction false} ExecToSame(s: Sys, steps: seq<Step>, others: seq<Step>, n: nat)
    requires n <= |steps| && n <= |others| && forall i :: 0 <= i < n ==> steps[i] == others[i]
    ensures ExecTo(s, steps, n) == ExecTo(s, others, n)
  {
    if n > 0 {
      ExecToSame(s, steps, others, n - 1);
    }
  }

  /** The last step is applied to the state after the others. */
  lemma ExecLast(s: Sys, steps: seq<Step>)
    requires |steps| > 0
    ensures Exec(s, steps) == Apply(Exec(s, steps[..|steps| - 1]), steps[|steps| - 1])
  {
    ExecToSame(s, steps, steps[..|steps| - 1], |steps| - 1);
  }

  lemma ExecNone(s: Sys)
    ensures Exec(s, []) == s
  {
  }

  lemma ExecOne(s: Sys, step: Step)
    ensures Exec(s, [step]) == Apply(s, step)
  {
    assert ExecTo(s, [step], 0) == s;
  }

  lemma ExecAppend(s: Sys, steps: seq<Step>, step: Step)
    ensures Exec(s, steps + [step]) == Apply(Exec(s, steps), step)
  {
    ExecToSame(s, steps + [step], steps, |steps|);
  }

  lemma {:induction false} ExecConcat(s: Sys, first: seq<Step>, second: seq<Step>)
    ensures Exec(s, first + second) == Exec(Exec(s, first), second)
  {
    if |second| == 0 {
      assert first + second == first;
    } else {
      var front := second[..|second| - 1];
      ExecConcat(s, first, front);
      ExecLast(Exec(s, first), second);
      ExecLast(s, first + second);
      assert (first + second)[..|first + second| - 1] == first + front;
    }
  }

  /** A first step and the rest. */
  lemma ExecCons(s: Sys, step: Step, rest: seq<Step>)
    ensures Exec(s, [step] + rest) == Exec(Apply(s, step), rest)
  {
    hide Apply;
    ExecOne(s, step);
    ExecConcat(s, [step], rest);
  }
}
