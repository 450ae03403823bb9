/** What one step can do to the money tables: a short list that covers every step, so that each law is proved
    once per kind of effect and not once per step. */
module Effects {
  import opened Market
  import opened Saga
  import opened Links

  /** Phases of a run between its debit and the row or credit that settles it. */
  predicate IsOpen(phase: Phase) {
    phase.Reserved? || phase.Posting? || phase.Answered? || phase.Refunding?
  }

  /** The run has found no earlier sale of its lead and has not finished. */
  predicate PastCheck(phase: Phase) {
    !phase.Barred? && !phase.Opened? && !phase.Finished?
  }

  /** Buyers become eligible only by passing both caps at that moment, on a row the run loaded;
      rows are loaded from the buyers table. */
  predicate ScreenedFairly(s: Sys, run: Run, run': Run) {
    && (run.crashed ==> run'.crashed) && (run.phase.Finished? ==> run'.phase.Finished?)
    && (forall b :: b in run'.eligible && b !in run.eligible ==>
          && run.phase.Screening? && b in run.phase.pending
          && WithinCap(s, b, run.phase.pending[b], Day) && WithinCap(s, b, run.phase.pending[b], Month))
    && (run'.phase.Screening? ==> forall b :: b in run'.phase.pending ==>
          || (run.phase.Screening? && b in run.phase.pending && run'.phase.pending[b] == run.phase.pending[b])
          || (b < |s.db.buyers| && run'.phase.pending[b] == s.db.buyers[b]))
  }

  datatype Effect =
    | Idle                                  // leads or the clock at most
    | Joined(run: Run)                      // a run starts
    | Moved(r: nat)                         // a run changes phase and no deal opens or closes
    | BuyerJoined(deposit: nat, cap: nat, budget: nat)
    | Configured(b: nat, status: BuyerStatus, cap: nat, budget: nat)
    | Deposited(b: nat, amount: nat)
    | Debited(r: nat)
    | Messaged(r: nat)
    | Settled(r: nat)
    | Credited(r: nat)
    | Asked(l: nat, p: nat)
    | Judged(q: nat, decision: Decision)
    | Refunded(q: nat)

  predicate SameMoney(s: Sys, s': Sys) {
    s'.db == s.db.(leads := s'.db.leads) && s'.outbox == s.outbox && |s.db.leads| <= |s'.db.leads| &&
      NotAfter(s.now, s'.now)
  }

  predicate EditsRun(s: Sys, s': Sys, r: nat) {
    && r < |s.runs| && |s'.runs| == |s.runs| && s'.runs[r].lead == s.runs[r].lead && s'.now == s.now
    && !s.runs[r].crashed
    && forall i :: 0 <= i < |s.runs| && i != r ==> s'.runs[i] == s.runs[i]
  }

  /** Run r is about to store its outcome, and the unique delivery key lets it. */
  predicate CanSettle(s: Sys, r: nat) {
    && r < |s.runs| && !s.runs[r].crashed && s.runs[r].lead < |s.db.leads|
    && (s.runs[r].phase.Refused? || s.runs[r].phase.Answered?)
    && !HasDeliveryKey(s.db, s.runs[r].lead, s.runs[r].phase.buyer, s.runs[r].phase.bid)
  }

  function SettledState(s: Sys, r: nat): Sys
    requires CanSettle(s, r)
  {
    var run := s.runs[r];
    var ok := run.phase.Answered? && run.phase.delivered;
    var next := if run.phase.Refused? || ok then Finished else Refunding(run.phase.buyer, run.phase.bid);
    Advance(s.(db := StoreResult(s.db, run.lead, run.phase.buyer, run.phase.bid, ok, s.now)), r, next)
  }

  predicate Effected(s: Sys, s': Sys, e: Effect) {
    match e
    case Idle => SameMoney(s, s') && s'.runs == s.runs
    case Joined(run) =>
      && s' == s.(runs := s.runs + [run]) && run.lead < |s.db.leads|
      && (run.phase.Opened? || run.phase.Barred?) && !run.crashed && run.eligible == map[]
    case Moved(r) =>
      && SameMoney(s, s') && EditsRun(s, s', r)
      && IsOpen(s'.runs[r].phase) == IsOpen(s.runs[r].phase)
      && s'.runs[r].phase.Reserved? == s.runs[r].phase.Reserved?
      && (IsOpen(s.runs[r].phase) ==> DealOf(s'.runs[r].phase) == DealOf(s.runs[r].phase))
      && (PastCheck(s'.runs[r].phase) ==> PastCheck(s.runs[r].phase) || !HasSale(s.db, s.runs[r].lead))
      && ScreenedFairly(s, s.runs[r], s'.runs[r])
    case BuyerJoined(deposit, cap, budget) =>
      s' == s.(db := CreateBuyer(s.db, deposit, cap, budget, s.now)) && cap >= 1
    case Configured(b, status, cap, budget) =>
      && b < |s.db.buyers| && cap >= 1
      && s' == s.(db := s.db.(buyers := s.db.buyers[b :=
           s.db.buyers[b].(status := status, dailyCap := cap, monthlyBudget := budget)]))
    case Deposited(b, amount) =>
      amount > 0 && b < |s.db.buyers| && AddDeposit(s.db, b, amount, s.now).Ok? &&
        s' == s.(db := AddDeposit(s.db, b, amount, s.now).value)
    case Debited(r) =>
      && r < |s.runs| && !s.runs[r].crashed && s.runs[r].phase.Keyed? &&
           CanReserve(s.db, s.runs[r].phase.buyer, s.runs[r].phase.bid)
      && s' == Advance(s.(db := Reserve(s.db, s.runs[r].phase.buyer, s.runs[r].lead, s.runs[r].phase.bid, s.now)), r,
                       Reserved(s.runs[r].phase.buyer, s.runs[r].phase.bid))
    case Messaged(r) =>
      && r < |s.runs| && !s.runs[r].crashed && s.runs[r].phase.Reserved?
      && s' == Advance(s.(outbox := s.outbox +
           [Sent(r, s.runs[r].lead, s.runs[r].phase.buyer, s.runs[r].phase.bid)]), r,
                       Posting(s.runs[r].phase.buyer, s.runs[r].phase.bid))
    case Settled(r) => CanSettle(s, r) && s' == SettledState(s, r)
    case Credited(r) =>
      && r < |s.runs| && !s.runs[r].crashed && s.runs[r].phase.Refunding? && s.runs[r].phase.buyer < |s.db.buyers|
      && s' == Advance(s.(db := CreditFailedDelivery(s.db, s.runs[r].phase.buyer, s.runs[r].lead,
           s.runs[r].phase.bid, s.now)), r, Finished)
    case Asked(l, p) =>
      IsLatestSale(s.db, l, p) && OpenReturn(s.db, l, p).Ok? && s' == s.(db := OpenReturn(s.db, l, p).value)
    case Judged(q, decision) =>
      && q < |s.db.requests| && IsActive(s.db.requests[q].status) && decision != Approve
      && s' == s.(db := s.db.(requests := s.db.requests[q :=
                  s.db.requests[q].(status := if decision == Hold then Held else Declined)]))
    case Refunded(q) =>
      && q < |s.db.requests| && IsActive(s.db.requests[q].status)
      && s.db.requests[q].post < |s.db.posts| && s.db.requests[q].buyer < |s.db.buyers|
      && !s.db.posts[s.db.requests[q].post].returned
      && s' == s.(db := ApproveReturn(s.db, q, s.now))
  }

  lemma QuietMove(s: Sys, r: nat, move: Move)
    requires r < |s.runs| && !s.runs[r].crashed
    requires !move.ReserveWallet? && !move.SendPost? && !move.StoreOutcome? && !move.StoreCredit? && !move.ScreenBuyer?
    ensures Effected(s, ApplyMove(s, r, move), Moved(r))
  {
  }

  lemma ScreeningMove(s: Sys, r: nat, b: nat, matches: bool)
    requires r < |s.runs| && !s.runs[r].crashed
    ensures Effected(s, ApplyMove(s, r, ScreenBuyer(b, matches)), Moved(r))
  {
  }

  lemma OutcomeMove(s: Sys, r: nat)
    requires r < |s.runs| && !s.runs[r].crashed
    ensures Effected(s, ApplyMove(s, r, StoreOutcome), if CanSettle(s, r) then Settled(r) else Moved(r))
  {
  }

  lemma MoveEffect(s: Sys, r: nat, move: Move) returns (e: Effect)
    requires r < |s.runs| && !s.runs[r].crashed
    ensures Effected(s, ApplyMove(s, r, move), e)
  {
    e := Moved(r);
    var run := s.runs[r];
    match move {
      case ReserveWallet =>
        if run.phase.Keyed? && CanReserve(s.db, run.phase.buyer, run.phase.bid) { e := Debited(r); }
      case SendPost =>
        if run.phase.Reserved? { e := Messaged(r); }
      case StoreOutcome =>
        OutcomeMove(s, r);
        if CanSettle(s, r) { e := Settled(r); }
      case StoreCredit =>
        if run.phase.Refunding? && run.phase.buyer < |s.db.buyers| { e := Credited(r); }
      case ScreenBuyer(b, matches) => ScreeningMove(s, r, b, matches);
      case _ => QuietMove(s, r, move);
    }
  }

  lemma BuyerStepEffect(s: Sys, step: Step) returns (e: Effect)
    requires step.BuyerCreated? || step.BuyerUpdated? || step.DepositMade?
    ensures Effected(s, Apply(s, step), e)
  {
    e := Idle;
    match step {
      case BuyerCreated(deposit, cap, budget) => if cap >= 1 { e := BuyerJoined(deposit, cap, budget); }
      case BuyerUpdated(b, status, cap, budget) =>
        if b < |s.db.buyers| && cap >= 1 { e := Configured(b, status, cap, budget); }
      case DepositMade(b, amount) => if amount > 0 && b < |s.db.buyers| { e := Deposited(b, amount); }
    }
  }

  lemma ReturnStepEffect(s: Sys, step: Step) returns (e: Effect)
    requires step.ReturnOpened? || step.ReturnReviewed?
    ensures Effected(s, Apply(s, step), e)
  {
    e := Idle;
    match step {
      case ReturnOpened(l, p) =>
        if IsLatestSale(s.db, l, p) && OpenReturn(s.db, l, p).Ok? { e := Asked(l, p); }
      case ReturnReviewed(q, decision) =>
        if ReviewReturn(s.db, q, decision, s.now).Ok? {
          e := if decision == Approve then Refunded(q) else Judged(q, decision);
        }
    }
  }

  lemma LeadStepEffect(s: Sys, step: Step) returns (e: Effect)
    requires step.LeadArrived? || step.LeadReviewed? || step.LeadRequalified? || step.TimePassed? || step.RunStarted?
    ensures Effected(s, Apply(s, step), e)
  {
    e := Idle;
    if step.RunStarted? && step.l < |s.db.leads| {
      e := Joined(NewRun(s.db.leads[step.l], step.l, step.abMin, step.holdMin));
    }
  }

  /** Every step has one of the listed effects. */
  lemma StepEffect(s: Sys, step: Step) returns (e: Effect)
    ensures Effected(s, Apply(s, step), e)
  {
    match step {
      case BuyerCreated(_, _, _) => e := BuyerStepEffect(s, step);
      case BuyerUpdated(_, _, _, _) => e := BuyerStepEffect(s, step);
      case DepositMade(_, _) => e := BuyerStepEffect(s, step);
      case ReturnOpened(_, _) => e := ReturnStepEffect(s, step);
      case ReturnReviewed(_, _) => e := ReturnStepEffect(s, step);
      case RunMoved(r, move) =>
        e := Idle;
        if r < |s.runs| && !s.runs[r].crashed { e := MoveEffect(s, r, move); }
      case _ => e := LeadStepEffect(s, step);
    }
  }
}
