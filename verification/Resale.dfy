/** When a sold lead can be sold again: while a live run past its check still holds a chance. */
module Resale {
  import opened Market
  import opened Bidding
  import opened Saga
  import opened Links
  import opened Effects
  import opened Ledger
  import opened Caps
  import opened Serial
  import opened Sums
  import Guardrails
  import Scripts

  /** Run r of lead l lives and can still come to store a sale: it has still to choose a deal and somebody to
      choose from, or its deal was not tried before and has not failed. */
  predicate HasChance(s: Sys, r: nat, l: nat) {
    && r < |s.runs| && s.runs[r].lead == l && !s.runs[r].crashed
    && match s.runs[r].phase
       case Selecting => true
       case Screening(pending) => s.runs[r].eligible != map[] || pending != map[]
       case Soliciting => s.runs[r].eligible != map[]
       case Chosen(b, bid) => !HasDeliveryKey(s.db, l, b, bid)
       case Keyed(b, bid) => !HasDeliveryKey(s.db, l, b, bid)
       case Reserved(b, bid) => !HasDeliveryKey(s.db, l, b, bid)
       case Posting(b, bid) => !HasDeliveryKey(s.db, l, b, bid)
       case Answered(b, bid, delivered) => delivered && !HasDeliveryKey(s.db, l, b, bid)
       case _ => false
  }

  predicate SomeChance(s: Sys, l: nat) {
    exists r :: 0 <= r < |s.runs| && HasChance(s, r, l)
  }

  // ---------------------------------------------------------------- without a chance nothing is sold

  /** Posts keep their keys, whatever happens to them. */
  predicate KeysKept(db: Db, db': Db) {
    && |db.posts| <= |db'.posts|
    && forall p :: 0 <= p < |db.posts| ==>
         db'.posts[p].lead == db.posts[p].lead && db'.posts[p].buyer == db.posts[p].buyer &&
           db'.posts[p].bid == db.posts[p].bid
  }

  lemma KeyStays(db: Db, db': Db, l: nat, b: nat, bid: int)
    requires KeysKept(db, db') && HasDeliveryKey(db, l, b, bid)
    ensures HasDeliveryKey(db', l, b, bid)
  {
    var p :| 0 <= p < |db.posts| && db.posts[p].lead == l && db.posts[p].buyer == b && db.posts[p].bid == bid;
    assert db'.posts[p].lead == l;
  }

  lemma StepKeepsKeys(s: Sys, step: Step)
    ensures KeysKept(s.db, Apply(s, step).db)
  {
    hide HasDeliveryKey, HasSale, WithinCap;
    var e := StepEffect(s, step);
  }

  /** A run that does not move gains no chance. */
  lemma NoChanceGained(s: Sys, s': Sys, r: nat, l: nat)
    requires KeysKept(s.db, s'.db) && !HasChance(s, r, l)
    requires r < |s.runs| && r < |s'.runs| && s'.runs[r] == s.runs[r]
    ensures !HasChance(s', r, l)
  {
    hide HasDeliveryKey, KeysKept;
    var deal := DealOf(s.runs[r].phase);
    if deal.Some? && HasDeliveryKey(s.db, l, deal.value.0, deal.value.1) {
      KeyStays(s.db, s'.db, l, deal.value.0, deal.value.1);
    }
  }

  /** Once the lead is sold, a run without a chance does not move into one. */
  lemma NoChanceMove(s: Sys, r: nat, move: Move, l: nat)
    requires HasSale(s.db, l) && r < |s.runs| && !HasChance(s, r, l)
    ensures !HasChance(Apply(s, RunMoved(r, move)), r, l)
  {
    hide PickWinner, FromPinged, WithinCap, CanReserve, HasDeliveryKey;
    StepKeepsKeys(s, RunMoved(r, move));
    var deal := DealOf(s.runs[r].phase);
    if deal.Some? && HasDeliveryKey(s.db, l, deal.value.0, deal.value.1) {
      KeyStays(s.db, Apply(s, RunMoved(r, move)).db, l, deal.value.0, deal.value.1);
    }
    if move.ReceiveBids? && FromPinged(move.replies, s.runs[r].eligible) {
      WinnerWasPinged(move.replies, s.runs[r].eligible);
    }
    if move.ScreenBuyer? && s.runs[r].phase.Screening? {
      assert s.runs[r].phase.pending == map[] ==> move.b !in s.runs[r].phase.pending;
    }
  }

  lemma OthersStay(s: Sys, step: Step, r: nat)
    requires r < |s.runs| && (step.RunMoved? ==> step.r != r)
    ensures var s' := Apply(s, step); r < |s'.runs| && s'.runs[r] == s.runs[r]
  {
    hide PickWinner, FromPinged, WithinCap, CanReserve, HasDeliveryKey, HasSale;
  }

  lemma NewRunsHaveNoChance(s: Sys, step: Step, r: nat, l: nat)
    requires |s.runs| <= r
    ensures !HasChance(Apply(s, step), r, l)
  {
    hide HasDeliveryKey;
    var e := StepEffect(s, step);
  }

  lemma NoChanceStep(s: Sys, step: Step, l: nat)
    requires HasSale(s.db, l) && !SomeChance(s, l)
    ensures !SomeChance(Apply(s, step), l)
  {
    hide HasChance, Apply, ApplyMove, HasSale;
    StepKeepsKeys(s, step);
    forall r | 0 <= r < |Apply(s, step).runs| ensures !HasChance(Apply(s, step), r, l) {
      if r >= |s.runs| {
        NewRunsHaveNoChance(s, step, r, l);
      } else if step.RunMoved? && step.r == r {
        NoChanceMove(s, r, step.move, l);
      } else {
        OthersStay(s, step, r);
        NoChanceGained(s, Apply(s, step), r, l);
      }
    }
  }

  /** Without a chance no step adds a sale. */
  lemma NoSaleWithoutChance(s: Sys, step: Step, l: nat)
    requires !SomeChance(s, l)
    ensures Sum(Apply(s, step).db.posts, SaleOf(l)) == Sum(s.db.posts, SaleOf(l))
  {
    hide HasDeliveryKey, Apply;
    var e := StepEffect(s, step);
    SumPosts(s, Apply(s, step), e, SaleOf(l));
    if e.Settled? {
      assert !HasChance(s, e.r, l);
    }
  }

  lemma {:induction false} NoSaleEver(s: Sys, more: seq<Step>, l: nat)
    requires HasSale(s.db, l) && !SomeChance(s, l)
    ensures HasSale(Exec(s, more).db, l) && !SomeChance(Exec(s, more), l)
    ensures Sum(Exec(s, more).db.posts, SaleOf(l)) == Sum(s.db.posts, SaleOf(l))
  {
    hide Apply, SomeChance, HasSale;
    if |more| == 0 {
      assert more == [];
      ExecNone(s);
    } else {
      var front, last := more[..|more| - 1], more[|more| - 1];
      ExecLast(s, more);
      NoSaleEver(s, front, l);
      NoChanceStep(Exec(s, front), last, l);
      NoSaleWithoutChance(Exec(s, front), last, l);
      SaleStays(Exec(s, front), last, l);
    }
  }

  // ---------------------------------------------------------------- driving a run to a sale

  /** What the monthly cap query of buyer b adds up now. */
  function MonthUse(s: Sys, b: nat): int {
    Sum(s.db.billing, UsedSince(Month, b, s.now.month))
  }

  /** Run r may have moved on, and wallets may have changed, but nothing that a sale of its lead depends on. */
  predicate Primed(s: Sys, s': Sys, r: nat, b: nat) {
    && r < |s.runs| && |s'.runs| == |s.runs| && s'.runs[r].lead == s.runs[r].lead
    && (forall i :: 0 <= i < |s.runs| && i != r ==> s'.runs[i] == s.runs[i])
    && s'.db.posts == s.db.posts && |s'.db.leads| == |s.db.leads| && |s'.db.buyers| == |s.db.buyers|
    && s'.now == s.now && MonthUse(s', b) == MonthUse(s, b)
  }

  /** Run r has sold its lead to b for bid, and no other run has moved. */
  predicate SaleMade(s: Sys, s': Sys, r: nat, b: nat, bid: int) {
    && r < |s.runs| && |s'.runs| == |s.runs|
    && (forall i :: 0 <= i < |s.runs| && i != r ==> s'.runs[i] == s.runs[i])
    && s'.db.posts == s.db.posts + [Post(s.runs[r].lead, b, bid, true, false, s.now)]
    && |s'.db.leads| == |s.db.leads| && |s'.db.buyers| == |s.db.buyers|
    && s'.now == s.now && MonthUse(s', b) == MonthUse(s, b) + bid
  }

  /** Run r is live, in the given phase, and its lead exists. */
  predicate At(s: Sys, r: nat, phase: Phase) {
    r < |s.runs| && !s.runs[r].crashed && s.runs[r].phase == phase && s.runs[r].lead < |s.db.leads|
  }

  lemma MoveOn(s: Sys, r: nat, b: nat, phase: Phase)
    requires r < |s.runs| && !s.runs[r].crashed && s.runs[r].lead < |s.db.leads|
    ensures Primed(s, Advance(s, r, phase), r, b) && At(Advance(s, r, phase), r, phase)
  {
  }

  lemma SameKeys(db: Db, db': Db, l: nat, b: nat, bid: int)
    requires db'.posts == db.posts
    ensures HasDeliveryKey(db', l, b, bid) == HasDeliveryKey(db, l, b, bid)
  {
  }

  /** s with buyer b active and at least bid in its wallet. */
  function Topped(s: Sys, b: nat, bid: int): Sys
    requires b < |s.db.buyers|
  {
    var amount := TopUp(s, b, bid);
    Apply(Apply(s, BuyerUpdated(b, Active, 1, 1)), DepositMade(b, amount))
  }

  function TopUp(s: Sys, b: nat, bid: int): nat
    requires b < |s.db.buyers|
  {
    if s.db.buyers[b].balance >= bid then 0 else bid - s.db.buyers[b].balance
  }

  lemma TopUpWorks(s: Sys, r: nat, b: nat, bid: int)
    requires b < |s.db.buyers| && r < |s.runs|
    ensures var s' := Topped(s, b, bid);
            && Primed(s, s', r, b) && s'.runs == s.runs && s'.db.requests == s.db.requests && s'.outbox == s.outbox
            && s'.db.leads == s.db.leads && CanReserve(s'.db, b, bid)
            && s'.db.buyers[b].dailyCap == 1 && s'.db.buyers[b].monthlyBudget == 1
  {
    var amount := TopUp(s, b, bid);
    SumAppend(s.db.billing, BillingEvent(b, None, DepositAdded, amount, s.now), UsedSince(Month, b, s.now.month));
  }

  /** A run that has still to debit can: buyer b is activated and its wallet filled up first. */
  lemma KeyedOn(s: Sys, r: nat, b: nat, bid: int) returns (steps: seq<Step>)
    requires At(s, r, Keyed(b, bid)) && b < |s.db.buyers|
    ensures Primed(s, Exec(s, steps), r, b) && At(Exec(s, steps), r, Reserved(b, bid))
  {
    steps := [BuyerUpdated(b, Active, 1, 1), DepositMade(b, TopUp(s, b, bid)), RunMoved(r, ReserveWallet)];
    var s2 := Topped(s, b, bid);
    TopUpWorks(s, r, b, bid);
    Scripts.ExecThree(s, steps);
    hide Exec;
    SumAppend(s2.db.billing, BillingEvent(b, Some(s2.runs[r].lead), LeadReserved, -bid, s2.now),
              UsedSince(Month, b, s2.now.month));
  }

  /** How many phases a deal is away from its answer. */
  function PhasesLeft(phase: Phase): nat {
    match phase
    case Chosen(_, _) => 4
    case Keyed(_, _) => 3
    case Reserved(_, _) => 2
    case Posting(_, _) => 1
    case _ => 0
  }

  /** Run r has a deal that has still to be answered, or was answered well. */
  predicate HasDeal(s: Sys, r: nat, b: nat, bid: int) {
    && r < |s.runs| && !s.runs[r].crashed && s.runs[r].lead < |s.db.leads| && b < |s.db.buyers|
    && DealOf(s.runs[r].phase) == Some((b, bid))
    && (PhasesLeft(s.runs[r].phase) > 0 || (s.runs[r].phase.Answered? && s.runs[r].phase.delivered))
  }

  /** A deal comes one phase further. */
  lemma DealOn(s: Sys, r: nat, b: nat, bid: int) returns (steps: seq<Step>)
    requires HasDeal(s, r, b, bid) && !HasDeliveryKey(s.db, s.runs[r].lead, b, bid) && !s.runs[r].phase.Answered?
    ensures var s' := Exec(s, steps);
            && Primed(s, s', r, b) && HasDeal(s', r, b, bid)
            && PhasesLeft(s'.runs[r].phase) < PhasesLeft(s.runs[r].phase)
  {
    hide HasDeliveryKey;
    if s.runs[r].phase.Keyed? {
      hide Apply, Exec;
      steps := KeyedOn(s, r, b, bid);
    } else {
      var move := if s.runs[r].phase.Chosen? then CheckKey
                  else if s.runs[r].phase.Reserved? then SendPost else HearAnswer(true);
      steps := [RunMoved(r, move)];
      ExecOne(s, RunMoved(r, move));
    }
  }

  lemma {:induction false} FromDeal(s: Sys, r: nat, b: nat, bid: int) returns (more: seq<Step>)
    requires HasDeal(s, r, b, bid) && !HasDeliveryKey(s.db, s.runs[r].lead, b, bid)
    ensures SaleMade(s, Exec(s, more), r, b, bid)
    decreases PhasesLeft(s.runs[r].phase)
  {
    if s.runs[r].phase.Answered? {
      more := [RunMoved(r, StoreOutcome)];
      ExecOne(s, RunMoved(r, StoreOutcome));
      SumAppend(s.db.billing, BillingEvent(b, Some(s.runs[r].lead), LeadPosted, bid, s.now),
        UsedSince(Month, b, s.now.month));
    } else {
      hide Apply, Exec, HasDeliveryKey, MonthUse;
      var steps := DealOn(s, r, b, bid);
      SameKeys(s.db, Exec(s, steps).db, s.runs[r].lead, b, bid);
      more := FromDeal(Exec(s, steps), r, b, bid);
      ExecConcat(s, steps, more);
      more := steps + more;
    }
  }

  /** Buyer b is eligible for run r, on a row that covers the bid. */
  predicate CanBid(s: Sys, r: nat, b: nat, bid: int) {
    && r < |s.runs| && b in s.runs[r].eligible && s.runs[r].eligible[b].balance >= bid && bid != 0 && b < |s.db.buyers|
    && !HasDeliveryKey(s.db, s.runs[r].lead, b, bid)
  }

  lemma SingleBidWins(s: Sys, r: nat, b: nat, bid: int)
    requires At(s, r, Soliciting) && CanBid(s, r, b, bid)
    ensures Apply(s, RunMoved(r, ReceiveBids([PingResponse(b, true, Some(bid), 1)]))) == Advance(s, r, Chosen(b, bid))
  {
    WinnerIsPicked([PingResponse(b, true, Some(bid), 1)], s.runs[r].eligible, 0);
  }

  /** How many buyers run r has still to screen, and whether it has still to ask for bids. */
  function ToScreen(phase: Phase): nat {
    if phase.Screening? then |phase.pending| + 1 else 0
  }

  /** Before it asks for bids run r screens out a loaded buyer, or finishes. */
  lemma ScreenOn(s: Sys, r: nat, b: nat) returns (step: Step, next: Phase)
    requires r < |s.runs| && At(s, r, s.runs[r].phase) && s.runs[r].phase.Screening? && b in s.runs[r].eligible
    ensures Apply(s, step) == Advance(s, r, next)
    ensures (next.Screening? || next.Soliciting?) && ToScreen(next) < ToScreen(s.runs[r].phase)
  {
    var pending := s.runs[r].phase.pending;
    if pending == map[] {
      step, next := RunMoved(r, FinishScreening), Soliciting;
      assert s.runs[r].eligible != map[];
    } else {
      var c :| c in pending;
      step, next := RunMoved(r, ScreenBuyer(c, false)), Screening(pending - {c});
      assert (pending - {c}).Keys == pending.Keys - {c};
    }
  }

  /** With somebody eligible the other loaded buyers are screened out and the run goes on to sell. */
  lemma {:induction false} FromEligible(s: Sys, r: nat, b: nat, bid: int) returns (more: seq<Step>)
    requires CanBid(s, r, b, bid) && At(s, r, s.runs[r].phase)
    requires s.runs[r].phase.Screening? || s.runs[r].phase.Soliciting?
    ensures SaleMade(s, Exec(s, more), r, b, bid)
    decreases ToScreen(s.runs[r].phase)
  {
    hide Apply, Exec, HasDeliveryKey;
    var step, next;
    if s.runs[r].phase.Soliciting? {
      step, next := RunMoved(r, ReceiveBids([PingResponse(b, true, Some(bid), 1)])), Chosen(b, bid);
      SingleBidWins(s, r, b, bid);
      MoveOn(s, r, b, next);
      more := FromDeal(Advance(s, r, next), r, b, bid);
    } else {
      step, next := ScreenOn(s, r, b);
      MoveOn(s, r, b, next);
      more := FromEligible(Advance(s, r, next), r, b, bid);
    }
    ExecCons(s, step, more);
    more := [step] + more;
  }

  /** Buyer b is loaded on a row within its caps that covers the bid. */
  predicate CanPass(s: Sys, b: nat, row: Buyer) {
    WithinCap(s, b, row, Day) && WithinCap(s, b, row, Month)
  }

  lemma PassStep(s: Sys, r: nat, pending: map<nat, Buyer>, b: nat)
    requires At(s, r, Screening(pending)) && b in pending && CanPass(s, b, pending[b])
    ensures var s' := Apply(s, RunMoved(r, ScreenBuyer(b, true)));
            && Primed(s, s', r, b) && At(s', r, Screening(pending - {b})) && s'.db == s.db
            && b in s'.runs[r].eligible && s'.runs[r].eligible[b] == pending[b]
  {
    hide WithinCap;
  }

  lemma FromPending(s: Sys, r: nat, pending: map<nat, Buyer>, b: nat, bid: int) returns (more: seq<Step>)
    requires At(s, r, Screening(pending)) && b in pending && CanPass(s, b, pending[b])
    requires pending[b].balance >= bid && bid != 0 && b < |s.db.buyers| && !HasDeliveryKey(s.db, s.runs[r].lead, b, bid)
    ensures SaleMade(s, Exec(s, more), r, b, bid)
  {
    var step := RunMoved(r, ScreenBuyer(b, true));
    PassStep(s, r, pending, b);
    hide Apply, Exec, HasDeliveryKey;
    more := FromEligible(Apply(s, step), r, b, bid);
    ExecCons(s, step, more);
    more := [step] + more;
  }

  /** A negative bid that no post carries yet. */
  lemma FreshBid(db: Db, l: nat, b: nat, most: int) returns (bid: int)
    ensures bid < 0 && bid <= most && !HasDeliveryKey(db, l, b, bid)
  {
    bid := BelowAll(db.posts, |db.posts|, if most < 0 then most else -1);
  }

  lemma {:induction false} BelowAll(posts: seq<Post>, n: nat, most: int) returns (bid: int)
    requires n <= |posts|
    ensures bid <= most && forall p :: 0 <= p < n ==> posts[p].bid > bid
  {
    if n == 0 {
      bid := most;
    } else {
      bid := BelowAll(posts, n - 1, most);
      bid := if posts[n - 1].bid > bid then bid else posts[n - 1].bid - 1;
    }
  }

  // ---------------------------------------------------------------- room within the caps

  lemma {:induction false} LinkedAfter(s: Sys, more: seq<Step>)
    requires Linked(s)
    ensures Linked(Exec(s, more))
  {
    hide Apply, Linked;
    if |more| == 0 {
      assert more == [];
      ExecNone(s);
    } else {
      ExecLast(s, more);
      LinkedAfter(s, more[..|more| - 1]);
      LinkedStep(Exec(s, more[..|more| - 1]), more[|more| - 1]);
    }
  }

  /** s at the start of a new day and, if asked for, a new month. */
  function Later(s: Sys, months: nat): Sys {
    s.(now := Stamp(s.now.tick, s.now.day + 1, s.now.month + months))
  }

  /** A new period has not been used yet. */
  lemma FreshPeriod(s: Sys, months: nat, b: nat, row: Buyer)
    requires Linked(s) && row.dailyCap >= 1
    ensures Apply(s, TimePassed(0, 1, months)) == Later(s, months) && Linked(Later(s, months))
    ensures WithinCap(Later(s, months), b, row, Day)
    ensures months > 0 ==> MonthUse(Later(s, months), b) == 0
    ensures months == 0 ==> MonthUse(Later(s, months), b) == MonthUse(s, b)
  {
    var s' := Later(s, months);
    LinkedStep(s, TimePassed(0, 1, months));
    NothingFromTheFuture(s, Day, b, s'.now.day);
    NothingFromTheFuture(s', Day, b, s'.now.day);
    assert Used(s', Day, b, s'.now.day) == Used(s, Day, b, s'.now.day);
    if months > 0 {
      NothingFromTheFuture(s, Month, b, s'.now.month);
      NothingFromTheFuture(s', Month, b, s'.now.month);
      assert Used(s', Month, b, s'.now.month) == Used(s, Month, b, s'.now.month);
    }
  }

  /** s with one more lead and a run of it that has loaded the buyers. */
  function Loaded(s: Sys): Sys {
    s.(db := s.db.(leads := s.db.leads + [Scripts.GOOD_LEAD]),
       runs := s.runs + [Run(|s.db.leads|, None, map[], Screening(Funded(s.db)), false)])
  }

  function LoadSteps(s: Sys): seq<Step> {
    [LeadArrived(Scripts.GOOD_LEAD), RunStarted(|s.db.leads|, 0.0, 0.0), RunMoved(|s.runs|, CheckSale),
     RunMoved(|s.runs|, SelectBuyers)]
  }

  lemma LoadWorks(s: Sys)
    requires Linked(s)
    ensures Exec(s, LoadSteps(s)) == Loaded(s)
  {
    var steps, r := LoadSteps(s), |s.runs|;
    var s1 := s.(db := s.db.(leads := s.db.leads + [Scripts.GOOD_LEAD]));
    var run := Run(|s.db.leads|, None, map[], Opened, false);
    assert Apply(s, steps[0]) == s1;
    assert Apply(s1, steps[1]) == s1.(runs := s1.runs + [run]);
    forall p | 0 <= p < |s1.db.posts| ensures s1.db.posts[p].lead != run.lead {
      assert PostLinked(s.db, s.db.posts[p]);
    }
    var s2 := s1.(runs := s1.runs + [run]);
    var s3 := s1.(runs := s1.runs + [run.(phase := Selecting)]);
    assert s2.runs[r := run.(phase := Selecting)] == s3.runs;
    assert Apply(s2, steps[2]) == s3;
    assert s3.runs[r := run.(phase := Screening(Funded(s.db)))] == Loaded(s).runs;
    assert Funded(s3.db) == Funded(s.db);
    assert Apply(s3, steps[3]) == Loaded(s);
    Scripts.ExecFour(s, steps);
  }

  /** Other runs and the sales of other leads go on as they were. */
  predicate Undisturbed(s: Sys, s': Sys) {
    && s.runs <= s'.runs && |s.db.leads| <= |s'.db.leads| && |s.db.buyers| <= |s'.db.buyers|
    && forall l: nat :: l < |s.db.leads| ==> Sum(s'.db.posts, SaleOf(l)) == Sum(s.db.posts, SaleOf(l))
  }

  /** A funded buyer in a month that has not been used, loaded by a run of a new lead. */
  lemma Prepare(s: Sys, b: nat) returns (more: seq<Step>)
    requires Linked(s) && b < |s.db.buyers|
    ensures var s' := Exec(s, more);
            var r, pending := |s.runs|, Funded(s'.db);
            && Linked(s') && Undisturbed(s, s') && s'.db.posts == s.db.posts
            && At(s', r, Screening(pending)) && s'.runs[r].lead == |s.db.leads| && |s'.runs| == r + 1
            && b in pending && pending[b].balance >= 1 && CanPass(s', b, pending[b]) && MonthUse(s', b) == 0
  {
    var first := [BuyerUpdated(b, Active, 1, 1), DepositMade(b, TopUp(s, b, 1)), TimePassed(0, 1, 1)];
    var s1 := Topped(s, b, 1);
    ToppedRow(s, b);
    Scripts.ExecThree(s, first);
    LinkedStep(s, first[0]);
    LinkedStep(Apply(s, first[0]), first[1]);
    FreshPeriod(s1, 1, b, s1.db.buyers[b]);
    var s2 := Later(s1, 1);
    assert Exec(s, first) == s2;
    hide Apply, Exec, Linked;
    LoadWorks(s2);
    LinkedAfter(s2, LoadSteps(s2));
    ExecConcat(s, first, LoadSteps(s2));
    more := first + LoadSteps(s2);
    assert Loaded(s2).db.billing == s2.db.billing;
  }

  lemma ToppedRow(s: Sys, b: nat)
    requires b < |s.db.buyers|
    ensures var s' := Topped(s, b, 1);
            && s'.runs == s.runs && s'.db.posts == s.db.posts && s'.db.leads == s.db.leads && s'.now == s.now
            && |s'.db.buyers| == |s.db.buyers|
            && s'.db.buyers[b].status == Active && s'.db.buyers[b].balance >= 1
            && s'.db.buyers[b].dailyCap == 1 && s'.db.buyers[b].monthlyBudget == 1
  {
  }

  lemma NewLeadHasNoKey(s: Sys, l: nat, b: nat, bid: int)
    requires forall p :: 0 <= p < |s.db.posts| ==> s.db.posts[p].lead < l
    ensures !HasDeliveryKey(s.db, l, b, bid)
  {
  }

  /** Whatever buyer b has used, some continuation makes room within both caps, even within a budget of nothing:
      a sale at a negative bid takes the month below zero, and the next day the daily cap is free again. */
  lemma MakeRoom(s: Sys, b: nat, row: Buyer) returns (more: seq<Step>)
    requires Linked(s) && b < |s.db.buyers| && row.dailyCap >= 1
    ensures var s' := Exec(s, more); Linked(s') && Undisturbed(s, s') && CanPass(s', b, row)
  {
    var before := Prepare(s, b);
    var s1 := Exec(s, before);
    var r, pending := |s.runs|, Funded(s1.db);
    forall p | 0 <= p < |s.db.posts| ensures s.db.posts[p].lead < |s.db.leads| {
      assert PostLinked(s.db, s.db.posts[p]);
    }
    NewLeadHasNoKey(s1, |s.db.leads|, b, -1);
    hide Apply, Exec, Linked, HasDeliveryKey;
    var sale := FromPending(s1, r, pending, b, -1);
    var s2 := Exec(s1, sale);
    LinkedAfter(s1, sale);
    StillUndisturbed(s, s1, s2, r, b, -1);
    FreshPeriod(s2, 0, b, row);
    ExecConcat(s, before, sale);
    ExecAppend(s, before + sale, TimePassed(0, 1, 0));
    more := before + sale + [TimePassed(0, 1, 0)];
    BelowBudget(Later(s2, 0), b, row);
  }

  lemma StillUndisturbed(s: Sys, s1: Sys, s2: Sys, r: nat, b: nat, bid: int)
    requires Undisturbed(s, s1) && SaleMade(s1, s2, r, b, bid) && |s.runs| <= r && s1.runs[r].lead >= |s.db.leads|
    ensures Undisturbed(s, s2)
  {
    OtherSalesSame(s1, s2, r, b, bid);
  }

  lemma BelowBudget(s: Sys, b: nat, row: Buyer)
    requires MonthUse(s, b) < 0 && WithinCap(s, b, row, Day)
    ensures CanPass(s, b, row)
  {
  }

  predicate MoreSold(s: Sys, s': Sys, l: nat) {
    Sum(s'.db.posts, SaleOf(l)) > Sum(s.db.posts, SaleOf(l))
  }

  lemma OtherSalesSame(s: Sys, s': Sys, r: nat, b: nat, bid: int)
    requires SaleMade(s, s', r, b, bid)
    ensures forall l: nat :: l != s.runs[r].lead ==> Sum(s'.db.posts, SaleOf(l)) == Sum(s.db.posts, SaleOf(l))
    ensures MoreSold(s, s', s.runs[r].lead)
  {
    var post := Post(s.runs[r].lead, b, bid, true, false, s.now);
    forall l: nat ensures Sum(s'.db.posts, SaleOf(l)) == Sum(s.db.posts, SaleOf(l)) + SaleOf(l)(post) {
      SumAppend(s.db.posts, post, SaleOf(l));
    }
  }

  // ---------------------------------------------------------------- with a chance the lead can be sold again

  /** Loaded rows have a daily cap, as every buyer has. */
  predicate LoadedCaps(s: Sys) {
    && Guardrails.CapsPositive(s)
    && forall r :: 0 <= r < |s.runs| && s.runs[r].phase.Screening? ==>
         forall b :: b in s.runs[r].phase.pending ==> s.runs[r].phase.pending[b].dailyCap >= 1
  }

  lemma LoadedCapsEffect(s: Sys, s': Sys, e: Effect)
    requires LoadedCaps(s) && Effected(s, s', e)
    ensures LoadedCaps(s')
  {
    hide WithinCap, HasSale, HasDeliveryKey;
  }

  lemma {:induction false} AlwaysLoadedCaps(steps: seq<Step>)
    ensures LoadedCaps(Exec(START, steps))
  {
    hide Apply, Effected;
    if |steps| > 0 {
      ExecLast(START, steps);
      var front := steps[..|steps| - 1];
      AlwaysLoadedCaps(front);
      var e := StepEffect(Exec(START, front), steps[|steps| - 1]);
      LoadedCapsEffect(Exec(START, front), Exec(START, steps), e);
    }
  }

  lemma SellByPending(s: Sys, r: nat, pending: map<nat, Buyer>, b: nat) returns (more: seq<Step>)
    requires Linked(s) && At(s, r, Screening(pending)) && b in pending && pending[b].dailyCap >= 1
    ensures MoreSold(s, Exec(s, more), s.runs[r].lead)
  {
    assert RunLinked(s.db, s.runs[r]);
    hide Apply, Exec, Linked, HasDeliveryKey;
    var l := s.runs[r].lead;
    var room := MakeRoom(s, b, pending[b]);
    var s1 := Exec(s, room);
    var bid := FreshBid(s1.db, l, b, pending[b].balance);
    var sale := FromPending(s1, r, pending, b, bid);
    OtherSalesSame(s1, Exec(s1, sale), r, b, bid);
    ExecConcat(s, room, sale);
    more := room + sale;
  }

  /** A run that has still to load its buyers can load a new one. */
  lemma LoadNewBuyer(s: Sys, r: nat) returns (more: seq<Step>)
    requires Linked(s) && At(s, r, Selecting)
    ensures var s', b := Exec(s, more), |s.db.buyers|;
            && Linked(s') && s'.db.posts == s.db.posts && r < |s'.runs| && s'.runs[r].lead == s.runs[r].lead
            && At(s', r, Screening(Funded(s'.db))) && b in Funded(s'.db) && Funded(s'.db)[b].dailyCap >= 1
  {
    var b := |s.db.buyers|;
    more := [BuyerCreated(1, 1, 1), BuyerUpdated(b, Active, 1, 1), RunMoved(r, SelectBuyers)];
    Scripts.ExecThree(s, more);
    var s2 := Apply(Apply(s, more[0]), more[1]);
    assert s2.db.buyers == s.db.buyers + [Buyer(Active, 1, 0, 1, 1)];
    assert Apply(s2, more[2]) == Advance(s2, r, Screening(Funded(s2.db)));
    LinkedAfter(s, more);
  }

  lemma SellFromSelecting(s: Sys, r: nat) returns (more: seq<Step>)
    requires Linked(s) && At(s, r, Selecting)
    ensures MoreSold(s, Exec(s, more), s.runs[r].lead)
  {
    hide Apply, Exec, Linked;
    var load := LoadNewBuyer(s, r);
    var s1 := Exec(s, load);
    var sale := SellByPending(s1, r, Funded(s1.db), |s.db.buyers|);
    ExecConcat(s, load, sale);
    more := load + sale;
  }

  lemma SellByEligible(s: Sys, r: nat, b: nat) returns (more: seq<Step>)
    requires r < |s.runs| && At(s, r, s.runs[r].phase) && (s.runs[r].phase.Screening? || s.runs[r].phase.Soliciting?)
    requires b in s.runs[r].eligible && b < |s.db.buyers|
    ensures MoreSold(s, Exec(s, more), s.runs[r].lead)
  {
    hide Apply, Exec, HasDeliveryKey;
    var bid := FreshBid(s.db, s.runs[r].lead, b, s.runs[r].eligible[b].balance);
    more := FromEligible(s, r, b, bid);
    OtherSalesSame(s, Exec(s, more), r, b, bid);
  }

  lemma ChanceSells(s: Sys, r: nat, l: nat) returns (more: seq<Step>)
    requires Linked(s) && LoadedCaps(s) && HasChance(s, r, l)
    ensures MoreSold(s, Exec(s, more), l)
  {
    assert RunLinked(s.db, s.runs[r]);
    hide Exec, Linked, MoreSold;
    var run := s.runs[r];
    if DealOf(run.phase).Some? {
      more := FromDeal(s, r, run.phase.buyer, run.phase.bid);
      OtherSalesSame(s, Exec(s, more), r, run.phase.buyer, run.phase.bid);
    } else if run.phase.Selecting? {
      more := SellFromSelecting(s, r);
    } else if run.eligible != map[] {
      var b :| b in run.eligible;
      more := SellByEligible(s, r, b);
    } else {
      var b :| b in run.phase.pending;
      more := SellByPending(s, r, run.phase.pending, b);
    }
  }

  /** A sold lead can be sold again, by some continuation of the history, exactly while a live run that was past its
      check still holds a chance. Runs started after the sale never do. */
  lemma ResaleIffChance(steps: seq<Step>, l: nat)
    requires HasSale(Exec(START, steps).db, l)
    ensures (exists more :: MoreSold(Exec(START, steps), Exec(START, steps + more), l)) <==>
              SomeChance(Exec(START, steps), l)
  {
    hide Exec, HasChance;
    var s := Exec(START, steps);
    AlwaysLinked(steps);
    AlwaysLoadedCaps(steps);
    if SomeChance(s, l) {
      var r :| 0 <= r < |s.runs| && HasChance(s, r, l);
      var more := ChanceSells(s, r, l);
      ExecConcat(START, steps, more);
    } else {
      forall more ensures !MoreSold(s, Exec(START, steps + more), l) {
        ExecConcat(START, steps, more);
        NoSaleEver(s, more, l);
      }
    }
  }
}
