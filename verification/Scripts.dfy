/** Ready-made histories, used to show that a bound is reached or a guarantee is lost: runs of one buyer's market up
    to a cap check, a debit and a sale, each with the state it leads to. */
module Scripts {
  import opened Market
  import opened Bidding
  import opened Saga

  const GOOD_LEAD := Lead(New, false, false, None, Some(1.0), None, None, 0, 0)

  /** One active buyer and some leads that pass the gate. */
  predicate OneBuyerMarket(s: Sys) {
    && |s.db.buyers| == 1 && s.db.buyers[0].status == Active
    && |s.db.leads| > 0 && forall i :: 0 <= i < |s.db.leads| ==> GateVerdict(s.db.leads[i], 0.0, 0.0).0
  }

  /** Run r for lead l up to the point where its cap check has passed. */
  function Enter(r: nat, l: nat): seq<Step> {
    [RunStarted(l, 0.0, 0.0), RunMoved(r, CheckSale), RunMoved(r, SelectBuyers), RunMoved(r, ScreenBuyer(0, true)),
     RunMoved(r, FinishScreening)]
  }

  /** The same run from there to a debit of the given bid. */
  function Win(r: nat, bid: int): seq<Step> {
    [RunMoved(r, ReceiveBids([PingResponse(0, true, Some(bid), 1)])), RunMoved(r, CheckKey), RunMoved(r, ReserveWallet)]
  }

  /** The lead is sent and taken, and the sale is stored. */
  function Sell(r: nat): seq<Step> {
    [RunMoved(r, SendPost), RunMoved(r, HearAnswer(true)), RunMoved(r, StoreOutcome)]
  }

  /** The lead is sent and refused, and the failure is stored. */
  function Fail(r: nat): seq<Step> {
    [RunMoved(r, SendPost), RunMoved(r, HearAnswer(false)), RunMoved(r, StoreOutcome)]
  }

  /** s with one more run. */
  function With(s: Sys, run: Run): Sys {
    s.(runs := s.runs + [run])
  }

  lemma AdvanceLast(s: Sys, run: Run, next: Run)
    ensures With(s, run).runs[|s.runs|] == run
    ensures With(s, run).runs[|s.runs| := next] == s.runs + [next]
  {
  }

  lemma EnterWorks(s: Sys, l: nat)
    requires OneBuyerMarket(s) && l < |s.db.leads| && !HasSale(s.db, l) && s.db.buyers[0].balance > 0
    requires WithinCap(s, 0, s.db.buyers[0], Day) && WithinCap(s, 0, s.db.buyers[0], Month)
    ensures Exec(s, Enter(|s.runs|, l)) ==
              With(s, Run(l, s.db.leads[l].leadClass, map[0 := s.db.buyers[0]], Soliciting, false))
  {
    var row := s.db.buyers[0];
    var run := NewRun(s.db.leads[l], l, 0.0, 0.0);
    var selecting, screening := run.(phase := Selecting), run.(phase := Screening(map[0 := row]));
    var screened := run.(eligible := map[0 := row], phase := Screening(map[]));
    ExecFive(s, Enter(|s.runs|, l));
    AdvanceLast(s, run, selecting);
    AdvanceLast(s, selecting, screening);
    AdvanceLast(s, screening, screened);
    AdvanceLast(s, screened, screened.(phase := Soliciting));
    assert Funded(s.db) == map[0 := row] && map[0 := row] - {0} == map[];
    hide HasSale, WithinCap, GateVerdict, Exec, Funded;
    assert Apply(With(s, run), RunMoved(|s.runs|, CheckSale)) == With(s, selecting);
    assert Apply(With(s, selecting), RunMoved(|s.runs|, SelectBuyers)) == With(s, screening);
    assert Apply(With(s, screening), RunMoved(|s.runs|, ScreenBuyer(0, true))) == With(s, screened);
    assert 0 in screened.eligible;
  }

  lemma ExecThree(s: Sys, steps: seq<Step>)
    requires |steps| == 3
    ensures Exec(s, steps) == Apply(Apply(Apply(s, steps[0]), steps[1]), steps[2])
  {
    assert ExecTo(s, steps, 1) == Apply(s, steps[0]);
    assert ExecTo(s, steps, 2) == Apply(ExecTo(s, steps, 1), steps[1]);
  }

  lemma ExecFour(s: Sys, steps: seq<Step>)
    requires |steps| == 4
    ensures Exec(s, steps) == Apply(Apply(Apply(Apply(s, steps[0]), steps[1]), steps[2]), steps[3])
  {
    assert ExecTo(s, steps, 1) == Apply(s, steps[0]);
    assert ExecTo(s, steps, 2) == Apply(ExecTo(s, steps, 1), steps[1]);
    assert ExecTo(s, steps, 3) == Apply(ExecTo(s, steps, 2), steps[2]);
  }

  lemma ExecFive(s: Sys, steps: seq<Step>)
    requires |steps| == 5
    ensures Exec(s, steps) == Apply(Apply(Apply(Apply(Apply(s, steps[0]), steps[1]), steps[2]), steps[3]), steps[4])
  {
    assert ExecTo(s, steps, 1) == Apply(s, steps[0]);
    assert ExecTo(s, steps, 2) == Apply(ExecTo(s, steps, 1), steps[1]);
    assert ExecTo(s, steps, 3) == Apply(ExecTo(s, steps, 2), steps[2]);
    assert ExecTo(s, steps, 4) == Apply(ExecTo(s, steps, 3), steps[3]);
  }

  lemma AdvanceTwice(s: Sys, r: nat, first: Phase, second: Phase)
    requires r < |s.runs|
    ensures Advance(Advance(s, r, first), r, second) == Advance(s, r, second)
  {
    assert Advance(Advance(s, r, first), r, second).runs == Advance(s, r, second).runs;
  }

  /** Run r has been through its cap check with the one buyer, as row, eligible. */
  predicate Entered(s: Sys, r: nat, row: Buyer) {
    r < |s.runs| && !s.runs[r].crashed && s.runs[r].phase == Soliciting && s.runs[r].eligible == map[0 := row]
  }

  lemma WinWorks(s: Sys, r: nat, row: Buyer, bid: int)
    requires Entered(s, r, row) && bid != 0 && row.balance >= bid
    requires !HasDeliveryKey(s.db, s.runs[r].lead, 0, bid) && CanReserve(s.db, 0, bid)
    ensures Exec(s, Win(r, bid)) ==
              Advance(s.(db := Reserve(s.db, 0, s.runs[r].lead, bid, s.now)), r, Reserved(0, bid))
  {
    WinnerIsPicked([PingResponse(0, true, Some(bid), 1)], map[0 := row], 0);
    ExecThree(s, Win(r, bid));
    hide PickWinner, FromPinged, HasDeliveryKey, Exec;
    var s1, s2 := Advance(s, r, Chosen(0, bid)), Advance(s, r, Keyed(0, bid));
    assert Apply(s, Win(r, bid)[0]) == s1;
    AdvanceTwice(s, r, Chosen(0, bid), Keyed(0, bid));
    assert Apply(s1, Win(r, bid)[1]) == s2;
    AdvanceTwice(s.(db := Reserve(s.db, 0, s.runs[r].lead, bid, s.now)), r, Keyed(0, bid), Reserved(0, bid));
  }

  lemma SettleWorks(s: Sys, r: nat, bid: int, ok: bool)
    requires r < |s.runs| && !s.runs[r].crashed && s.runs[r].phase == Reserved(0, bid)
    requires s.runs[r].lead < |s.db.leads| && !HasDeliveryKey(s.db, s.runs[r].lead, 0, bid)
    ensures Exec(s, if ok then Sell(r) else Fail(r)) ==
              Advance(s.(outbox := s.outbox + [Sent(r, s.runs[r].lead, 0, bid)],
                         db := StoreResult(s.db, s.runs[r].lead, 0, bid, ok, s.now)), r,
                      if ok then Finished else Refunding(0, bid))
  {
    var l, next := s.runs[r].lead, if ok then Finished else Refunding(0, bid);
    var sent := s.(outbox := s.outbox + [Sent(r, l, 0, bid)]);
    ExecThree(s, if ok then Sell(r) else Fail(r));
    hide HasDeliveryKey, Exec;
    assert Apply(s, RunMoved(r, SendPost)) == Advance(sent, r, Posting(0, bid));
    AdvanceTwice(sent, r, Posting(0, bid), Answered(0, bid, ok));
    AdvanceTwice(sent.(db := StoreResult(s.db, l, 0, bid, ok, s.now)), r, Answered(0, bid, ok), next);
  }

  /** Opens a market: one activated, funded buyer and one lead. */
  function OpenMarket(deposit: nat, cap: nat, budget: nat): seq<Step> {
    [BuyerCreated(deposit, cap, budget), BuyerUpdated(0, Active, cap, budget), LeadArrived(GOOD_LEAD)]
  }

  lemma OpenMarketWorks(deposit: nat, cap: nat, budget: nat)
    requires deposit > 0 && cap >= 1
    ensures Exec(START, OpenMarket(deposit, cap, budget)) ==
              START.(db := Db([Buyer(Active, deposit, 0, cap, budget)], [GOOD_LEAD], [], [],
                              [BillingEvent(0, None, DepositAdded, deposit, START.now)]))
  {
    ExecThree(START, OpenMarket(deposit, cap, budget));
  }
}
