/** When wallets can go below zero. */
module BidSigns {
  // A bid is whatever integer a buyer replies; nothing rejects a negative one. The wallet check guards only the
  // debit, so a credit of a negative bid can overdraw. Wallets stay non-negative in every history exactly when the
  // bids in play do not mix signs.

  import opened Market
  import opened Saga
  import opened Links
  import opened Effects
  import opened Ledger
  import opened Laws
  import opened Deals
  import opened Scripts
  import opened Sums

  predicate Solvent(s: Sys) {
    forall b :: 0 <= b < |s.db.buyers| ==> s.db.buyers[b].balance >= 0
  }

  function NotNegative(): (nat, int) -> bool {
    (b: nat, bid: int) => bid >= 0
  }

  function NotPositive(): (nat, int) -> bool {
    (b: nat, bid: int) => bid <= 0
  }

  lemma SolventEffect(s: Sys, s': Sys, e: Effect)
    requires Linked(s) && Solvent(s) && DealsSatisfy(s, NotNegative()) && Effected(s, s', e)
    ensures Solvent(s')
  {
  }

  /** With non-negative bids the debit's guard is enough. */
  lemma {:induction false} SolventWithoutNegativeBids(steps: seq<Step>)
    requires HistoryBids(steps, NotNegative())
    ensures Solvent(Exec(START, steps))
  {
    if |steps| > 0 {
      ExecLast(START, steps);
      var front := steps[..|steps| - 1];
      SolventWithoutNegativeBids(front);
      AlwaysLinked(front);
      AlwaysDeals(front, NotNegative());
      var e := StepEffect(Exec(START, front), steps[|steps| - 1]);
      SolventEffect(Exec(START, front), Exec(START, steps), e);
    }
  }

  lemma {:induction false} DepositsNotNegative(steps: seq<Step>)
    ensures forall i :: 0 <= i < |Exec(START, steps).db.billing| && Exec(START, steps).db.billing[i].kind.DepositAdded?
              ==> Exec(START, steps).db.billing[i].amount >= 0
  {
    if |steps| > 0 {
      ExecLast(START, steps);
      var front := steps[..|steps| - 1];
      DepositsNotNegative(front);
      var s, s' := Exec(START, front), Exec(START, steps);
      var e := StepEffect(s, steps[|steps| - 1]);
      SumBilling(s, s', e, Cash(0));
    }
  }

  /** With non-positive bids a wallet never holds less than its deposits. */
  lemma SolventWithoutPositiveBids(steps: seq<Step>)
    requires HistoryBids(steps, NotPositive())
    ensures Solvent(Exec(START, steps))
  {
    var s := Exec(START, steps);
    AlwaysConserved(steps);
    AlwaysDeals(steps, NotPositive());
    DepositsNotNegative(steps);
    forall b | 0 <= b < |s.db.buyers| ensures s.db.buyers[b].balance >= 0 {
      SpendIsKeptPlusOutstanding(steps, b);
      SumAtMost(s.db.posts, Kept(BidsOf(b)), (p: Post) => 0);
      SumZero(s.db.posts, (p: Post) => 0);
      SumAtMost(s.runs, Outstanding(BidsOf(b)), (run: Run) => 0);
      SumZero(s.runs, (run: Run) => 0);
      SumNonNegative(s.db.billing, Deposits(b));
    }
  }

  /** A one-buyer market in which nothing has been sold yet. */
  ghost predicate NothingSold(s: Sys) {
    && OneBuyerMarket(s) && s.db.posts == [] && s.db.buyers[0].dailyCap >= 1 && s.db.buyers[0].monthlyBudget >= 1
    && forall i :: 0 <= i < |s.db.billing| ==> !s.db.billing[i].kind.LeadPosted?
  }

  lemma FreshWithinCaps(s: Sys, period: Period)
    requires NothingSold(s)
    ensures WithinCap(s, 0, s.db.buyers[0], period)
  {
    SumZero(s.db.billing, UsedSince(period, 0, IndexOf(period, s.now)));
  }

  function Debit(r: nat, bid: int): seq<Step> {
    Enter(r, 0) + Win(r, bid)
  }

  lemma DebitWorks(s: Sys, bid: int)
    requires NothingSold(s) && s.db.buyers[0].balance > 0 && s.db.buyers[0].balance >= bid && bid != 0
    ensures var s' := Exec(s, Debit(|s.runs|, bid));
            && NothingSold(s') && |s'.runs| == |s.runs| + 1 && s.runs <= s'.runs
            && s'.db.buyers[0].balance == s.db.buyers[0].balance - bid
            && s'.now == s.now && s'.db.leads == s.db.leads && s'.db.requests == s.db.requests
            && s'.runs[|s.runs|].phase == Reserved(0, bid) && !s'.runs[|s.runs|].crashed && s'.runs[|s.runs|].lead == 0
  {
    ExecConcat(s, Enter(|s.runs|, 0), Win(|s.runs|, bid));
    FreshWithinCaps(s, Day);
    FreshWithinCaps(s, Month);
    EnterWorks(s, 0);
    WinWorks(Exec(s, Enter(|s.runs|, 0)), |s.runs|, s.db.buyers[0], bid);
  }

  /** A failed delivery of run r is credited: the wallet gets the bid back, whatever its sign. */
  lemma CreditWorks(s: Sys, r: nat, bid: int)
    requires NothingSold(s) && r < |s.runs| && !s.runs[r].crashed && s.runs[r].lead == 0 &&
               s.runs[r].phase == Reserved(0, bid)
    ensures var s' := Exec(s, Fail(r) + [RunMoved(r, StoreCredit)]);
            |s'.db.buyers| == 1 && s'.db.buyers[0].balance == s.db.buyers[0].balance + bid
  {
    ExecAppend(s, Fail(r), RunMoved(r, StoreCredit));
    SettleWorks(s, r, bid, false);
  }

  /** A debit of each sign, then the credit of the negative one: the first wallet ends below zero. */
  function Overdraw(n: int, p: int): seq<Step>
    requires n < 0 < p
  {
    var deposit := if -n >= p then p else p + n;
    OpenMarket(deposit, 1, 1) + Debit(0, n) + Debit(1, p) + (if -n >= p then Debit(2, p) else [])
      + (Fail(0) + [RunMoved(0, StoreCredit)])
  }

  lemma OverdrawWorks(n: int, p: int)
    requires n < 0 < p
    ensures !Solvent(Exec(START, Overdraw(n, p)))
  {
    var deposit := if -n >= p then p else p + n;
    var opening := OpenMarket(deposit, 1, 1);
    var more := if -n >= p then Debit(2, p) else [];
    OpenMarketWorks(deposit, 1, 1);
    var s0 := Exec(START, opening);
    assert NothingSold(s0);
    DebitWorks(s0, n);
    ExecConcat(START, opening, Debit(0, n));
    var s1 := Exec(START, opening + Debit(0, n));
    DebitWorks(s1, p);
    ExecConcat(START, opening + Debit(0, n), Debit(1, p));
    var s2 := Exec(START, opening + Debit(0, n) + Debit(1, p));
    if -n >= p {
      DebitWorks(s2, p);
    }
    ExecConcat(START, opening + Debit(0, n) + Debit(1, p), more);
    var s3 := Exec(START, opening + Debit(0, n) + Debit(1, p) + more);
    CreditWorks(s3, 0, n);
    ExecConcat(START, opening + Debit(0, n) + Debit(1, p) + more, Fail(0) + [RunMoved(0, StoreCredit)]);
  }

  lemma HistoryBidsConcat(first: seq<Step>, second: seq<Step>, bids: (nat, int) -> bool)
    requires HistoryBids(first, bids) && HistoryBids(second, bids)
    ensures HistoryBids(first + second, bids)
  {
  }

  lemma OverdrawUsesOnly(n: int, p: int, bids: (nat, int) -> bool)
    requires n < 0 < p && bids(0, n) && bids(0, p)
    ensures HistoryBids(Overdraw(n, p), bids)
  {
    var opening := OpenMarket(if -n >= p then p else p + n, 1, 1);
    var more := if -n >= p then Debit(2, p) else [];
    HistoryBidsConcat(opening, Debit(0, n), bids);
    HistoryBidsConcat(opening + Debit(0, n), Debit(1, p), bids);
    HistoryBidsConcat(opening + Debit(0, n) + Debit(1, p), more, bids);
    HistoryBidsConcat(opening + Debit(0, n) + Debit(1, p) + more, Fail(0) + [RunMoved(0, StoreCredit)], bids);
  }

  /** The bids in play do not mix signs. */
  ghost predicate OneSign(bids: int -> bool) {
    (forall bid :: bids(bid) ==> bid >= 0) || (forall bid :: bids(bid) ==> bid <= 0)
  }

  lemma HistoryBidsWeaken(steps: seq<Step>, bids: (nat, int) -> bool, weaker: (nat, int) -> bool)
    requires HistoryBids(steps, bids) && forall b, bid :: bids(b, bid) ==> weaker(b, bid)
    ensures HistoryBids(steps, weaker)
  {
    forall i | 0 <= i < |steps| ensures StepBids(steps[i], weaker) {
      assert StepBids(steps[i], bids);
    }
  }

  function AnyBuyer(bids: int -> bool): (nat, int) -> bool {
    (b: nat, bid: int) => bids(bid)
  }

  /** No history over the given bids overdraws a wallet exactly when those bids do not mix signs. */
  lemma SolventIffOneSign(bids: int -> bool)
    ensures (forall steps :: HistoryBids(steps, AnyBuyer(bids)) ==> Solvent(Exec(START, steps))) <==> OneSign(bids)
  {
    if OneSign(bids) {
      forall steps | HistoryBids(steps, AnyBuyer(bids)) ensures Solvent(Exec(START, steps)) {
        if forall bid :: bids(bid) ==> bid >= 0 {
          HistoryBidsWeaken(steps, AnyBuyer(bids), NotNegative());
          SolventWithoutNegativeBids(steps);
        } else {
          HistoryBidsWeaken(steps, AnyBuyer(bids), NotPositive());
          SolventWithoutPositiveBids(steps);
        }
      }
    } else {
      var n :| bids(n) && n < 0;
      var p :| bids(p) && p > 0;
      OverdrawUsesOnly(n, p, AnyBuyer(bids));
      OverdrawWorks(n, p);
    }
  }
}
