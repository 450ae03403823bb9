/** The commercial guardrails: buyers that return too much or answer pings too slowly are paused. */
module Guardrails {
  import opened Market
  import opened Saga
  import opened Sums
  import Effects
  import PingPost
  import Returns

  const ADJUSTMENT_RATE_THRESHOLD := 0.25
  const AVG_PING_RESPONSE_MS_THRESHOLD := 600000.0

  /** A recorded ping; a buyer that never answered has no response time. */
  datatype PingAttempt = PingAttempt(buyer: nat, responseMs: Option<nat>)

  function AnsweredBy(b: nat): PingAttempt -> int {
    (a: PingAttempt) => if a.buyer == b && a.responseMs.Some? then 1 else 0
  }

  function TimeOf(b: nat): PingAttempt -> int {
    (a: PingAttempt) => if a.buyer == b && a.responseMs.Some? then a.responseMs.value else 0
  }

  /** Approved returns per delivered lead, zero for a buyer without deliveries. */
  function AdjustmentRate(posts: seq<Post>, requests: seq<ReturnRequest>, b: nat): real {
    var total := Sum(posts, Returns.DeliveredTo(b));
    if total == 0 then 0.0 else Sum(requests, Returns.ApprovedBy(b)) as real / total as real
  }

  /** Mean response time, zero for a buyer that never answered. */
  function AvgPingResponseMs(attempts: seq<PingAttempt>, b: nat): real {
    var answered := Sum(attempts, AnsweredBy(b));
    if answered == 0 then 0.0 else Sum(attempts, TimeOf(b)) as real / answered as real
  }

  datatype Reason = TooManyReturns | TooSlow

  datatype Action = Action(buyer: nat, reasons: seq<Reason>, adjustmentRate: real, avgPingMs: real)

  function RateOf(db: Db, b: nat): real {
    AdjustmentRate(db.posts, db.requests, b)
  }

  /** Buyer b is active and over a threshold. */
  predicate MustPause(db: Db, attempts: seq<PingAttempt>, b: nat) {
    && b < |db.buyers| && db.buyers[b].status == Active
    && (RateOf(db, b) > ADJUSTMENT_RATE_THRESHOLD || AvgPingResponseMs(attempts, b) > AVG_PING_RESPONSE_MS_THRESHOLD)
  }

  lemma QuotientAbove(part: int, whole: int, limit: int)
    requires whole > 0
    ensures part as real / whole as real > limit as real <==> part > limit * whole
    ensures part as real / whole as real > 0.25 <==> 4 * part > whole
  {
    var ratio := part as real / whole as real;
    assert ratio * whole as real == part as real;
    Scaled(ratio, limit as real, whole as real);
    Scaled(ratio, 0.25, whole as real);
  }

  /** Who must be paused, in whole numbers: an active buyer of whose deliveries more than a quarter were returned, or
      whose answered pings took more than ten minutes on average. */
  lemma MustPauseIsExact(db: Db, attempts: seq<PingAttempt>, b: nat)
    ensures var delivered := Count(db.posts, (p: Post) => p.buyer == b && p.delivered);
            var approved := Count(db.requests, (q: ReturnRequest) => q.buyer == b && q.status == Approved);
            var answered := Count(attempts, (a: PingAttempt) => a.buyer == b && a.responseMs.Some?);
            var total := Sum(attempts, (a: PingAttempt) =>
              if a.buyer == b && a.responseMs.Some? then a.responseMs.value else 0);
            && (MustPause(db, attempts, b) <==>
                  && b < |db.buyers| && db.buyers[b].status == Active
                  && ((delivered > 0 && 4 * approved > delivered) || (answered > 0 && total > 600000 * answered)))
            && RateOf(db, b) == (if delivered == 0 then 0.0 else approved as real / delivered as real)
            && AvgPingResponseMs(attempts, b) == (if answered == 0 then 0.0 else total as real / answered as real)
  {
    var delivered := Count(db.posts, (p: Post) => p.buyer == b && p.delivered);
    var approved := Count(db.requests, (q: ReturnRequest) => q.buyer == b && q.status == Approved);
    var answered := Count(attempts, (a: PingAttempt) => a.buyer == b && a.responseMs.Some?);
    SumIsCount(db.posts, Returns.DeliveredTo(b), (p: Post) => p.buyer == b && p.delivered);
    SumIsCount(db.requests, Returns.ApprovedBy(b), (q: ReturnRequest) => q.buyer == b && q.status == Approved);
    SumIsCount(attempts, AnsweredBy(b), (a: PingAttempt) => a.buyer == b && a.responseMs.Some?);
    SumSame(attempts, TimeOf(b), (a: PingAttempt) =>
      if a.buyer == b && a.responseMs.Some? then a.responseMs.value else 0);
    if delivered > 0 {
      QuotientAbove(approved, delivered, 0);
    }
    if answered > 0 {
      QuotientAbove(Sum(attempts, TimeOf(b)), answered, 600000);
    }
  }

  /** The action names an offender and every threshold it exceeds. */
  predicate Explains(db: Db, attempts: seq<PingAttempt>, action: Action) {
    && MustPause(db, attempts, action.buyer)
    && action.adjustmentRate == RateOf(db, action.buyer) &&
         action.avgPingMs == AvgPingResponseMs(attempts, action.buyer)
    && (TooManyReturns in action.reasons <==> action.adjustmentRate > ADJUSTMENT_RATE_THRESHOLD)
    && (TooSlow in action.reasons <==> action.avgPingMs > AVG_PING_RESPONSE_MS_THRESHOLD)
  }

  /** The buyers table with exactly the offenders among the first n buyers paused. */
  predicate PausedUpTo(db: Db, attempts: seq<PingAttempt>, n: nat, buyers: seq<Buyer>) {
    && |buyers| == |db.buyers|
    && forall b :: 0 <= b < |buyers| ==>
         buyers[b] == if b < n && MustPause(db, attempts, b) then db.buyers[b].(status := Paused) else db.buyers[b]
  }

  /** One action per offender among the first n buyers, in the order of the table. */
  ghost predicate Reported(db: Db, attempts: seq<PingAttempt>, n: nat, actions: seq<Action>) {
    && (forall k :: 0 <= k < |actions| ==> actions[k].buyer < n && Explains(db, attempts, actions[k]))
    && (forall j, k :: 0 <= j < k < |actions| ==> actions[j].buyer < actions[k].buyer)
    && (forall b: nat :: b < n && MustPause(db, attempts, b) ==>
         exists k :: 0 <= k < |actions| && actions[k].buyer == b)
  }

  lemma NoneReported(db: Db, attempts: seq<PingAttempt>)
    ensures Reported(db, attempts, 0, [])
  {
  }

  lemma NotReported(db: Db, attempts: seq<PingAttempt>, n: nat, actions: seq<Action>)
    requires Reported(db, attempts, n, actions) && !MustPause(db, attempts, n)
    ensures Reported(db, attempts, n + 1, actions)
  {
  }

  lemma ReportedGrows(db: Db, attempts: seq<PingAttempt>, n: nat, actions: seq<Action>, action: Action)
    requires Reported(db, attempts, n, actions) && MustPause(db, attempts, n)
    requires action.buyer == n && Explains(db, attempts, action)
    ensures Reported(db, attempts, n + 1, actions + [action])
  {
    hide MustPause, Explains;
    forall b: nat | b < n + 1 && MustPause(db, attempts, b)
      ensures exists k :: 0 <= k < |actions + [action]| && (actions + [action])[k].buyer == b
    {
      if b < n {
        var k :| 0 <= k < |actions| && actions[k].buyer == b;
        assert (actions + [action])[k].buyer == b;
      } else {
        assert (actions + [action])[|actions|].buyer == b;
      }
    }
  }

  /** The job over the active buyers; it does nothing until the commercial launch is approved. */
  method EvaluateBuyerGuardrails(service: PingPost.Service, attempts: seq<PingAttempt>, enabled: bool)
    returns (actions: seq<Action>, ghost trace: seq<Step>)
    requires CapsPositive(service.State())
    modifies service`buyers
    ensures service.State() == Exec(old(service.State()), trace) && OnlyPauses(trace)
    ensures PausedUpTo(old(service.Tables()), attempts, if enabled then |old(service.buyers)| else 0, service.buyers)
    ensures Reported(old(service.Tables()), attempts, if enabled then |old(service.buyers)| else 0, actions)
  {
    hide ExecTo, Reported, AdjustmentRate, AvgPingResponseMs;
    actions, trace := [], [];
    ghost var db := service.Tables();
    ExecNone(service.State());
    NoneReported(db, attempts);
    if !enabled {
      return;
    }
    for b := 0 to |service.buyers|
      invariant |service.buyers| == |db.buyers|
      invariant PausedUpTo(db, attempts, b, service.buyers) && Reported(db, attempts, b, actions)
      invariant service.State() == Exec(old(service.State()), trace) && OnlyPauses(trace)
      invariant forall i :: 0 <= i < |service.buyers| ==> service.buyers[i].dailyCap >= 1
    {
      if service.buyers[b].status == Active {
        var reasons := [];
        var adjustmentRate := AdjustmentRate(service.posts, service.requests, b);
        var avgPingMs := AvgPingResponseMs(attempts, b);
        if adjustmentRate > ADJUSTMENT_RATE_THRESHOLD {
          reasons := reasons + [TooManyReturns];
        }
        if avgPingMs > AVG_PING_RESPONSE_MS_THRESHOLD {
          reasons := reasons + [TooSlow];
        }
        if reasons != [] {
          var action := Action(b, reasons, adjustmentRate, avgPingMs);
          ReportedGrows(db, attempts, b, actions, action);
          ghost var step := Pause(service.buyers, b);
          ExecAppend(old(service.State()), trace, step);
          trace := trace + [step];
          service.buyers := service.buyers[b := service.buyers[b].(status := Paused)];
          actions := actions + [action];
        } else {
          NotReported(db, attempts, b, actions);
        }
      } else {
        NotReported(db, attempts, b, actions);
      }
    }
  }

  function Pause(buyers: seq<Buyer>, b: nat): Step
    requires b < |buyers|
  {
    BuyerUpdated(b, Paused, buyers[b].dailyCap, buyers[b].monthlyBudget)
  }

  /** The job touches nothing but statuses: each of its writes is a buyer update that pauses. */
  predicate OnlyPauses(trace: seq<Step>) {
    forall i :: 0 <= i < |trace| ==> trace[i].BuyerUpdated? && trace[i].status == Paused
  }

  /** After the job no active buyer is over a threshold, so running it again reports and changes nothing. */
  lemma SecondEvaluationIsIdle(db: Db, attempts: seq<PingAttempt>, buyers: seq<Buyer>, again: seq<Buyer>,
        actions: seq<Action>)
    requires PausedUpTo(db, attempts, |db.buyers|, buyers)
    requires PausedUpTo(db.(buyers := buyers), attempts, |buyers|, again)
    requires Reported(db.(buyers := buyers), attempts, |buyers|, actions)
    ensures forall b: nat :: !MustPause(db.(buyers := buyers), attempts, b)
    ensures again == buyers && actions == []
  {
    forall b: nat ensures !MustPause(db.(buyers := buyers), attempts, b) {
      assert RateOf(db.(buyers := buyers), b) == RateOf(db, b);
    }
    assert |actions| == 0 || !Explains(db.(buyers := buyers), attempts, actions[0]);
  }

  predicate CapsPositive(s: Sys) {
    forall b :: 0 <= b < |s.db.buyers| ==> s.db.buyers[b].dailyCap >= 1
  }

  lemma CapsPositiveEffect(s: Sys, s': Sys, e: Effects.Effect)
    requires CapsPositive(s) && Effects.Effected(s, s', e)
    ensures CapsPositive(s')
  {
  }

  /** The job can run in every state of the marketplace. */
  lemma {:induction false} AlwaysCapsPositive(steps: seq<Step>)
    ensures CapsPositive(Exec(START, steps))
  {
    hide Apply, Effects.Effected;
    if |steps| > 0 {
      ExecLast(START, steps);
      var front := steps[..|steps| - 1];
      AlwaysCapsPositive(front);
      var e := Effects.StepEffect(Exec(START, front), steps[|steps| - 1]);
      CapsPositiveEffect(Exec(START, front), Exec(START, steps), e);
    }
  }

  /** In any history the rate lies between zero and one, and exceeds its threshold exactly when more than
      a quarter of the buyer's deliveries came back. */
  lemma OverAQuarter(steps: seq<Step>, b: nat)
    ensures var db := Exec(START, steps).db;
            && 0.0 <= RateOf(db, b) <= 1.0
            && (RateOf(db, b) > ADJUSTMENT_RATE_THRESHOLD <==>
                  4 * Sum(db.posts, Returns.ReturnedOf(b)) > Sum(db.posts, Returns.DeliveredTo(b)))
  {
    var db := Exec(START, steps).db;
    Returns.AdjustmentRateAtMostOne(steps, b);
    Returns.ApprovedAreReturned(steps, b);
    var total, back := Sum(db.posts, Returns.DeliveredTo(b)), Sum(db.requests, Returns.ApprovedBy(b));
    if total > 0 {
      RatioAgainstQuarter(back, total);
    }
  }

  lemma Scaled(ratio: real, bound: real, w: real)
    requires w > 0.0
    ensures ratio * w > bound * w <==> ratio > bound
  {
    assert (ratio - bound) * w == ratio * w - bound * w;
  }

  lemma RealRatio(ratio: real, p: real, w: real)
    requires w > 0.0 && ratio * w == p && 0.0 <= p <= w
    ensures 0.0 <= ratio <= 1.0
    ensures ratio > 0.25 <==> 4.0 * p > w
  {
    Scaled(0.0, ratio, w);
    Scaled(ratio, 1.0, w);
    Scaled(ratio, 0.25, w);
  }

  lemma RatioAgainstQuarter(part: int, whole: int)
    requires 0 <= part <= whole && whole > 0
    ensures 0.0 <= part as real / whole as real <= 1.0
    ensures part as real / whole as real > 0.25 <==> 4 * part > whole
  {
    RealRatio(part as real / whole as real, part as real, whole as real);
  }
}
