/** Capture and marketplace together: the block set at capture decides what can be sold. */
module Platform {
  import Capture
  import CaptureLaws
  import opened Market
  import opened Saga
  import opened Bidding

  // ---------------------------------------------------------------- blocked leads in the marketplace

  /** The run got through the gate and is not over. */
  predicate PastGate(phase: Phase) {
    !phase.Barred? && !phase.Finished?
  }

  /** Blocked leads have no run past the gate and no delivery of any kind. */
  ghost predicate Gated(s: Sys) {
    && (forall r :: 0 <= r < |s.runs| && PastGate(s.runs[r].phase) ==>
          s.runs[r].lead < |s.db.leads| && !s.db.leads[s.runs[r].lead].blocked)
    && (forall p :: 0 <= p < |s.db.posts| ==>
         s.db.posts[p].lead < |s.db.leads| && !s.db.leads[s.db.posts[p].lead].blocked)
  }

  /** Nothing clears or sets the block of a lead. */
  predicate BlocksKept(s: Sys, s': Sys) {
    |s.db.leads| <= |s'.db.leads| && forall i :: 0 <= i < |s.db.leads| ==>
      s'.db.leads[i].blocked == s.db.leads[i].blocked
  }

  lemma StepKeepsBlocks(s: Sys, step: Step)
    ensures BlocksKept(s, Apply(s, step))
    ensures !step.LeadArrived? ==> |Apply(s, step).db.leads| == |s.db.leads|
  {
    hide PickWinner, FromPinged, HasSale, WithinCap, HasDeliveryKey, CanReserve;
  }

  /** A move touches its own run and lead only, never gets past a gate that was not passed, and stores a post
      only for a run that had passed. */
  lemma MoveShape(s: Sys, r: nat, move: Move)
    requires r < |s.runs|
    ensures var s', run := ApplyMove(s, r, move), s.runs[r];
            && |s'.runs| == |s.runs| && (forall i :: 0 <= i < |s.runs| && i != r ==> s'.runs[i] == s.runs[i])
            && s'.runs[r].lead == run.lead && (PastGate(s'.runs[r].phase) ==> PastGate(run.phase))
            && (s'.db.posts == s.db.posts ||
                (&& PastGate(run.phase) && |s'.db.posts| == |s.db.posts| + 1 && s.db.posts <= s'.db.posts
                 && s'.db.posts[|s.db.posts|].lead == run.lead))
  {
    hide PickWinner, FromPinged, HasSale, WithinCap, HasDeliveryKey, CanReserve;
  }

  lemma StepStaysGated(s: Sys, step: Step)
    requires Gated(s)
    ensures Gated(Apply(s, step))
  {
    hide ApplyMove;
    StepKeepsBlocks(s, step);
    if step.RunMoved? && step.r < |s.runs| {
      MoveShape(s, step.r, step.move);
    }
  }

  /** In any history of the marketplace no blocked lead is ever sold, or even offered for delivery. */
  lemma {:induction false} BlockedNeverPosted(steps: seq<Step>)
    ensures Gated(Exec(START, steps))
  {
    hide Apply;
    if |steps| > 0 {
      ExecLast(START, steps);
      BlockedNeverPosted(steps[..|steps| - 1]);
      StepStaysGated(Exec(START, steps[..|steps| - 1]), steps[|steps| - 1]);
    }
  }

  // ---------------------------------------------------------------- the two services together

  /** Both services over one leads table: row l of the marketplace is captured lead l. */
  datatype Whole = Whole(capture: Capture.Sys, market: Sys)

  datatype WholeStep = Captures(capture: Capture.Step, details: Lead) | Trades(trade: Step)

  /** The marketplace row of a lead just captured: new, with the flags set at capture. */
  function RowOf(lead: Capture.CapturedLead, details: Lead): Lead {
    details.(status := New, blocked := lead.blocked, hold := lead.hold)
  }

  /** Leads enter the marketplace only by being captured. */
  function Advanced(w: Whole, step: WholeStep, window: nat): Whole {
    match step
    case Trades(t) => if t.LeadArrived? then w else w.(market := Apply(w.market, t))
    case Captures(c, details) =>
      var capture := Capture.Apply(w.capture, c, window);
      if |capture.db.leads| > |w.capture.db.leads|
      then Whole(capture, Apply(w.market, LeadArrived(RowOf(capture.db.leads[|w.capture.db.leads|], details))))
      else w.(capture := capture)
  }

  function Reached(steps: seq<WholeStep>, window: nat): Whole {
    if |steps| == 0 then Whole(Capture.START, START)
    else Advanced(Reached(steps[..|steps| - 1], window), steps[|steps| - 1], window)
  }

  /** The capture side of a history is a history of captures. */
  function CaptureSteps(steps: seq<WholeStep>): seq<Capture.Step> {
    if |steps| == 0 then []
    else
      var last := steps[|steps| - 1];
      CaptureSteps(steps[..|steps| - 1]) + if last.Captures? then [last.capture] else []
  }

  lemma NothingCaptured(window: nat)
    ensures Capture.Exec([], window) == Capture.START
  {
  }

  lemma {:induction false} CaptureSide(steps: seq<WholeStep>, window: nat)
    ensures Reached(steps, window).capture == Capture.Exec(CaptureSteps(steps), window)
  {
    hide Capture.Apply, Apply, Capture.ExecTo;
    if |steps| == 0 {
      NothingCaptured(window);
    } else {
      var front, last := steps[..|steps| - 1], steps[|steps| - 1];
      CaptureSide(front, window);
      if last.Captures? {
        Capture.ExecAppend(CaptureSteps(front), last.capture, window);
      } else {
        assert CaptureSteps(front) + [] == CaptureSteps(front);
      }
    }
  }

  /** The market side of a history is a history of the marketplace. */
  lemma {:induction false} MarketSide(steps: seq<WholeStep>, window: nat) returns (trades: seq<Step>)
    ensures Reached(steps, window).market == Exec(START, trades)
  {
    hide Capture.Apply, Apply, ExecTo;
    if |steps| == 0 {
      trades := [];
      ExecNone(START);
    } else {
      var front, last := steps[..|steps| - 1], steps[|steps| - 1];
      trades := MarketSide(front, window);
      var before, after := Reached(front, window), Reached(steps, window);
      if after.market != before.market {
        var step := if last.Trades? then last.trade
          else LeadArrived(RowOf(after.capture.db.leads[|before.capture.db.leads|], last.details));
        ExecAppend(START, trades, step);
        trades := trades + [step];
      }
    }
  }

  /** The two leads tables are one: same rows, same blocks. */
  predicate SameLeads(w: Whole) {
    && |w.market.db.leads| == |w.capture.db.leads|
    && forall l :: 0 <= l < |w.market.db.leads| ==> w.market.db.leads[l].blocked == w.capture.db.leads[l].blocked
  }

  lemma CaptureAddsOne(s: Capture.Sys, step: Capture.Step, window: nat)
    ensures |Capture.Apply(s, step, window).db.leads| <= |s.db.leads| + 1
  {
    hide Capture.UpsertLead;
    if step.Upsert? && CaptureLaws.Upserts(s, step.d) {
      CaptureLaws.UpsertEffect(s, step.d, window);
    }
  }

  lemma {:induction false} AlwaysSameLeads(steps: seq<WholeStep>, window: nat)
    ensures SameLeads(Reached(steps, window))
  {
    if |steps| > 0 {
      AlwaysSameLeads(steps[..|steps| - 1], window);
      SameLeadsStep(Reached(steps[..|steps| - 1], window), steps[|steps| - 1], window);
    }
  }

  lemma SameLeadsStep(w: Whole, step: WholeStep, window: nat)
    requires SameLeads(w)
    ensures SameLeads(Advanced(w, step, window))
  {
    match step
    case Trades(t) =>
      hide Apply;
      if !t.LeadArrived? {
        StepKeepsBlocks(w.market, t);
      }
    case Captures(c, _) =>
      hide Capture.Apply;
      CaptureAddsOne(w.capture, c, window);
      CaptureLaws.StepGrows(w.capture, c, window);
  }

  predicate IsSold(s: Sys, l: nat) {
    exists p :: 0 <= p < |s.db.posts| && s.db.posts[p].lead == l && s.db.posts[p].delivered
  }

  /** Whatever the two services do, two sold leads with one phone were captured more than the window apart. */
  lemma SoldLeadsAreApart(steps: seq<WholeStep>, window: nat, i: nat, j: nat)
    requires i < j && IsSold(Reached(steps, window).market, i) && IsSold(Reached(steps, window).market, j)
    ensures var leads := Reached(steps, window).capture.db.leads;
            j < |leads| && (leads[i].phone == leads[j].phone ==> leads[j].at - leads[i].at > window)
  {
    var w := Reached(steps, window);
    var trades := MarketSide(steps, window);
    BlockedNeverPosted(trades);
    AlwaysSameLeads(steps, window);
    CaptureSide(steps, window);
    CaptureLaws.UnblockedIffFirstInWindow(CaptureSteps(steps), window, j);
  }
}
