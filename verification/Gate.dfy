/** The gate over time: a lead that was refused stays refused until somebody reviews or requalifies it. */
module Gate {
  import opened Market
  import opened Bidding
  import opened Saga
  import opened Scripts

  /** The marks that bar a lead whatever its score: blocked, held, or in a class that needs review. */
  predicate Marked(lead: Lead) {
    lead.blocked || lead.hold || lead.leadClass == Some(C) || lead.leadClass == Some(D)
  }

  /** A step that can take such a mark off lead l: a review that approves it, or a requalification. */
  predicate Reopens(step: Step, l: nat) {
    match step
    case LeadReviewed(k, action) => k == l && action == ApproveLead
    case LeadRequalified(k, _, _, _) => k == l
    case _ => false
  }

  predicate IsMarked(s: Sys, l: nat) {
    l < |s.db.leads| && Marked(s.db.leads[l])
  }

  lemma StepKeepsMark(s: Sys, step: Step, l: nat)
    requires IsMarked(s, l) && !Reopens(step, l)
    ensures IsMarked(Apply(s, step), l)
  {
    hide PickWinner, FromPinged, HasSale, WithinCap, HasDeliveryKey, CanReserve;
  }

  lemma {:induction false} MarkStays(s: Sys, more: seq<Step>, l: nat)
    requires IsMarked(s, l) && forall i :: 0 <= i < |more| ==> !Reopens(more[i], l)
    ensures IsMarked(Exec(s, more), l)
  {
    hide Apply, IsMarked;
    if |more| == 0 {
      assert more == [];
      ExecNone(s);
    } else {
      var front := more[..|more| - 1];
      ExecLast(s, more);
      MarkStays(s, front, l);
      StepKeepsMark(Exec(s, front), more[|more| - 1], l);
    }
  }

  /** The refusal that run r is about to store puts the lead on hold. */
  predicate StoresHold(s: Sys, r: nat) {
    && r < |s.runs| && s.runs[r].phase.Barred? && s.runs[r].leadClass != Some(D)
    && s.runs[r].phase.reason in {ClassRequiresReview, BelowHold, HeldForReview}
  }

  lemma RefusalMarks(s: Sys, r: nat, l: nat)
    requires r < |s.runs| && !s.runs[r].crashed && s.runs[r].phase.Barred? && s.runs[r].lead == l < |s.db.leads|
    ensures IsMarked(Apply(s, RunMoved(r, StoreBarred)), l) <==> StoresHold(s, r) || IsMarked(s, l)
  {
  }

  /** The gate refuses lead l at the given thresholds. */
  predicate Refuses(s: Sys, l: nat, abMin: real, holdMin: real) {
    l < |s.db.leads| && !GateVerdict(s.db.leads[l], abMin, holdMin).0
  }

  /** A lead is refused at all thresholds exactly when it carries a mark: without one its own score would do. */
  lemma MarkedIffRefused(s: Sys, l: nat)
    requires l < |s.db.leads|
    ensures IsMarked(s, l) <==> forall abMin, holdMin :: Refuses(s, l, abMin, holdMin)
  {
    var lead := s.db.leads[l];
    var score := if lead.score.Some? then lead.score.value
                 else if lead.qualification.Some? then lead.qualification.value else 0.0;
    if !IsMarked(s, l) {
      assert !Refuses(s, l, score, score);
    }
  }

  /** None of the steps reopens lead l. */
  predicate KeepsClosed(steps: seq<Step>, l: nat) {
    forall i :: 0 <= i < |steps| ==> !Reopens(steps[i], l)
  }

  /** Every later run of the lead is refused, whatever its thresholds and whatever else happens, until a review approves
      the lead or it is requalified. */
  ghost predicate StaysRefused(s: Sys, l: nat) {
    forall more, abMin, holdMin :: KeepsClosed(more, l) ==> Refuses(Exec(s, more), l, abMin, holdMin)
  }

  /** A stored refusal is lasting exactly when it puts the lead on hold or the lead still carries a mark; the mark may
      be gone when a requalification came between the check and the store. */
  lemma RefusalLastsIff(s: Sys, r: nat, l: nat)
    requires r < |s.runs| && !s.runs[r].crashed && s.runs[r].phase.Barred? && s.runs[r].lead == l < |s.db.leads|
    ensures StaysRefused(Apply(s, RunMoved(r, StoreBarred)), l) <==> StoresHold(s, r) || IsMarked(s, l)
  {
    var s' := Apply(s, RunMoved(r, StoreBarred));
    RefusalMarks(s, r, l);
    assert l < |s'.db.leads|;
    hide Apply, Exec, IsMarked, GateVerdict;
    if IsMarked(s', l) {
      forall more, abMin, holdMin | KeepsClosed(more, l) ensures Refuses(Exec(s', more), l, abMin, holdMin) {
        MarkStays(s', more, l);
        MarkedIsRefused(Exec(s', more), l, abMin, holdMin);
      }
    } else if StaysRefused(s', l) {
      ExecNone(s');
      forall abMin, holdMin ensures Refuses(s', l, abMin, holdMin) {
        assert KeepsClosed([], l);
      }
      MarkedIffRefused(s', l);
    }
  }

  lemma MarkedIsRefused(s: Sys, l: nat, abMin: real, holdMin: real)
    requires IsMarked(s, l)
    ensures Refuses(s, l, abMin, holdMin)
  {
  }

  /** As long as run r has not stored its refusal, it is as it was in s, unless it crashed. */
  predicate StillBarred(s: Sys, s': Sys, r: nat) {
    && r < |s.runs| && r < |s'.runs| && s'.runs[r].lead == s.runs[r].lead && |s.db.leads| <= |s'.db.leads|
    && (s'.runs[r].phase.Barred? ==> s'.runs[r].(crashed := s.runs[r].crashed) == s.runs[r])
  }

  lemma BarredMove(s: Sys, k: nat, move: Move, r: nat)
    requires k < |s.runs| && r < |s.runs|
    ensures StillBarred(s, ApplyMove(s, k, move), r)
  {
    hide PickWinner, FromPinged, HasSale, WithinCap, HasDeliveryKey, CanReserve;
  }

  lemma BarredStep(s: Sys, step: Step, r: nat)
    requires r < |s.runs|
    ensures StillBarred(s, Apply(s, step), r)
  {
    hide ApplyMove;
    if step.RunMoved? && step.r < |s.runs| {
      BarredMove(s, step.r, step.move, r);
    }
  }

  lemma BarredThenBarred(s: Sys, s1: Sys, s2: Sys, r: nat)
    requires StillBarred(s, s1, r) && StillBarred(s1, s2, r)
    ensures StillBarred(s, s2, r)
  {
  }

  lemma {:induction false} BarredRunKept(s: Sys, more: seq<Step>, r: nat)
    requires r < |s.runs|
    ensures StillBarred(s, Exec(s, more), r)
  {
    if |more| == 0 {
      assert more == [];
    } else {
      var s1 := Exec(s, more[..|more| - 1]);
      hide Apply, Exec;
      ExecLast(s, more);
      BarredRunKept(s, more[..|more| - 1], r);
      BarredStep(s1, more[|more| - 1], r);
      BarredThenBarred(s, s1, Exec(s, more), r);
    }
  }

  /** A run that the gate refuses, at whatever thresholds, leaves a lasting refusal, whatever happens before it is
      stored, as long as nobody reopens the lead in the meantime. */
  lemma RefusedUntilReopened(s: Sys, l: nat, abMin: real, holdMin: real, between: seq<Step>)
    requires Refuses(s, l, abMin, holdMin) && KeepsClosed(between, l)
    requires var s1 := Exec(Apply(s, RunStarted(l, abMin, holdMin)), between);
             |s.runs| < |s1.runs| && s1.runs[|s.runs|].phase.Barred? && !s1.runs[|s.runs|].crashed
    ensures var s1 := Exec(Apply(s, RunStarted(l, abMin, holdMin)), between);
            StaysRefused(Apply(s1, RunMoved(|s.runs|, StoreBarred)), l)
  {
    var r := |s.runs|;
    var s0 := Apply(s, RunStarted(l, abMin, holdMin));
    assert s0.runs[r] == NewRun(s.db.leads[l], l, abMin, holdMin);
    assert StoresHold(s0, r) || IsMarked(s0, l);
    var s1 := Exec(s0, between);
    BarredRunKept(s0, between, r);
    if IsMarked(s0, l) {
      MarkStays(s0, between, l);
    }
    RefusalLastsIff(s1, r, l);
  }

  const CLASS_D_LEAD := Lead(New, false, false, Some(D), Some(1.0), None, None, 0, 0)

  /** A refusal that does not last: the lead is requalified between the check and the store, and ends up rejected and
      let in again. */
  lemma RejectedLeadGetsIn(abMin: real, holdMin: real)
    requires abMin <= 1.0
    ensures var s := Exec(START, [LeadArrived(CLASS_D_LEAD), RunStarted(0, abMin, holdMin),
                                  LeadRequalified(0, Qualified, Some(A), Some(1.0)), RunMoved(0, StoreBarred)]);
            && |s.runs| == |s.db.leads| == 1 && s.runs[0].phase == Finished && s.db.leads[0].status == Rejected
            && GateVerdict(s.db.leads[0], abMin, holdMin).0
  {
    ExecFour(START, [LeadArrived(CLASS_D_LEAD), RunStarted(0, abMin, holdMin),
                     LeadRequalified(0, Qualified, Some(A), Some(1.0)), RunMoved(0, StoreBarred)]);
  }
}
