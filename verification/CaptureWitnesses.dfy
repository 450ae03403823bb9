/** Histories of captures that show what retries and opt-outs do not do. */
module CaptureWitnesses {
  import opened Capture
  import opened CaptureLaws
  import opened FormReceiver
  import opened Market
  import opened Sums

  /** A first delivery of a webhook up to the push, which fails. */
  function LostPush(form: Form): seq<Step> {
    [Arrive(form), Upsert(0), WriteAudit(0), Emit(0, false)]
  }

  lemma LostPushLeaves(form: Form, window: nat)
    ensures var s := Exec(LostPush(form), window);
            && s.pushes == [Push(form.webhook, 0, false)]
            && |s.db.leads| == 1 && s.db.leads[0].phone == form.phone && s.db.leads[0].hash == form.hash
  {
    var steps := LostPush(form);
    assert ExecTo(steps, window, 1) == Apply(START, steps[0], window);
    assert ExecTo(steps, window, 2) == Apply(ExecTo(steps, window, 1), steps[1], window);
    assert ExecTo(steps, window, 3) == Apply(ExecTo(steps, window, 2), steps[2], window);
  }

  lemma {:induction false} PushStays(steps: seq<Step>, more: seq<Step>, window: nat)
    ensures Exec(steps, window).pushes <= Exec(steps + more, window).pushes
  {
    hide Apply;
    if |more| == 0 {
      assert steps + more == steps;
    } else {
      var front := more[..|more| - 1];
      PushStays(steps, front, window);
      assert steps + more == steps + front + [more[|more| - 1]];
      ExecAppend(steps + front, more[|more| - 1], window);
      StepGrows(Exec(steps + front, window), more[|more| - 1], window);
    }
  }

  /** After it no history, with whatever retries, sends the event or accepts the lead. */
  lemma LostPushIsNeverMadeUp(form: Form, window: nat, more: seq<Step>)
    ensures var s := Exec(LostPush(form) + more, window);
            && Sum(s.pushes, PushOf(0)) == 1 && Sum(s.pushes, SentOf(0)) == 0
            && Sum(s.deliveries, AcceptedFor(0)) == 0
  {
    hide Exec;
    var steps := LostPush(form) + more;
    var s := Exec(steps, window);
    LostPushLeaves(form, window);
    PushStays(LostPush(form), more, window);
    CaptureOnce(steps, window, 0);
    FailedPushIsFinal(steps, window, 0, 0);
    SumAtLeastTerms(s.pushes, PushOf(0), 0, 0);
    forall i | 0 <= i < |s.pushes| ensures SentOf(0)(s.pushes[i]) == 0 {
      SumAtLeastTerms(s.pushes, PushOf(0), 0, i);
    }
    SumZero(s.pushes, SentOf(0));
  }

  /** A first delivery that dies between the lead and its audit row. */
  function LostAudit(form: Form): seq<Step> {
    [Arrive(form), Upsert(0), CrashDelivery(0)]
  }

  /** Delivered again, the same webhook writes the audit row; it adds no second lead and sends no event. */
  lemma RetryWritesLostAudit(form: Form, pushWorks: bool, window: nat)
    ensures var s := Exec(LostAudit(form), window);
            var s' := WholeDelivery(s, form, pushWorks, window);
            && |s.db.leads| == 1 && s.db.audits == [] && s.pushes == []
            && s'.db == s.db.(audits := [Audit(form.webhook, 0)]) && s'.pushes == []
  {
    var steps := LostAudit(form);
    assert ExecTo(steps, window, 1) == Apply(START, steps[0], window);
    assert ExecTo(steps, window, 2) == Apply(ExecTo(steps, window, 1), steps[1], window);
    var s := Exec(steps, window);
    assert s == Apply(ExecTo(steps, window, 2), steps[2], window);
    FindLeadIsExact(s.db.leads, form.phone, form.hash);
    WholeDeliveryLeaves(s, form, pushWorks, window);
  }

  /** An opt-out of a phone and then of the phone and an email: the email stays uncovered, and a later webhook with it
      and another phone is captured. */
  lemma SecondContactStaysUncovered(phone: nat, email: nat, form: Form, pushWorks: bool, window: nat)
    requires form.email == Some(email) && form.phone != phone
    ensures var s := Exec([OptOut(Some(phone), None), OptOut(Some(phone), Some(email))], window);
            && IsSuppressed(s.db, Some(phone), None) && !IsSuppressed(s.db, None, Some(email))
            && WholeDelivery(s, form, pushWorks, window).db.leads == [NewLead(form, false, 0)]
  {
    var steps := [OptOut(Some(phone), None), OptOut(Some(phone), Some(email))];
    var first := Suppression(Some(phone), None);
    var s1, s := ExecTo(steps, window, 1), Exec(steps, window);
    assert ExecTo(steps, window, 0) == START && s1 == Apply(START, steps[0], window);
    assert s1.db.suppressions == [first] && Matches(s1.db.suppressions[0], Some(phone), Some(email));
    assert s == s1;
    assert Matches(s.db.suppressions[0], Some(phone), None);
    WholeDeliveryLeaves(s, form, pushWorks, window);
  }

  /** Two forms of one phone, with some time between them. */
  function Again(form: Form, hash: nat, wait: nat): seq<Step> {
    [Arrive(form), Upsert(0)] + [Tick(wait)] + [Arrive(form.(hash := hash))] + [Upsert(1)]
  }

  lemma FirstLead(form: Form, window: nat)
    ensures var s := Exec([Arrive(form), Upsert(0)], window);
            && s.db == Tables([CapturedLead(form.phone, form.email, form.hash, false, false, 0)], [0], [], [])
            && s.deliveries == [Delivery(form, Saved(0, true), false)] && s.now == 0
  {
    var first := [Arrive(form), Upsert(0)];
    assert ExecTo(first, window, 1) == Apply(START, first[0], window);
    assert Exec(first, window) == Apply(ExecTo(first, window, 1), first[1], window);
  }

  /** The second lead is blocked and held exactly if it comes within the window. */
  lemma SecondLeadIsBlockedInWindow(form: Form, hash: nat, wait: nat, window: nat)
    requires hash != form.hash
    ensures Exec(Again(form, hash, wait), window).db.leads ==
              [CapturedLead(form.phone, form.email, form.hash, false, false, 0),
               CapturedLead(form.phone, form.email, hash, wait <= window, wait <= window, wait)]
  {
    var first, second := [Arrive(form), Upsert(0)], form.(hash := hash);
    FirstLead(form, window);
    hide Exec;
    var s1 := Exec(first, window);
    ExecAppend(first, Tick(wait), window);
    ExecAppend(first + [Tick(wait)], Arrive(second), window);
    ExecAppend(first + [Tick(wait)] + [Arrive(second)], Upsert(1), window);
    UpsertIsExact(s1.db, second, wait, window);
    assert CapturedWithin(s1.db, form.phone, wait, window) <==> wait - s1.db.leads[0].at <= window;
    hide UpsertLead, CapturedWithin;
  }
}
