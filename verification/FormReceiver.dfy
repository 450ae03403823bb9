/** The form receiver: its three transactions as methods over the tables, and a whole webhook delivery. */
module FormReceiver {
  import opened Capture
  import opened CaptureLaws
  import opened Market
  import Quality

  class Receiver {
    const window: nat
    var leads: seq<CapturedLead>
    var captured: seq<nat>
    var audits: seq<Audit>
    var suppressions: seq<Suppression>
    var now: nat
    ghost var deliveries: seq<Delivery>
    ghost var pushes: seq<Push>

    constructor (window: nat)
      ensures this.window == window && State() == Capture.START
    {
      this.window := window;
      leads, captured, audits, suppressions, now := [], [], [], [], 0;
      deliveries, pushes := [], [];
    }

    function Db(): Tables
      reads this
    {
      Tables(leads, captured, audits, suppressions)
    }

    /** The state of the step machine this receiver is in. */
    ghost function State(): Capture.Sys
      reads this
    {
      Capture.Sys(Db(), deliveries, pushes, now)
    }

    method FindSuppression(phone: Option<nat>, email: Option<nat>) returns (found: bool)
      ensures found == IsSuppressed(Db(), phone, email)
    {
      for i := 0 to |suppressions|
        invariant forall j :: 0 <= j < i ==> !Matches(suppressions[j], phone, email)
      {
        if Matches(suppressions[i], phone, email) {
          return true;
        }
      }
      found := false;
    }

    method DuplicateExists(phone: nat) returns (found: bool)
      ensures found == IsDuplicate(Db(), phone, now, window)
    {
      var windowStart := now - window;
      for i := 0 to |leads|
        invariant forall j :: 0 <= j < i ==> !(leads[j].phone == phone && leads[j].at + window >= now)
      {
        if leads[i].phone == phone && leads[i].at >= windowStart {
          return true;
        }
      }
      found := false;
    }

    method ExistingLead(phone: nat, hash: nat) returns (l: Option<nat>)
      ensures l == FindLead(leads, phone, hash)
    {
      var i: nat := |leads|;
      assert leads[..i] == leads;
      while i > 0
        invariant i <= |leads|
        invariant FindLead(leads, phone, hash) == FindLead(leads[..i], phone, hash)
      {
        i := i - 1;
        assert leads[..i + 1][..i] == leads[..i];
        if leads[i].phone == phone && leads[i].hash == hash {
          return Some(i);
        }
      }
      l := None;
    }

    method UpsertLead(ghost d: nat, form: Form) returns (outcome: Upserted)
      requires CanMove(State(), d) && deliveries[d] == Delivery(form, Received, false)
      modifies this`leads, this`captured, this`deliveries
      ensures State() == Capture.Apply(old(State()), Upsert(d), window)
      ensures outcome == Capture.UpsertLead(old(Db()), form, now, window).1
      ensures deliveries == old(deliveries)[d := deliveries[d]] && !deliveries[d].crashed && deliveries[d].form == form
      ensures deliveries[d].stage == if outcome.Refused?
                then Replied(Suppressed) else Saved(outcome.lead, outcome.created)
    {
      var suppressed := FindSuppression(Some(form.phone), form.email);
      if suppressed {
        deliveries := deliveries[d := deliveries[d].(stage := Replied(Suppressed))];
        return Refused;
      }
      var duplicate := DuplicateExists(form.phone);
      var score := Quality.InitialQualityScore(form.dwellMs, form.email.Some?, duplicate);
      var existing := ExistingLead(form.phone, form.hash);
      if existing.Some? {
        deliveries := deliveries[d := deliveries[d].(stage := Saved(existing.value, false))];
        return Stored(existing.value, false);
      }
      var l := |leads|;
      leads := leads + [CapturedLead(form.phone, form.email, form.hash, score.blocked, score.hold, now)];
      if l !in captured {
        captured := captured + [l];
      }
      deliveries := deliveries[d := deliveries[d].(stage := Saved(l, true))];
      outcome := Stored(l, true);
    }

    method RecordAudit(ghost d: nat, webhook: nat, l: nat, ghost created: bool) returns (wasNew: bool)
      requires CanMove(State(), d) && deliveries[d].stage == Saved(l, created) && deliveries[d].form.webhook == webhook
      modifies this`audits, this`deliveries
      ensures State() == Capture.Apply(old(State()), WriteAudit(d), window)
      ensures wasNew == !HasAudit(old(Db()), webhook)
      ensures deliveries == old(deliveries)[d := deliveries[d]] &&
                deliveries[d] == old(deliveries[d]).(stage := Audited(l, created, wasNew))
    {
      wasNew := true;
      for i := 0 to |audits|
        invariant wasNew <==> forall j :: 0 <= j < i ==> audits[j].webhook != webhook
      {
        if audits[i].webhook == webhook {
          wasNew := false;
        }
      }
      if wasNew {
        audits := audits + [Audit(webhook, l)];
      }
      deliveries := deliveries[d := deliveries[d].(stage := Audited(l, created, wasNew))];
    }

    /** An opt-out; the request names at least one contact. */
    method RecordSuppression(phone: Option<nat>, email: Option<nat>) returns (created: bool)
      requires phone.Some? || email.Some?
      modifies this`suppressions
      ensures State() == Capture.Apply(old(State()), OptOut(phone, email), window)
      ensures created == !IsSuppressed(old(Db()), phone, email)
      ensures IsSuppressed(Db(), phone, email)
    {
      var existing := FindSuppression(phone, email);
      if existing {
        return false;
      }
      suppressions := suppressions + [Suppression(phone, email)];
      assert Matches(suppressions[|suppressions| - 1], phone, email);
      created := true;
    }

    /** One webhook delivery with nothing interleaved; pushWorks tells whether the event could be sent. */
    method FormbricksWebhook(form: Form, pushWorks: bool) returns (reply: Reply)
      modifies this
      ensures State() == WholeDelivery(old(State()), form, pushWorks, window)
      ensures var (db, outcome) := Capture.UpsertLead(old(Db()), form, old(now), window);
              reply == if outcome.Refused? then Suppressed
                       else if !outcome.created || HasAudit(db, form.webhook) then AcceptedDuplicate(outcome.lead)
                       else if pushWorks then Accepted(outcome.lead) else EmissionFailed(outcome.lead)
    {
      ghost var d := |deliveries|;
      deliveries := deliveries + [Delivery(form, Received, false)];
      var outcome := UpsertLead(d, form);
      if outcome.Refused? {
        return Suppressed;
      }
      var wasNew := RecordAudit(d, form.webhook, outcome.lead, outcome.created);
      if wasNew && outcome.created {
        pushes := pushes + [Push(form.webhook, outcome.lead, pushWorks)];
        if !pushWorks {
          deliveries := deliveries[d := deliveries[d].(stage := Replied(EmissionFailed(outcome.lead)))];
          return EmissionFailed(outcome.lead);
        }
        deliveries := deliveries[d := deliveries[d].(stage := Pushed(outcome.lead))];
        deliveries := deliveries[d := deliveries[d].(stage := Replied(Accepted(outcome.lead)))];
        return Accepted(outcome.lead);
      }
      deliveries := deliveries[d := deliveries[d].(stage := Replied(AcceptedDuplicate(outcome.lead)))];
      reply := AcceptedDuplicate(outcome.lead);
    }
  }

  /** A delivery from arrival to reply; steps it has no use for change nothing. */
  function WholeDelivery(s: Capture.Sys, form: Form, pushWorks: bool, window: nat): Capture.Sys {
    var d := |s.deliveries|;
    var upserted := Capture.Apply(Capture.Apply(s, Arrive(form), window), Upsert(d), window);
    Capture.Apply(Capture.Apply(Capture.Apply(upserted, WriteAudit(d), window), Emit(d, pushWorks), window),
      Answer(d), window)
  }

  /** The rows and messages a whole delivery leaves behind. */
  lemma WholeDeliveryLeaves(s: Capture.Sys, form: Form, pushWorks: bool, window: nat)
    ensures var (db, outcome) := Capture.UpsertLead(s.db, form, s.now, window);
            var s' := WholeDelivery(s, form, pushWorks, window);
            && s'.now == s.now
            && s'.db == (if outcome.Refused? then s.db else Capture.RecordAudit(db, form.webhook, outcome.lead))
            && s'.pushes == s.pushes + if outcome.Stored? && outcome.created && !HasAudit(db, form.webhook)
                                       then [Push(form.webhook, outcome.lead, pushWorks)] else []
  {
    hide FindLead, IsDuplicate, IsSuppressed, HasAudit;
  }

  /** A webhook that was delivered to its reply, whatever that was, and is delivered again at once adds no row and
      sends no event. */
  lemma RetryAddsNothing(s: Capture.Sys, form: Form, pushWorks: bool, again: bool, window: nat)
    ensures var s1 := WholeDelivery(s, form, pushWorks, window);
            var s2 := WholeDelivery(s1, form, again, window);
            s2.db == s1.db && s2.pushes == s1.pushes
  {
    hide WholeDelivery;
    var s1 := WholeDelivery(s, form, pushWorks, window);
    WholeDeliveryLeaves(s, form, pushWorks, window);
    WholeDeliveryLeaves(s1, form, again, window);
    var (db, outcome) := Capture.UpsertLead(s.db, form, s.now, window);
    if outcome.Stored? {
      FindLeadIsExact(s.db.leads, form.phone, form.hash);
      FindLeadIsExact(s1.db.leads, form.phone, form.hash);
      assert s1.db.leads == db.leads && s1.db.leads[outcome.lead].phone == form.phone &&
        s1.db.leads[outcome.lead].hash == form.hash;
      AuditWritten(db, form.webhook, outcome.lead);
    }
  }

  /** A webhook sent again, at any time after some delivery captured its phone and hash, and whatever happened since:
      no lead, no captured row and no event is added; an audit row is added exactly when the webhook has none yet,
      because the first delivery died before its audit or came under another webhook id, and the contact has not
      opted out. */
  lemma LateRetryAddsAtMostAnAudit(steps: seq<Step>, window: nat, n: nat, form: Form, pushWorks: bool)
    requires n <= |steps| && IsTaken(ExecTo(steps, window, n).db, form.phone, form.hash)
    ensures var s := Capture.Exec(steps, window);
            var s' := WholeDelivery(s, form, pushWorks, window);
            && s'.db == s.db.(audits := s'.db.audits) && s'.pushes == s.pushes
            && (s'.db.audits != s.db.audits <==>
                  !HasAudit(s.db, form.webhook) && !IsSuppressed(s.db, Some(form.phone), form.email))
            && (s'.db.audits != s.db.audits ==>
                  exists l :: LeadFits(s, form, l) && s'.db.audits == s.db.audits + [Audit(form.webhook, l)])
  {
    hide WholeDelivery, Capture.ExecTo, HasAudit, IsSuppressed;
    var s := Capture.Exec(steps, window);
    TakenForever(steps, window, n, |steps|, form.phone, form.hash);
    TakenIsFound(s.db, form);
    FindLeadIsExact(s.db.leads, form.phone, form.hash);
    WholeDeliveryLeaves(s, form, pushWorks, window);
    var found := FindLead(s.db.leads, form.phone, form.hash).value;
    assert LeadFits(s, form, found);
  }
}
