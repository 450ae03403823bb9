/** What every history of captures keeps. */
module CaptureLaws {
  import opened Capture
  import opened Market
  import opened Sums

  // ---------------------------------------------------------------- rows

  lemma {:induction false} FindLeadIsExact(leads: seq<CapturedLead>, phone: nat, hash: nat)
    ensures FindLead(leads, phone, hash).None? <==>
              forall i :: 0 <= i < |leads| ==> leads[i].phone != phone || leads[i].hash != hash
    ensures var found := FindLead(leads, phone, hash);
            found.Some? ==>
              found.value < |leads| && leads[found.value].phone == phone && leads[found.value].hash == hash
  {
    if |leads| > 0 {
      FindLeadIsExact(leads[..|leads| - 1], phone, hash);
    }
  }

  /** An earlier lead of the same phone lies within the lookback window of lead j. */
  predicate HasEarlierInWindow(leads: seq<CapturedLead>, j: nat, window: nat)
    requires j < |leads|
  {
    exists i :: 0 <= i < j && leads[i].phone == leads[j].phone && leads[i].at + window >= leads[j].at
  }

  ghost predicate LeadsSound(s: Sys, window: nat) {
    var leads := s.db.leads;
    && (forall i, j :: 0 <= i < j < |leads| ==> leads[i].phone != leads[j].phone || leads[i].hash != leads[j].hash)
    && (forall i, j :: 0 <= i < j < |leads| ==> leads[i].at <= leads[j].at)
    && (forall i :: 0 <= i < |leads| ==> leads[i].at <= s.now)
    && (forall j :: 0 <= j < |leads| ==> leads[j].blocked == leads[j].hold == HasEarlierInWindow(leads, j, window))
    && |s.db.captured| == |leads| && (forall i :: 0 <= i < |leads| ==> s.db.captured[i] == i)
  }

  ghost predicate AuditsSound(s: Sys) {
    && (forall i, j :: 0 <= i < j < |s.db.audits| ==> s.db.audits[i].webhook != s.db.audits[j].webhook)
    && (forall i :: 0 <= i < |s.db.audits| ==> s.db.audits[i].lead < |s.db.leads|)
  }

  /** The lead a delivery settled on carries the phone and hash of its form. */
  predicate LeadFits(s: Sys, form: Form, l: nat) {
    l < |s.db.leads| && s.db.leads[l].phone == form.phone && s.db.leads[l].hash == form.hash
  }

  predicate DeliverySound(s: Sys, d: Delivery) {
    match d.stage
    case Saved(l, _) => LeadFits(s, d.form, l)
    case Audited(l, created, wasNew) =>
      LeadFits(s, d.form, l) && HasAudit(s.db, d.form.webhook) && (wasNew ==> Audit(d.form.webhook, l) in s.db.audits)
    case Pushed(l) => LeadFits(s, d.form, l)
    case Replied(Accepted(l)) => LeadFits(s, d.form, l)
    case Replied(AcceptedDuplicate(l)) => LeadFits(s, d.form, l)
    case Replied(EmissionFailed(l)) => LeadFits(s, d.form, l)
    case _ => true
  }

  ghost predicate DeliveriesSound(s: Sys) {
    && (forall i :: 0 <= i < |s.deliveries| ==> DeliverySound(s, s.deliveries[i]))
    && (forall i :: 0 <= i < |s.pushes| ==>
          s.pushes[i].lead < |s.db.leads| && Audit(s.pushes[i].webhook, s.pushes[i].lead) in s.db.audits)
  }

  /** The lead delivery d would insert now. */
  function LeadToAdd(s: Sys, d: nat, window: nat): CapturedLead
    requires d < |s.deliveries|
  {
    var form := s.deliveries[d].form;
    NewLead(form, IsDuplicate(s.db, form.phone, s.now, window), s.now)
  }

  predicate Upserts(s: Sys, d: nat) {
    CanMove(s, d) && s.deliveries[d].stage.Received?
  }

  /** The three ways an upsert can go: refused, recognised, or a new lead. */
  lemma UpsertEffect(s: Sys, d: nat, window: nat)
    requires Upserts(s, d)
    ensures var s', form := Apply(s, Upsert(d), window), s.deliveries[d].form;
            if IsSuppressed(s.db, Some(form.phone), form.email) then s' == Advance(s, d, Replied(Suppressed))
            else if FindLead(s.db.leads, form.phone, form.hash).Some?
            then var l := FindLead(s.db.leads, form.phone, form.hash).value;
                 LeadFits(s, form, l) && s' == Advance(s, d, Saved(l, false))
            else
              && s' == Advance(s.(db := Added(s.db, LeadToAdd(s, d, window))), d, Saved(|s.db.leads|, true))
              && forall i :: 0 <= i < |s.db.leads| ==>
                   s.db.leads[i].phone != form.phone || s.db.leads[i].hash != form.hash
  {
    FindLeadIsExact(s.db.leads, s.deliveries[d].form.phone, s.deliveries[d].form.hash);
  }

  /** Some suppression entry has the phone, or the email if there is one. */
  predicate OptedOut(db: Tables, phone: Option<nat>, email: Option<nat>) {
    exists i :: 0 <= i < |db.suppressions| &&
                ((phone.Some? && db.suppressions[i].phone == phone) ||
                  (email.Some? && db.suppressions[i].email == email))
  }

  /** Some lead of the phone was captured no longer than the window before now. */
  predicate CapturedWithin(db: Tables, phone: nat, now: nat, window: nat) {
    exists i :: 0 <= i < |db.leads| && db.leads[i].phone == phone && now - db.leads[i].at <= window
  }

  lemma OptedOutIsSuppressed(db: Tables, phone: Option<nat>, email: Option<nat>)
    ensures OptedOut(db, phone, email) <==> IsSuppressed(db, phone, email)
  {
    forall i | 0 <= i < |db.suppressions|
      ensures Matches(db.suppressions[i], phone, email) <==>
                (phone.Some? && db.suppressions[i].phone == phone) || (email.Some? && db.suppressions[i].email == email)
    {
    }
  }

  /** An upsert, row by row: a contact that opted out is refused; a phone with the same page hash is the lead it was;
      any other form becomes a lead, blocked and held exactly if its phone was captured within the window. */
  lemma UpsertIsExact(db: Tables, form: Form, now: nat, window: nat)
    ensures var (db', outcome) := UpsertLead(db, form, now, window);
            var duplicate := CapturedWithin(db, form.phone, now, window);
            if OptedOut(db, Some(form.phone), form.email) then db' == db && outcome == Refused
            else if exists i :: 0 <= i < |db.leads| && db.leads[i].phone == form.phone && db.leads[i].hash == form.hash
            then
              && db' == db && outcome.Stored? && !outcome.created && outcome.lead < |db.leads|
              && db.leads[outcome.lead].phone == form.phone && db.leads[outcome.lead].hash == form.hash
            else
              && outcome == Stored(|db.leads|, true)
              && db'.leads == db.leads + [CapturedLead(form.phone, form.email, form.hash, duplicate, duplicate, now)]
              && (|db.leads| !in db.captured ==> db'.captured == db.captured + [|db.leads|])
              && db'.audits == db.audits && db'.suppressions == db.suppressions
  {
    FindLeadIsExact(db.leads, form.phone, form.hash);
    OptedOutIsSuppressed(db, Some(form.phone), form.email);
    hide IsSuppressed, OptedOut;
  }

  /** A webhook without an audit row gets one; a contact without an entry gets one that names what the opt-out names. */
  lemma RecordsAreExact(db: Tables, webhook: nat, l: nat, phone: Option<nat>, email: Option<nat>)
    ensures RecordAudit(db, webhook, l) == db.(audits := db.audits +
              if exists i :: 0 <= i < |db.audits| && db.audits[i].webhook == webhook then [] else [Audit(webhook, l)])
    ensures RecordSuppression(db, phone, email) == db.(suppressions := db.suppressions +
              if OptedOut(db, phone, email) then [] else [Suppression(phone, email)])
  {
    OptedOutIsSuppressed(db, phone, email);
    assert db.audits + [] == db.audits && db.suppressions + [] == db.suppressions;
    hide IsSuppressed, OptedOut;
  }

  /** A lead appended at the end changes nothing for the earlier ones, and looks back over all of them. */
  lemma WindowGrows(leads: seq<CapturedLead>, lead: CapturedLead, window: nat)
    ensures forall j :: 0 <= j < |leads| ==>
              HasEarlierInWindow(leads + [lead], j, window) == HasEarlierInWindow(leads, j, window)
    ensures HasEarlierInWindow(leads + [lead], |leads|, window) <==>
              exists i :: 0 <= i < |leads| && leads[i].phone == lead.phone && leads[i].at + window >= lead.at
  {
    var leads' := leads + [lead];
    forall j | 0 <= j < |leads| ensures HasEarlierInWindow(leads', j, window) == HasEarlierInWindow(leads, j, window) {
      if i :| 0 <= i < j && leads[i].phone == leads[j].phone && leads[i].at + window >= leads[j].at {
        assert leads'[i] == leads[i];
      }
    }
    if i :| 0 <= i < |leads| && leads[i].phone == lead.phone && leads[i].at + window >= lead.at {
      assert leads'[i] == leads[i];
    }
  }

  lemma LeadsSoundAdded(s: Sys, s': Sys, lead: CapturedLead, window: nat)
    requires LeadsSound(s, window) && s'.now == s.now && s'.db == Added(s.db, lead)
    requires forall i :: 0 <= i < |s.db.leads| ==> s.db.leads[i].phone != lead.phone || s.db.leads[i].hash != lead.hash
    requires lead.at == s.now && lead.blocked == lead.hold == IsDuplicate(s.db, lead.phone, s.now, window)
    ensures LeadsSound(s', window)
  {
    hide HasEarlierInWindow;
    WindowGrows(s.db.leads, lead, window);
  }

  lemma LeadsSoundStep(s: Sys, step: Step, window: nat)
    requires LeadsSound(s, window)
    ensures LeadsSound(Apply(s, step, window), window)
  {
    hide UpsertLead;
    if step.Upsert? && Upserts(s, step.d) {
      hide LeadsSound, Added, FindLead, IsDuplicate;
      UpsertEffect(s, step.d, window);
      var s' := Apply(s, step, window);
      if s'.db != s.db {
        LeadsSoundAdded(s, s', LeadToAdd(s, step.d, window), window);
      } else {
        LeadsSoundSame(s, s', window);
      }
    }
  }

  lemma LeadsSoundSame(s: Sys, s': Sys, window: nat)
    requires LeadsSound(s, window) && s'.now == s.now && s'.db == s.db
    ensures LeadsSound(s', window)
  {
  }

  lemma AuditsSoundStep(s: Sys, step: Step, window: nat)
    requires AuditsSound(s) && DeliveriesSound(s)
    ensures AuditsSound(Apply(s, step, window))
  {
    hide UpsertLead;
    if step.Upsert? && Upserts(s, step.d) {
      UpsertEffect(s, step.d, window);
    } else if step.WriteAudit? && CanMove(s, step.d) {
      assert DeliverySound(s, s.deliveries[step.d]);
    }
  }

  /** Rows are never removed or edited. */
  predicate RowsGrow(s: Sys, s': Sys) {
    && s.db.leads <= s'.db.leads && s.db.audits <= s'.db.audits && s.db.suppressions <= s'.db.suppressions
    && s.pushes <= s'.pushes && s.now <= s'.now
  }

  lemma StepGrows(s: Sys, step: Step, window: nat)
    ensures RowsGrow(s, Apply(s, step, window))
  {
    hide UpsertLead;
    if step.Upsert? && Upserts(s, step.d) {
      UpsertEffect(s, step.d, window);
    }
  }

  lemma DeliverySoundGrows(s: Sys, s': Sys, d: Delivery)
    requires DeliverySound(s, d) && RowsGrow(s, s')
    ensures DeliverySound(s', d)
  {
  }

  lemma AuditWritten(db: Tables, webhook: nat, l: nat)
    ensures var db' := RecordAudit(db, webhook, l);
            && HasAudit(db', webhook) && (!HasAudit(db, webhook) ==> Audit(webhook, l) in db'.audits)
            && db'.leads == db.leads
  {
    var db' := RecordAudit(db, webhook, l);
    if !HasAudit(db, webhook) {
      assert db'.audits[|db.audits|] == Audit(webhook, l);
    }
  }

  /** A delivery that moves ends up in a sound stage. */
  lemma MovedSound(s: Sys, step: Step, window: nat, d: nat)
    requires DeliveriesSound(s) && d < |s.deliveries|
    requires Apply(s, step, window).deliveries[d] != s.deliveries[d]
    ensures DeliverySound(Apply(s, step, window), Apply(s, step, window).deliveries[d])
  {
    hide UpsertLead, RecordAudit, HasAudit;
    assert DeliverySound(s, s.deliveries[d]);
    var form := s.deliveries[d].form;
    match step {
      case Upsert(_) => if s.deliveries[d].stage.Received? { UpsertEffect(s, d, window); }
      case WriteAudit(_) =>
        if s.deliveries[d].stage.Saved? { AuditWritten(s.db, form.webhook, s.deliveries[d].stage.lead); }
      case CrashDelivery(_) =>
      case _ =>
    }
  }

  lemma DeliveriesSoundStep(s: Sys, step: Step, window: nat)
    requires DeliveriesSound(s)
    ensures DeliveriesSound(Apply(s, step, window))
  {
    var s' := Apply(s, step, window);
    StepGrows(s, step, window);
    forall i | 0 <= i < |s'.deliveries| ensures DeliverySound(s', s'.deliveries[i]) {
      if i < |s.deliveries| {
        DeliverySoundGrows(s, s', s.deliveries[i]);
        if s'.deliveries[i] != s.deliveries[i] {
          MovedSound(s, step, window, i);
        }
      }
    }
    PushesSound(s, step, window);
  }

  lemma PushesSound(s: Sys, step: Step, window: nat)
    requires DeliveriesSound(s)
    ensures var s' := Apply(s, step, window);
            forall i :: 0 <= i < |s'.pushes| ==>
              s'.pushes[i].lead < |s'.db.leads| && Audit(s'.pushes[i].webhook, s'.pushes[i].lead) in s'.db.audits
  {
    hide UpsertLead;
    StepGrows(s, step, window);
    if step.Emit? && CanMove(s, step.d) {
      assert DeliverySound(s, s.deliveries[step.d]);
    }
  }

  // ---------------------------------------------------------------- one emission per lead

  /** 1 for the delivery that created lead l and may still come to emit it. */
  function TokenFor(l: nat): Delivery -> int {
    (d: Delivery) =>
      if (d.stage.Saved? && d.stage.created && d.stage.lead == l)
      || (d.stage.Audited? && d.stage.created && d.stage.wasNew && d.stage.lead == l) then 1 else 0
  }

  function PushOf(l: nat): Push -> int {
    (p: Push) => if p.lead == l then 1 else 0
  }

  function SentOf(l: nat): Push -> int {
    (p: Push) => if p.lead == l && p.ok then 1 else 0
  }

  /** 1 for a delivery that emitted lead l, whether or not it has said so yet. */
  function EmittedBy(l: nat): Delivery -> int {
    (d: Delivery) =>
      if (d.stage.Pushed? && d.stage.lead == l) ||
         (d.stage.Replied? && d.stage.reply.Accepted? && d.stage.reply.lead == l)
      then 1 else 0
  }

  function AcceptedFor(l: nat): Delivery -> int {
    (d: Delivery) => if d.stage.Replied? && d.stage.reply.Accepted? && d.stage.reply.lead == l then 1 else 0
  }

  ghost predicate EmittedOnce(s: Sys, l: nat) {
    && Sum(s.deliveries, TokenFor(l)) + Sum(s.pushes, PushOf(l)) <= One(l < |s.db.leads|)
    && Sum(s.deliveries, EmittedBy(l)) == Sum(s.pushes, SentOf(l))
  }

  /** A step adds one delivery, or changes at most delivery d. */
  lemma DeliveriesEdited(s: Sys, step: Step, window: nat, f: Delivery -> int) returns (d: nat)
    ensures var s' := Apply(s, step, window);
            if step.Arrive? then Sum(s'.deliveries, f) == Sum(s.deliveries, f) + f(Delivery(step.form, Received, false))
            else if d < |s.deliveries|
            then |s'.deliveries| == |s.deliveries| && s'.deliveries == s.deliveries[d := s'.deliveries[d]]
                 && Sum(s'.deliveries, f) == Sum(s.deliveries, f) - f(s.deliveries[d]) + f(s'.deliveries[d])
            else s'.deliveries == s.deliveries && Sum(s'.deliveries, f) == Sum(s.deliveries, f)
    ensures d == match step { case Upsert(k) => k case WriteAudit(k) => k case Emit(k, _) => k case Answer(k) => k
                              case CrashDelivery(k) => k case _ => |s.deliveries| }
  {
    hide UpsertLead, RecordAudit;
    d := match step { case Upsert(k) => k case WriteAudit(k) => k case Emit(k, _) => k case Answer(k) => k
                      case CrashDelivery(k) => k case _ => |s.deliveries| };
    var s' := Apply(s, step, window);
    if step.Arrive? {
      SumAppend(s.deliveries, Delivery(step.form, Received, false), f);
    } else if d < |s.deliveries| {
      SumEdits(s.deliveries, s'.deliveries, d, f);
    }
  }

  lemma PushesGrow(s: Sys, step: Step, window: nat, f: Push -> int)
    ensures var s' := Apply(s, step, window);
            && s'.pushes == (if |s'.pushes| > |s.pushes| then s.pushes + [s'.pushes[|s.pushes|]] else s.pushes)
            && Sum(s'.pushes, f) == Sum(s.pushes, f) + if |s'.pushes| > |s.pushes| then f(s'.pushes[|s.pushes|]) else 0
  {
    hide UpsertLead, RecordAudit;
    SumGrows(s.pushes, Apply(s, step, window).pushes, f);
  }

  lemma EmittedOnceStep(s: Sys, step: Step, window: nat, l: nat)
    requires EmittedOnce(s, l) && DeliveriesSound(s)
    ensures EmittedOnce(Apply(s, step, window), l)
  {
    hide UpsertLead, RecordAudit, HasAudit, DeliverySound;
    var d := DeliveriesEdited(s, step, window, TokenFor(l));
    d := DeliveriesEdited(s, step, window, EmittedBy(l));
    PushesGrow(s, step, window, PushOf(l));
    PushesGrow(s, step, window, SentOf(l));
    StepGrows(s, step, window);
    if step.Upsert? && Upserts(s, step.d) {
      UpsertEffect(s, step.d, window);
      SumNonNegative(s.deliveries, TokenFor(l));
      SumNonNegative(s.pushes, PushOf(l));
    }
  }

  lemma {:induction false} AlwaysSound(steps: seq<Step>, window: nat, n: nat)
    requires n <= |steps|
    ensures var s := ExecTo(steps, window, n);
            LeadsSound(s, window) && AuditsSound(s) && DeliveriesSound(s) && forall l: nat :: EmittedOnce(s, l)
  {
    hide Apply;
    if n == 0 {
      assert forall l: nat :: EmittedOnce(START, l);
    } else {
      var s := ExecTo(steps, window, n - 1);
      AlwaysSound(steps, window, n - 1);
      LeadsSoundStep(s, steps[n - 1], window);
      AuditsSoundStep(s, steps[n - 1], window);
      DeliveriesSoundStep(s, steps[n - 1], window);
      forall l: nat ensures EmittedOnce(ExecTo(steps, window, n), l) {
        EmittedOnceStep(s, steps[n - 1], window, l);
      }
    }
  }

  /** Whatever is retried, interleaved or crashed: one lead per phone and hash, one audit per webhook, one
      captured row per lead; each lead is emitted at most once and accepted at most once, and only after
      its lead and audit rows exist; an accepted lead was emitted. */
  lemma CaptureOnce(steps: seq<Step>, window: nat, l: nat)
    ensures var s := Exec(steps, window);
            && (forall i, j :: 0 <= i < j < |s.db.leads| ==>
                  s.db.leads[i].phone != s.db.leads[j].phone || s.db.leads[i].hash != s.db.leads[j].hash)
            && (forall i, j :: 0 <= i < j < |s.db.audits| ==> s.db.audits[i].webhook != s.db.audits[j].webhook)
            && |s.db.captured| == |s.db.leads| && (forall i :: 0 <= i < |s.db.leads| ==> s.db.captured[i] == i)
            && Sum(s.pushes, PushOf(l)) <= 1
            && Sum(s.deliveries, AcceptedFor(l)) <= Sum(s.pushes, SentOf(l)) <= 1
            && forall i :: 0 <= i < |s.pushes| ==>
                 s.pushes[i].lead < |s.db.leads| && Audit(s.pushes[i].webhook, s.pushes[i].lead) in s.db.audits
  {
    var s := Exec(steps, window);
    AlwaysSound(steps, window, |steps|);
    assert EmittedOnce(s, l);
    SumNonNegative(s.deliveries, TokenFor(l));
    SumAtMost(s.pushes, SentOf(l), PushOf(l));
    SumAtMost(s.deliveries, AcceptedFor(l), EmittedBy(l));
  }

  // ---------------------------------------------------------------- when an emission can still happen

  /** Delivery d holds the only chance to emit lead l: it created the lead, it lives, and its audit row is its own. */
  predicate CanEmit(s: Sys, d: nat, l: nat) {
    && CanMove(s, d)
    && (s.deliveries[d].stage == Saved(l, true) ==> !HasAudit(s.db, s.deliveries[d].form.webhook))
    && (s.deliveries[d].stage == Saved(l, true) || s.deliveries[d].stage == Audited(l, true, true))
  }

  predicate SomeoneCanEmit(s: Sys, l: nat) {
    exists d :: 0 <= d < |s.deliveries| && CanEmit(s, d, l)
  }

  lemma NoChanceStays(s: Sys, step: Step, window: nat, l: nat)
    requires l < |s.db.leads| && !SomeoneCanEmit(s, l)
    ensures var s' := Apply(s, step, window);
            && l < |s'.db.leads| && !SomeoneCanEmit(s', l)
            && Sum(s'.pushes, PushOf(l)) == Sum(s.pushes, PushOf(l))
  {
    hide UpsertLead;
    var s' := Apply(s, step, window);
    StepGrows(s, step, window);
    PushesGrow(s, step, window, PushOf(l));
    if step.Upsert? && Upserts(s, step.d) {
      UpsertEffect(s, step.d, window);
    }
    if step.Emit? && step.d < |s.deliveries| {
      assert !CanEmit(s, step.d, l);
    }
    forall d | 0 <= d < |s'.deliveries| ensures !CanEmit(s', d, l) {
      assert d < |s.deliveries| ==> !CanEmit(s, d, l);
    }
  }

  lemma {:induction false} NoChanceForever(steps: seq<Step>, window: nat, l: nat, n: nat, m: nat)
    requires n <= m <= |steps| && l < |ExecTo(steps, window, n).db.leads| &&
               !SomeoneCanEmit(ExecTo(steps, window, n), l)
    ensures l < |ExecTo(steps, window, m).db.leads| && !SomeoneCanEmit(ExecTo(steps, window, m), l)
    ensures Sum(ExecTo(steps, window, m).pushes, PushOf(l)) == Sum(ExecTo(steps, window, n).pushes, PushOf(l))
  {
    hide Apply;
    if m > n {
      NoChanceForever(steps, window, l, n, m - 1);
      NoChanceStays(ExecTo(steps, window, m - 1), steps[m - 1], window, l);
    }
  }

  /** The steps by which delivery d emits its lead. */
  function Emission(s: Sys, d: nat): seq<Step> {
    if d < |s.deliveries| && s.deliveries[d].stage.Saved? then [WriteAudit(d), Emit(d, true)] else [Emit(d, true)]
  }

  lemma EmissionWorks(steps: seq<Step>, window: nat, d: nat, l: nat)
    requires CanEmit(Exec(steps, window), d, l)
    ensures Sum(Exec(steps + Emission(Exec(steps, window), d), window).pushes, PushOf(l)) ==
              Sum(Exec(steps, window).pushes, PushOf(l)) + 1
  {
    hide ExecTo;
    var s := Exec(steps, window);
    var webhook := s.deliveries[d].form.webhook;
    SumAppend(s.pushes, Push(webhook, l, true), PushOf(l));
    if s.deliveries[d].stage.Saved? {
      ExecAppend(steps, WriteAudit(d), window);
      ExecAppend(steps + [WriteAudit(d)], Emit(d, true), window);
      assert steps + [WriteAudit(d), Emit(d, true)] == steps + [WriteAudit(d)] + [Emit(d, true)];
    } else {
      ExecAppend(steps, Emit(d, true), window);
    }
  }

  /** A captured lead can still be emitted exactly while a live delivery holds its chance. After a crash in
      between, or a failed push, no retry, under any webhook id, ever emits it. */
  lemma EmissionStillPossible(steps: seq<Step>, window: nat, l: nat)
    requires l < |Exec(steps, window).db.leads|
    ensures (exists more ::
               Sum(Exec(steps + more, window).pushes, PushOf(l)) > Sum(Exec(steps, window).pushes, PushOf(l)))
       <==> SomeoneCanEmit(Exec(steps, window), l)
  {
    var s := Exec(steps, window);
    if SomeoneCanEmit(s, l) {
      var d :| 0 <= d < |s.deliveries| && CanEmit(s, d, l);
      EmissionWorks(steps, window, d, l);
    } else {
      forall more ensures Sum(Exec(steps + more, window).pushes, PushOf(l)) <= Sum(s.pushes, PushOf(l)) {
        ExecToSame(steps + more, steps, window, |steps|);
        NoChanceForever(steps + more, window, l, |steps|, |steps + more|);
      }
    }
  }

  /** A failed push ends it: the lead is never pushed again and never accepted. */
  lemma FailedPushIsFinal(steps: seq<Step>, window: nat, l: nat, i: nat)
    requires i < |Exec(steps, window).pushes| && Exec(steps, window).pushes[i].lead == l &&
               !Exec(steps, window).pushes[i].ok
    ensures !SomeoneCanEmit(Exec(steps, window), l)
    ensures Sum(Exec(steps, window).deliveries, AcceptedFor(l)) == 0
  {
    var s := Exec(steps, window);
    AlwaysSound(steps, window, |steps|);
    assert EmittedOnce(s, l);
    SumAtLeastTerms(s.pushes, PushOf(l), i, i);
    SumNonNegative(s.deliveries, TokenFor(l));
    forall d | 0 <= d < |s.deliveries| ensures !CanEmit(s, d, l) {
      SumAtLeastTerms(s.deliveries, TokenFor(l), d, d);
    }
    forall j | 0 <= j < |s.pushes| ensures SentOf(l)(s.pushes[j]) == 0 {
      SumAtLeastTerms(s.pushes, PushOf(l), i, j);
    }
    SumZero(s.pushes, SentOf(l));
    SumAtMost(s.deliveries, AcceptedFor(l), EmittedBy(l));
    SumNonNegative(s.deliveries, AcceptedFor(l));
  }

  // ---------------------------------------------------------------- the duplicate window

  /** In any history a lead is unblocked exactly when no earlier lead of its phone lies within the window,
      and two unblocked leads of one phone were captured more than the window apart. */
  lemma UnblockedIffFirstInWindow(steps: seq<Step>, window: nat, j: nat)
    requires j < |Exec(steps, window).db.leads|
    ensures var leads := Exec(steps, window).db.leads;
            && (!leads[j].blocked <==> forall i :: 0 <= i < j && leads[i].phone == leads[j].phone ==>
                 leads[j].at - leads[i].at > window)
            && (forall i :: 0 <= i < j ==> leads[i].at <= leads[j].at)
  {
    AlwaysSound(steps, window, |steps|);
    var leads := Exec(steps, window).db.leads;
    assert leads[j].blocked == HasEarlierInWindow(leads, j, window);
  }

  // ---------------------------------------------------------------- opt-outs

  predicate IsCovered(db: Tables, phone: Option<nat>, email: Option<nat>) {
    (phone.Some? ==> IsSuppressed(db, phone, None)) && (email.Some? ==> IsSuppressed(db, None, email))
  }

  lemma SuppressedSplits(db: Tables, phone: Option<nat>, email: Option<nat>)
    ensures IsSuppressed(db, phone, email) <==> IsSuppressed(db, phone, None) || IsSuppressed(db, None, email)
  {
    if i :| 0 <= i < |db.suppressions| && Matches(db.suppressions[i], phone, email) {
      assert Matches(db.suppressions[i], phone, None) || Matches(db.suppressions[i], None, email);
    }
    if i :| 0 <= i < |db.suppressions| && Matches(db.suppressions[i], phone, None) {
      assert Matches(db.suppressions[i], phone, email);
    }
    if i :| 0 <= i < |db.suppressions| && Matches(db.suppressions[i], None, email) {
      assert Matches(db.suppressions[i], phone, email);
    }
  }

  /** An opt-out covers every contact it names, unless it names two of which exactly one was covered before. */
  lemma OptOutCovers(db: Tables, phone: Option<nat>, email: Option<nat>)
    ensures IsCovered(RecordSuppression(db, phone, email), phone, email) <==>
              (phone.Some? && email.Some? ==> (IsSuppressed(db, phone, None) <==> IsSuppressed(db, None, email)))
  {
    SuppressedSplits(db, phone, email);
    if !IsSuppressed(db, phone, email) {
      var db' := RecordSuppression(db, phone, email);
      assert Matches(db'.suppressions[|db.suppressions|], phone, None) || phone.None?;
      assert Matches(db'.suppressions[|db.suppressions|], None, email) || email.None?;
    }
  }

  lemma SuppressionStays(db: Tables, db': Tables, phone: Option<nat>, email: Option<nat>)
    requires IsSuppressed(db, phone, email) && db.suppressions <= db'.suppressions
    ensures IsSuppressed(db', phone, email)
  {
    var i :| 0 <= i < |db.suppressions| && Matches(db.suppressions[i], phone, email);
    assert db'.suppressions[i] == db.suppressions[i];
  }

  predicate HasContact(lead: CapturedLead, phone: Option<nat>, email: Option<nat>) {
    (phone.Some? && Some(lead.phone) == phone) || (email.Some? && lead.email == email)
  }

  lemma CoveredStep(s: Sys, step: Step, window: nat, phone: Option<nat>, email: Option<nat>)
    requires IsSuppressed(s.db, phone, email) && (phone.None? || email.None?)
    ensures var s' := Apply(s, step, window);
            && IsSuppressed(s'.db, phone, email)
            && forall j :: |s.db.leads| <= j < |s'.db.leads| ==> !HasContact(s'.db.leads[j], phone, email)
  {
    hide UpsertLead;
    StepGrows(s, step, window);
    SuppressionStays(s.db, Apply(s, step, window).db, phone, email);
    if step.Upsert? && Upserts(s, step.d) {
      UpsertEffect(s, step.d, window);
      var form := s.deliveries[step.d].form;
      SuppressedSplits(s.db, Some(form.phone), form.email);
    }
  }

  /** Once a contact is covered it stays covered, and no lead with it is ever inserted again. */
  lemma {:induction false} CoveredContactNeverCaptured(steps: seq<Step>, window: nat, n: nat, m: nat,
        phone: Option<nat>, email: Option<nat>)
    requires n <= m <= |steps| && (phone.None? || email.None?)
    requires IsSuppressed(ExecTo(steps, window, n).db, phone, email)
    ensures IsSuppressed(ExecTo(steps, window, m).db, phone, email)
    ensures |ExecTo(steps, window, n).db.leads| <= |ExecTo(steps, window, m).db.leads|
    ensures forall j :: |ExecTo(steps, window, n).db.leads| <= j < |ExecTo(steps, window, m).db.leads| ==>
              !HasContact(ExecTo(steps, window, m).db.leads[j], phone, email)
  {
    hide Apply, HasContact, IsSuppressed;
    if m > n {
      CoveredContactNeverCaptured(steps, window, n, m - 1, phone, email);
      CoveredStep(ExecTo(steps, window, m - 1), steps[m - 1], window, phone, email);
      StepGrows(ExecTo(steps, window, m - 1), steps[m - 1], window);
    }
  }

  // ---------------------------------------------------------------- deliveries of a lead already captured

  predicate IsTaken(db: Tables, phone: nat, hash: nat) {
    exists l :: 0 <= l < |db.leads| && db.leads[l].phone == phone && db.leads[l].hash == hash
  }

  lemma TakenStays(s: Sys, s': Sys, phone: nat, hash: nat)
    requires IsTaken(s.db, phone, hash) && RowsGrow(s, s')
    ensures IsTaken(s'.db, phone, hash)
  {
    var l :| 0 <= l < |s.db.leads| && s.db.leads[l].phone == phone && s.db.leads[l].hash == hash;
    assert s'.db.leads[l] == s.db.leads[l];
  }

  /** Delivery d will not create a lead: phone and hash of its form are taken, or its upsert recognised the lead. */
  predicate IsRetry(s: Sys, d: nat) {
    && d < |s.deliveries|
    && match s.deliveries[d].stage
       case Received => IsTaken(s.db, s.deliveries[d].form.phone, s.deliveries[d].form.hash)
       case Saved(_, created) => !created
       case Audited(_, created, _) => !created
       case Pushed(_) => false
       case Replied(reply) => !reply.Accepted? && !reply.EmissionFailed?
  }

  predicate IsStepOf(step: Step, d: nat) {
    match step
    case Upsert(k) => k == d
    case WriteAudit(k) => k == d
    case Emit(k, _) => k == d
    case Answer(k) => k == d
    case CrashDelivery(k) => k == d
    case _ => false
  }

  /** The step writes the audit row of delivery d: it lives, it got past its upsert, and its webhook has none. */
  predicate WritesAudit(s: Sys, step: Step, d: nat) {
    step == WriteAudit(d) && CanMove(s, d) && s.deliveries[d].stage.Saved? &&
      !HasAudit(s.db, s.deliveries[d].form.webhook)
  }

  lemma RetryStays(s: Sys, step: Step, window: nat, d: nat)
    requires IsRetry(s, d)
    ensures IsRetry(Apply(s, step, window), d)
  {
    hide UpsertLead, RecordAudit, HasAudit, FindLead, IsTaken;
    var form := s.deliveries[d].form;
    StepGrows(s, step, window);
    if IsTaken(s.db, form.phone, form.hash) {
      TakenStays(s, Apply(s, step, window), form.phone, form.hash);
    }
    if step == Upsert(d) && Upserts(s, d) {
      TakenIsFound(s.db, form);
      UpsertEffect(s, d, window);
    }
  }

  lemma TakenIsFound(db: Tables, form: Form)
    ensures IsTaken(db, form.phone, form.hash) <==> FindLead(db.leads, form.phone, form.hash).Some?
  {
    FindLeadIsExact(db.leads, form.phone, form.hash);
  }

  lemma RetryStep(s: Sys, step: Step, window: nat, d: nat)
    requires IsRetry(s, d) && IsStepOf(step, d)
    ensures var s' := Apply(s, step, window);
            && s'.db == s.db.(audits := s'.db.audits) && s'.pushes == s.pushes
            && s'.db.audits == s.db.audits + if WritesAudit(s, step, d)
                                             then [Audit(s.deliveries[d].form.webhook, s.deliveries[d].stage.lead)]
                                             else []
  {
    hide UpsertLead, HasAudit, FindLead, IsTaken;
    if step == Upsert(d) && Upserts(s, d) {
      TakenIsFound(s.db, s.deliveries[d].form);
      UpsertEffect(s, d, window);
    }
  }

  lemma {:induction false} RetryForever(steps: seq<Step>, window: nat, n: nat, m: nat, d: nat)
    requires n <= m <= |steps| && IsRetry(ExecTo(steps, window, n), d)
    ensures IsRetry(ExecTo(steps, window, m), d)
  {
    hide Apply, IsRetry;
    if m > n {
      RetryForever(steps, window, n, m - 1, d);
      RetryStays(ExecTo(steps, window, m - 1), steps[m - 1], window, d);
    }
  }

  /** From the moment a delivery finds its phone and hash taken, whatever happens in between, none of its steps adds a
      lead, a captured row or a push; and one adds an audit row exactly when it writes the first of its webhook. */
  lemma RetryAddsAtMostAnAudit(steps: seq<Step>, window: nat, n: nat, d: nat, step: Step)
    requires n <= |steps| && IsRetry(ExecTo(steps, window, n), d) && IsStepOf(step, d)
    ensures var s, s' := Exec(steps, window), Apply(Exec(steps, window), step, window);
            && s'.db.leads == s.db.leads && s'.db.captured == s.db.captured && s'.pushes == s.pushes
            && s'.db.suppressions == s.db.suppressions
            && (s'.db.audits != s.db.audits <==> WritesAudit(s, step, d))
  {
    hide Apply, IsRetry;
    RetryForever(steps, window, n, |steps|, d);
    RetryStep(Exec(steps, window), step, window, d);
  }

  lemma {:induction false} TakenForever(steps: seq<Step>, window: nat, n: nat, m: nat, phone: nat, hash: nat)
    requires n <= m <= |steps| && IsTaken(ExecTo(steps, window, n).db, phone, hash)
    ensures IsTaken(ExecTo(steps, window, m).db, phone, hash)
  {
    hide Apply, IsTaken;
    if m > n {
      TakenForever(steps, window, n, m - 1, phone, hash);
      StepGrows(ExecTo(steps, window, m - 1), steps[m - 1], window);
      TakenStays(ExecTo(steps, window, m - 1), ExecTo(steps, window, m), phone, hash);
    }
  }
}
