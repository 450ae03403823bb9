/** Lead capture as a step machine. */
module Capture {
  // A webhook delivery runs through upsert, audit and event emission, each committed or sent on its own.
  // Deliveries interleave with each other and with opt-outs, can crash between any two of their steps, and are
  // retried by sending the same webhook again.

  import opened Market

  /** What a webhook delivers; contacts, page hashes and webhook ids only ever get compared. */
  datatype Form = Form(webhook: nat, phone: nat, email: Option<nat>, hash: nat, dwellMs: Option<nat>)

  datatype CapturedLead = CapturedLead(phone: nat, email: Option<nat>, hash: nat, blocked: bool, hold: bool, at: nat)

  datatype Suppression = Suppression(phone: Option<nat>, email: Option<nat>)

  datatype Audit = Audit(webhook: nat, lead: nat)

  /** captured lists the leads of the start-to-captured rows of the transition log. */
  datatype Tables = Tables(leads: seq<CapturedLead>, captured: seq<nat>, audits: seq<Audit>,
        suppressions: seq<Suppression>)

  // ---------------------------------------------------------------- the three transactions

  predicate Matches(row: Suppression, phone: Option<nat>, email: Option<nat>) {
    (phone.Some? && row.phone == phone) || (email.Some? && row.email == email)
  }

  predicate IsSuppressed(db: Tables, phone: Option<nat>, email: Option<nat>) {
    exists i :: 0 <= i < |db.suppressions| && Matches(db.suppressions[i], phone, email)
  }

  /** Some lead of the phone was captured no longer than the window ago. */
  predicate IsDuplicate(db: Tables, phone: nat, now: nat, window: nat) {
    exists i :: 0 <= i < |db.leads| && db.leads[i].phone == phone && db.leads[i].at + window >= now
  }

  function FindLead(leads: seq<CapturedLead>, phone: nat, hash: nat): Option<nat> {
    if |leads| == 0 then None
    else
      var n := |leads| - 1;
      if leads[n].phone == phone && leads[n].hash == hash then Some(n) else FindLead(leads[..n], phone, hash)
  }

  datatype Upserted = Refused | Stored(lead: nat, created: bool)

  function NewLead(form: Form, duplicate: bool, now: nat): CapturedLead {
    CapturedLead(form.phone, form.email, form.hash, duplicate, duplicate, now)
  }

  /** One upsert: refused for a suppressed contact, else a new lead unless phone and hash are taken. */
  function UpsertLead(db: Tables, form: Form, now: nat, window: nat): (Tables, Upserted) {
    if IsSuppressed(db, Some(form.phone), form.email) then (db, Refused)
    else
      var existing := FindLead(db.leads, form.phone, form.hash);
      if existing.Some? then (db, Stored(existing.value, false))
      else
        (Added(db, NewLead(form, IsDuplicate(db, form.phone, now, window), now)), Stored(|db.leads|, true))
  }

  /** A new lead row, with its row in the transition log, whose key is unique. */
  function Added(db: Tables, lead: CapturedLead): Tables {
    var l := |db.leads|;
    db.(leads := db.leads + [lead], captured := if l in db.captured then db.captured else db.captured + [l])
  }

  predicate HasAudit(db: Tables, webhook: nat) {
    exists i :: 0 <= i < |db.audits| && db.audits[i].webhook == webhook
  }

  function RecordAudit(db: Tables, webhook: nat, l: nat): Tables {
    if HasAudit(db, webhook) then db else db.(audits := db.audits + [Audit(webhook, l)])
  }

  /** An opt-out adds an entry unless an entry already matches one of its contacts. */
  function RecordSuppression(db: Tables, phone: Option<nat>, email: Option<nat>): Tables {
    if IsSuppressed(db, phone, email) then db
    else db.(suppressions := db.suppressions + [Suppression(phone, email)])
  }

  // ---------------------------------------------------------------- deliveries

  datatype Reply = Suppressed | Accepted(lead: nat) | AcceptedDuplicate(lead: nat) | EmissionFailed(lead: nat)

  datatype Stage =
    | Received
    | Saved(lead: nat, created: bool)
    | Audited(lead: nat, created: bool, wasNew: bool)
    | Pushed(lead: nat)
    | Replied(reply: Reply)

  datatype Delivery = Delivery(form: Form, stage: Stage, crashed: bool)

  /** An attempt to send lead.captured. */
  datatype Push = Push(webhook: nat, lead: nat, ok: bool)

  datatype Sys = Sys(db: Tables, deliveries: seq<Delivery>, pushes: seq<Push>, now: nat)

  const START := Sys(Tables([], [], [], []), [], [], 0)

  datatype Step =
    | Arrive(form: Form)
    | Upsert(d: nat)
    | WriteAudit(d: nat)
    | Emit(d: nat, ok: bool)
    | Answer(d: nat)
    | CrashDelivery(d: nat)
    | OptOut(phone: Option<nat>, email: Option<nat>)
    | Tick(n: nat)

  function Advance(s: Sys, d: nat, stage: Stage): Sys
    requires d < |s.deliveries|
  {
    s.(deliveries := s.deliveries[d := s.deliveries[d].(stage := stage)])
  }

  predicate CanMove(s: Sys, d: nat) {
    d < |s.deliveries| && !s.deliveries[d].crashed
  }

  /** window is the duplicate lookback. A step that is not enabled changes nothing. */
  function Apply(s: Sys, step: Step, window: nat): Sys {
    match step
    case Arrive(form) => s.(deliveries := s.deliveries + [Delivery(form, Received, false)])
    case Upsert(d) =>
      if CanMove(s, d) && s.deliveries[d].stage.Received? then
        var (db, outcome) := UpsertLead(s.db, s.deliveries[d].form, s.now, window);
        Advance(s.(db := db), d, if outcome.Refused? then Replied(Suppressed) else Saved(outcome.lead, outcome.created))
      else s
    case WriteAudit(d) =>
      if CanMove(s, d) && s.deliveries[d].stage.Saved? then
        var stage, webhook := s.deliveries[d].stage, s.deliveries[d].form.webhook;
        Advance(s.(db := RecordAudit(s.db, webhook, stage.lead)), d,
                Audited(stage.lead, stage.created, !HasAudit(s.db, webhook)))
      else s
    case Emit(d, ok) =>
      if CanMove(s, d) && s.deliveries[d].stage.Audited? &&
         s.deliveries[d].stage.created && s.deliveries[d].stage.wasNew then
        var l := s.deliveries[d].stage.lead;
        Advance(s.(pushes := s.pushes + [Push(s.deliveries[d].form.webhook, l, ok)]), d,
                if ok then Pushed(l) else Replied(EmissionFailed(l)))
      else s
    case Answer(d) =>
      if CanMove(s, d) && s.deliveries[d].stage.Pushed?
      then Advance(s, d, Replied(Accepted(s.deliveries[d].stage.lead)))
      else if CanMove(s, d) && s.deliveries[d].stage.Audited? &&
              !(s.deliveries[d].stage.created && s.deliveries[d].stage.wasNew)
      then Advance(s, d, Replied(AcceptedDuplicate(s.deliveries[d].stage.lead)))
      else s
    case CrashDelivery(d) =>
      if d < |s.deliveries| then s.(deliveries := s.deliveries[d := s.deliveries[d].(crashed := true)]) else s
    case OptOut(phone, email) =>
      if phone.None? && email.None? then s else s.(db := RecordSuppression(s.db, phone, email))
    case Tick(n) => s.(now := s.now + n)
  }

  /** The state after the first n steps. */
  function ExecTo(steps: seq<Step>, window: nat, n: nat): Sys
    requires n <= |steps|
  {
    if n == 0 then START else Apply(ExecTo(steps, window, n - 1), steps[n - 1], window)
  }

  function Exec(steps: seq<Step>, window: nat): Sys {
    ExecTo(steps, window, |steps|)
  }

  lemma {:induction false} ExecToSame(steps: seq<Step>, others: seq<Step>, window: nat, n: nat)
    requires n <= |steps| && n <= |others| && forall i :: 0 <= i < n ==> steps[i] == others[i]
    ensures ExecTo(steps, window, n) == ExecTo(others, window, n)
  {
    if n > 0 {
      ExecToSame(steps, others, window, n - 1);
    }
  }

  lemma ExecAppend(steps: seq<Step>, step: Step, window: nat)
    ensures Exec(steps + [step], window) == Apply(Exec(steps, window), step, window)
  {
    hide Apply;
    ExecToSame(steps + [step], steps, window, |steps|);
  }
}
