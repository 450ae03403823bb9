/** Exclusive zips: no two active buyers are meant to have one in common. */
module Territory {
  import opened Market

  /** The columns of a buyer that the rule is about. */
  datatype Profile = Profile(status: BuyerStatus, zips: set<nat>)

  /** What the endpoints for new and changed buyers are asked; None leaves a column as it is. */
  datatype Request = Create(zips: set<nat>) | Patch(b: nat, status: Option<BuyerStatus>, named: Option<set<nat>>)

  predicate Share(a: set<nat>, b: set<nat>) {
    a * b != {}
  }

  predicate Exclusive(rows: seq<Profile>) {
    forall i, j :: 0 <= i < j < |rows| && rows[i].status == Active && rows[j].status == Active ==>
      !Share(rows[i].zips, rows[j].zips)
  }

  /** Row i belongs to an active buyer, other than the excepted one, that has one of the zips. */
  predicate InConflict(rows: seq<Profile>, i: nat, zips: set<nat>, except: Option<nat>) {
    i < |rows| && Some(i) != except && rows[i].status == Active && Share(rows[i].zips, zips)
  }

  predicate HasConflict(rows: seq<Profile>, zips: set<nat>, except: Option<nat>) {
    exists i :: 0 <= i < |rows| && InConflict(rows, i, zips, except)
  }

  // ---------------------------------------------------------------- the two halves of a request

  /** The check, in a transaction of its own; a patch that does not name zips is not checked. */
  predicate Refused(rows: seq<Profile>, request: Request) {
    match request
    case Create(zips) => HasConflict(rows, zips, None)
    case Patch(b, _, named) => named.Some? && HasConflict(rows, named.value, Some(b))
  }

  function Patched(row: Profile, status: Option<BuyerStatus>, named: Option<set<nat>>): Profile {
    Profile(if status.Some? then status.value else row.status, if named.Some? then named.value else row.zips)
  }

  /** The write that follows. */
  function Written(rows: seq<Profile>, request: Request): Result<seq<Profile>> {
    match request
    case Create(zips) => Ok(rows + [Profile(PendingVerification, zips)])
    case Patch(b, status, named) =>
      if b >= |rows| then Err(NotFound) else Ok(rows[b := Patched(rows[b], status, named)])
  }

  /** A request with nothing in between. */
  function Handled(rows: seq<Profile>, request: Request): Result<seq<Profile>> {
    if Refused(rows, request) then Err(Conflict) else Written(rows, request)
  }

  // ---------------------------------------------------------------- histories

  /** open holds the requests that passed their check and have not been written. */
  datatype Sys = Sys(rows: seq<Profile>, open: seq<Request>)

  datatype Step = Whole(request: Request) | Check(request: Request) | Write(k: nat)

  function RowsOr(rows: seq<Profile>, result: Result<seq<Profile>>): seq<Profile> {
    if result.Ok? then result.value else rows
  }

  function Apply(s: Sys, step: Step): Sys {
    match step
    case Whole(request) => s.(rows := RowsOr(s.rows, Handled(s.rows, request)))
    case Check(request) => if Refused(s.rows, request) then s else s.(open := s.open + [request])
    case Write(k) =>
      if k >= |s.open| then s
      else Sys(RowsOr(s.rows, Written(s.rows, s.open[k])), s.open[..k] + s.open[k + 1..])
  }

  function Exec(steps: seq<Step>): Sys {
    if |steps| == 0 then Sys([], []) else Apply(Exec(steps[..|steps| - 1]), steps[|steps| - 1])
  }

  /** A patch that activates a buyer says which zips it is to have. */
  predicate NamesZips(request: Request) {
    request.Patch? && request.status == Some(Active) ==> request.named.Some?
  }

  predicate StepAllowed(step: Step, named: bool, atomic: bool) {
    (named && !step.Write? ==> NamesZips(step.request)) && (atomic ==> step.Whole?)
  }

  /** named: activations name their zips. atomic: nothing comes between a check and its write. */
  predicate Allowed(steps: seq<Step>, named: bool, atomic: bool) {
    forall i :: 0 <= i < |steps| ==> StepAllowed(steps[i], named, atomic)
  }

  lemma HandledKeeps(rows: seq<Profile>, request: Request)
    requires Exclusive(rows) && NamesZips(request)
    ensures Exclusive(RowsOr(rows, Handled(rows, request)))
  {
    if request.Patch? && request.named.Some? && !Refused(rows, request) {
      var zips := request.named.value;
      forall i: nat | i < |rows| && i != request.b && rows[i].status == Active
        ensures !Share(rows[i].zips, zips) && !Share(zips, rows[i].zips)
      {
        assert !InConflict(rows, i, zips, Some(request.b));
        assert zips * rows[i].zips == rows[i].zips * zips;
      }
    }
  }

  lemma {:induction false} NamedAndAtomicSuffice(steps: seq<Step>)
    requires Allowed(steps, true, true)
    ensures Exclusive(Exec(steps).rows)
  {
    if |steps| > 0 {
      NamedAndAtomicSuffice(steps[..|steps| - 1]);
      assert StepAllowed(steps[|steps| - 1], true, true);
      HandledKeeps(Exec(steps[..|steps| - 1]).rows, steps[|steps| - 1].request);
    }
  }

  lemma ExecAppend(steps: seq<Step>, step: Step)
    ensures Exec(steps + [step]) == Apply(Exec(steps), step)
  {
    assert (steps + [step])[..|steps|] == steps;
  }

  lemma NoneActive(rows: seq<Profile>, zips: set<nat>, except: Option<nat>)
    requires forall i :: 0 <= i < |rows| ==> rows[i].status != Active
    ensures !HasConflict(rows, zips, except)
  {
  }

  function TwoBuyers(zips: set<nat>): seq<Step> {
    [] + [Whole(Create(zips))] + [Whole(Create(zips))]
  }

  /** Neither is active yet, so there is no conflict. */
  lemma TwoBuyersWork(zips: set<nat>)
    ensures Exec(TwoBuyers(zips)) == Sys([Profile(PendingVerification, zips), Profile(PendingVerification, zips)], [])
  {
    ExecAppend([], Whole(Create(zips)));
    ExecAppend([] + [Whole(Create(zips))], Whole(Create(zips)));
    NoneActive([], zips, None);
    NoneActive([Profile(PendingVerification, zips)], zips, None);
  }

  /** Two pending buyers have one zip; then both are activated. */
  function BothActivated(): seq<Step> {
    TwoBuyers({0}) + [Whole(Patch(0, Some(Active), None))] + [Whole(Patch(1, Some(Active), None))]
  }

  lemma BothActivatedShare()
    ensures Exec(BothActivated()).rows == [Profile(Active, {0}), Profile(Active, {0})]
  {
    TwoBuyersWork({0});
    ExecAppend(TwoBuyers({0}), Whole(Patch(0, Some(Active), None)));
    ExecAppend(TwoBuyers({0}) + [Whole(Patch(0, Some(Active), None))], Whole(Patch(1, Some(Active), None)));
  }

  /** The activation of buyer b with a zip. */
  function Activation(b: nat): Request {
    Patch(b, Some(Active), Some({0}))
  }

  /** Two buyers are activated with one zip at the same time. */
  function BothChecked(): seq<Step> {
    TwoBuyers({}) + [Check(Activation(0))] + [Check(Activation(1))] + [Write(0)] + [Write(0)]
  }

  /** Two pending buyers, and the requests that are open. */
  function Pending(open: seq<Request>): Sys {
    Sys([Profile(PendingVerification, {}), Profile(PendingVerification, {})], open)
  }

  lemma ActivationPasses(b: nat, open: seq<Request>)
    ensures Apply(Pending(open), Check(Activation(b))) == Pending(open + [Activation(b)])
  {
    NoneActive(Pending(open).rows, {0}, Some(b));
  }

  lemma BothWritten()
    ensures Apply(Apply(Pending([Activation(0), Activation(1)]), Write(0)), Write(0)).rows ==
              [Profile(Active, {0}), Profile(Active, {0})]
  {
    var s1 := Sys([Profile(Active, {0}), Profile(PendingVerification, {})], [Activation(1)]);
    assert Apply(Pending([Activation(0), Activation(1)]), Write(0)) == s1;
  }

  lemma BothCheckedShare()
    ensures Exec(BothChecked()).rows == [Profile(Active, {0}), Profile(Active, {0})]
  {
    var two := TwoBuyers({});
    TwoBuyersWork({});
    hide Exec, TwoBuyers, Apply, Activation;
    ExecAppend(two, Check(Activation(0)));
    ExecAppend(two + [Check(Activation(0))], Check(Activation(1)));
    ExecAppend(two + [Check(Activation(0))] + [Check(Activation(1))], Write(0));
    ExecAppend(two + [Check(Activation(0))] + [Check(Activation(1))] + [Write(0)], Write(0));
    ActivationPasses(0, []);
    ActivationPasses(1, [Activation(0)]);
    assert [] + [Activation(0)] == [Activation(0)] &&
      [Activation(0)] + [Activation(1)] == [Activation(0), Activation(1)];
    BothWritten();
  }

  /** The rule holds in all histories exactly if patches that activate a buyer name its zips and nothing comes between
      a check and its write. The service sees to neither. */
  lemma ExclusiveIffNamedAndAtomic(named: bool, atomic: bool)
    ensures (forall steps :: Allowed(steps, named, atomic) ==> Exclusive(Exec(steps).rows)) <==> named && atomic
  {
    if named && atomic {
      forall steps | Allowed(steps, named, atomic) ensures Exclusive(Exec(steps).rows) {
        NamedAndAtomicSuffice(steps);
      }
    } else {
      var steps := if named then BothChecked() else BothActivated();
      assert Allowed(steps, named, atomic);
      BothActivatedShare();
      BothCheckedShare();
      hide Allowed, Exec, BothChecked, BothActivated;
      var rows := Exec(steps).rows;
      assert 0 in rows[0].zips * rows[1].zips && Share(rows[0].zips, rows[1].zips);
    }
  }

  // ---------------------------------------------------------------- the endpoints

  class Registry {
    var rows: seq<Profile>

    constructor ()
      ensures rows == []
    {
      rows := [];
    }

    /** The buyers in conflict, in row order, each with the zips it has already. */
    method CheckExclusiveZipConflict(zips: set<nat>, except: Option<nat>) returns (conflicts: seq<(nat, set<nat>)>)
      ensures conflicts == [] <==> !HasConflict(rows, zips, except)
      ensures forall i: nat :: i < |rows| ==>
                (InConflict(rows, i, zips, except) <==> (i, rows[i].zips * zips) in conflicts)
      ensures forall k, m :: 0 <= k < m < |conflicts| ==> conflicts[k].0 < conflicts[m].0
    {
      conflicts := [];
      for i := 0 to |rows|
        invariant forall k :: 0 <= k < |conflicts| ==>
                    conflicts[k].0 < i && InConflict(rows, conflicts[k].0, zips, except) &&
                      conflicts[k].1 == rows[conflicts[k].0].zips * zips
        invariant forall j: nat :: j < i && InConflict(rows, j, zips, except) ==> (j, rows[j].zips * zips) in conflicts
        invariant forall k, m :: 0 <= k < m < |conflicts| ==> conflicts[k].0 < conflicts[m].0
      {
        var overlap := rows[i].zips * zips;
        if rows[i].status == Active && Some(i) != except && overlap != {} {
          conflicts := conflicts + [(i, overlap)];
        }
      }
      assert conflicts != [] ==> InConflict(rows, conflicts[0].0, zips, except);
    }

    method CreateBuyer(zips: set<nat>) returns (id: Result<nat>)
      modifies this
      ensures rows == RowsOr(old(rows), Handled(old(rows), Create(zips)))
      ensures id == if HasConflict(old(rows), zips, None) then Err(Conflict) else Ok(|old(rows)|)
    {
      var conflicts := CheckExclusiveZipConflict(zips, None);
      if conflicts != [] {
        return Err(Conflict);
      }
      id := Ok(|rows|);
      rows := rows + [Profile(PendingVerification, zips)];
    }

    method UpdateBuyer(b: nat, status: Option<BuyerStatus>, zips: Option<set<nat>>) returns (row: Result<Profile>)
      modifies this
      ensures rows == RowsOr(old(rows), Handled(old(rows), Patch(b, status, zips)))
      ensures match Handled(old(rows), Patch(b, status, zips))
              case Ok(after) => b < |after| && row == Ok(after[b])
              case Err(error) => row == Err(error)
    {
      if zips.Some? {
        var conflicts := CheckExclusiveZipConflict(zips.value, Some(b));
        if conflicts != [] {
          return Err(Conflict);
        }
      }
      if b >= |rows| {
        return Err(NotFound);
      }
      var buyer := rows[b];
      if status.Some? {
        buyer := buyer.(status := status.value);
      }
      if zips.Some? {
        buyer := buyer.(zips := zips.value);
      }
      rows := rows[b := buyer];
      row := Ok(buyer);
    }
  }
}
