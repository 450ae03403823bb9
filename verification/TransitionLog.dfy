/** The append-only, idempotent log of lead state transitions. */
module TransitionLog {
  import opened Market
  import opened Redaction
  import Pipeline

  datatype Row = Row(
    lead: string, fromState: string, toState: string, event: string, task: Option<string>, run: Option<string>,
    status: string, key: string, payload: Json, at: nat)

  /** The arguments of one recording. */
  datatype Call = Call(
    lead: string, fromState: Option<string>, toState: string, event: string, task: Option<string>, run: Option<string>,
    status: string, key: Option<string>, payload: Json)

  /** The table, and the leads its foreign key can refer to. */
  datatype Log = Log(leads: set<string>, rows: seq<Row>)

  datatype Failure = UnknownState | IllegalTransition | ConflictWithoutRow

  datatype Outcome = Written(row: Row, inserted: bool) | Failed(failure: Failure)

  // ---------------------------------------------------------------- keys

  function FromText(call: Call): string {
    if call.fromState.Some? then call.fromState.value else "start"
  }

  function TaskText(call: Call): string {
    if call.task.Some? then call.task.value else ""
  }

  /** The text whose hash is the default key. */
  function KeyText(call: Call): string {
    "v1:" + (call.lead + ":" + (FromText(call) + ":" + (call.toState + ":" + Tail(call))))
  }

  /** The end of the key text, after the lead id and the state names. */
  function Tail(call: Call): string {
    call.event + ":" + TaskText(call)
  }

  function KeyOf(hash: string -> string, call: Call): string {
    if call.key.Some? && call.key.value != "" then call.key.value else hash(KeyText(call))
  }

  // ---------------------------------------------------------------- recording

  /** A recording from a named state must follow an edge; one without a source state is not checked. */
  function Check(call: Call): Option<Failure> {
    if call.fromState.None? then None
    else
      var source, target := Pipeline.Normalize(call.fromState.value), Pipeline.Normalize(call.toState);
      if target.Unknown? || source.Unknown? then Some(UnknownState)
      else if !Pipeline.CanTransition(source.state, target.state) then Some(IllegalTransition)
      else None
  }

  function RowWithKey(rows: seq<Row>, key: string): Option<Row> {
    if |rows| == 0 then None
    else if rows[|rows| - 1].key == key then Some(rows[|rows| - 1])
    else RowWithKey(rows[..|rows| - 1], key)
  }

  function NewRow(hash: string -> string, call: Call, at: nat): Row {
    Row(call.lead, FromText(call), call.toState, call.event, call.task, call.run, call.status, KeyOf(hash, call),
      call.payload, at)
  }

  /** One recording: the log after it and what it returns. */
  function Record(hash: string -> string, log: Log, call: Call, at: nat): (Log, Outcome) {
    if Check(call).Some? then (log, Failed(Check(call).value))
    else
      var existing := RowWithKey(log.rows, KeyOf(hash, call));
      if existing.Some? then (log, Written(existing.value, false))
      else if call.lead !in log.leads then (log, Failed(ConflictWithoutRow))
      else (log.(rows := log.rows + [NewRow(hash, call, at)]), Written(NewRow(hash, call, at), true))
  }

  // ---------------------------------------------------------------- what a recording does

  /** The steps a lead can take. */
  predicate IsLegal(source: string, target: string) {
    (source, target) in {
      ("captured", "enriched"), ("enriched", "qualified"), ("enriched", "rejected"), ("qualified", "auctioned"),
      ("auctioned", "sold"), ("auctioned", "unsold"), ("unsold", "nurtured"), ("rejected", "nurtured")
    }
  }

  predicate IsStateName(name: string) {
    name in {"captured", "enriched", "qualified", "auctioned", "sold", "unsold", "rejected", "nurtured"}
  }

  /** No row has the key. */
  predicate IsFresh(rows: seq<Row>, key: string) {
    forall i :: 0 <= i < |rows| ==> rows[i].key != key
  }

  lemma CheckIsExact(call: Call)
    ensures Check(call) == if call.fromState.None? then None
              else if !IsStateName(call.fromState.value) || !IsStateName(call.toState) then Some(UnknownState)
              else if !IsLegal(call.fromState.value, call.toState) then Some(IllegalTransition)
              else None
  {
    if call.fromState.Some? {
      NamesAreStates(call.fromState.value);
      NamesAreStates(call.toState);
      var source, target := Pipeline.Normalize(call.fromState.value), Pipeline.Normalize(call.toState);
      if source.Known? && target.Known? {
        EdgesAreLegal(source.state, target.state);
      }
    }
  }

  lemma NamesAreStates(name: string)
    ensures Pipeline.Normalize(name).Known? <==> IsStateName(name)
    ensures Pipeline.Normalize(name).Known? ==> Pipeline.Name(Pipeline.Normalize(name).state) == name
  {
  }

  lemma EdgesAreLegal(source: Pipeline.PipelineState, target: Pipeline.PipelineState)
    ensures Pipeline.CanTransition(source, target) <==> IsLegal(Pipeline.Name(source), Pipeline.Name(target))
  {
  }

  /** All a recording can do. A step between two known states must be one of the eight; a key that a row has finds that
      row; a fresh key adds exactly the row of the call, for a lead that exists. */
  lemma RecordIsExact(hash: string -> string, log: Log, call: Call, at: nat, key: string)
    requires key == if call.key.Some? && call.key.value != "" then call.key.value
                    else hash("v1:" + (call.lead + ":" +
                              ((if call.fromState.Some? then call.fromState.value else "start") + ":" +
                               (call.toState + ":" +
                                (call.event + ":" + (if call.task.Some? then call.task.value else ""))))))
    ensures var (log', outcome) := Record(hash, log, call, at);
            if call.fromState.Some? && (!IsStateName(call.fromState.value) || !IsStateName(call.toState))
            then log' == log && outcome == Failed(UnknownState)
            else if call.fromState.Some? && !IsLegal(call.fromState.value, call.toState)
            then log' == log && outcome == Failed(IllegalTransition)
            else if !IsFresh(log.rows, key)
            then log' == log && outcome.Written? && !outcome.inserted && outcome.row in log.rows &&
              outcome.row.key == key
            else if call.lead !in log.leads then log' == log && outcome == Failed(ConflictWithoutRow)
            else
              && outcome == Written(Row(call.lead, if call.fromState.Some? then call.fromState.value else "start",
                                        call.toState, call.event, call.task, call.run, call.status, key, call.payload,
                                        at), true)
              && log' == Log(log.leads, log.rows + [outcome.row])
  {
    CheckIsExact(call);
    LookupIsExact(log.rows, key);
  }

  class Store {
    const hash: string -> string
    var leads: set<string>
    var rows: seq<Row>

    constructor (hash: string -> string)
      ensures this.hash == hash && Contents() == Log({}, [])
    {
      this.hash := hash;
      leads, rows := {}, [];
    }

    function Contents(): Log
      reads this
    {
      Log(leads, rows)
    }

    method TransitionByKey(key: string) returns (row: Option<Row>)
      ensures row == RowWithKey(rows, key)
    {
      var i: nat := |rows|;
      assert rows[..i] == rows;
      while i > 0
        invariant i <= |rows|
        invariant RowWithKey(rows, key) == RowWithKey(rows[..i], key)
      {
        i := i - 1;
        assert rows[..i + 1][..i] == rows[..i];
        if rows[i].key == key {
          return Some(rows[i]);
        }
      }
      row := None;
    }

    method RecordTransition(call: Call, at: nat) returns (outcome: Outcome)
      modifies this`rows
      ensures (Contents(), outcome) == Record(hash, old(Contents()), call, at)
    {
      if call.fromState.Some? {
        var source, target := Pipeline.Normalize(call.fromState.value), Pipeline.Normalize(call.toState);
        if target.Unknown? || source.Unknown? {
          return Failed(UnknownState);
        }
        if !Pipeline.CanTransition(source.state, target.state) {
          return Failed(IllegalTransition);
        }
      }
      var key := KeyOf(hash, call);
      var existing := TransitionByKey(key);
      if existing.None? && call.lead in leads {
        var row := NewRow(hash, call, at);
        rows := rows + [row];
        return Written(row, true);
      }
      if existing.None? {
        return Failed(ConflictWithoutRow);
      }
      outcome := Written(existing.value, false);
    }
  }

  // ---------------------------------------------------------------- histories

  /** A call and the instant it is made. */
  datatype Timed = Timed(call: Call, at: nat)

  function After(hash: string -> string, log: Log, calls: seq<Timed>): Log {
    if |calls| == 0 then log
    else Record(hash, After(hash, log, calls[..|calls| - 1]), calls[|calls| - 1].call, calls[|calls| - 1].at).0
  }

  /** What the i-th call returned. */
  function OutcomeOf(hash: string -> string, log: Log, calls: seq<Timed>, i: nat): Outcome
    requires i < |calls|
  {
    Record(hash, After(hash, log, calls[..i]), calls[i].call, calls[i].at).1
  }

  ghost predicate UniqueKeys(rows: seq<Row>) {
    forall i, j :: 0 <= i < j < |rows| ==> rows[i].key != rows[j].key
  }

  /** Not from "start" means along an edge of the pipeline. */
  predicate FollowsPipeline(row: Row) {
    row.fromState != "start" ==>
      var source, target := Pipeline.Normalize(row.fromState), Pipeline.Normalize(row.toState);
      source.Known? && target.Known? && Pipeline.CanTransition(source.state, target.state)
  }

  lemma {:induction false} LookupIsExact(rows: seq<Row>, key: string)
    ensures RowWithKey(rows, key).None? <==> forall i :: 0 <= i < |rows| ==> rows[i].key != key
    ensures RowWithKey(rows, key).Some? ==>
              RowWithKey(rows, key).value in rows && RowWithKey(rows, key).value.key == key
  {
    if |rows| > 0 {
      LookupIsExact(rows[..|rows| - 1], key);
    }
  }

  lemma RecordKeeps(hash: string -> string, log: Log, call: Call, at: nat)
    requires UniqueKeys(log.rows) && forall i :: 0 <= i < |log.rows| ==> FollowsPipeline(log.rows[i])
    ensures var log' := Record(hash, log, call, at).0;
            && UniqueKeys(log'.rows) && (forall i :: 0 <= i < |log'.rows| ==> FollowsPipeline(log'.rows[i]))
            && log.rows <= log'.rows && log'.leads == log.leads
  {
    LookupIsExact(log.rows, KeyOf(hash, call));
  }

  /** Keys stay unique, every row not from "start" is an edge, and rows are never changed or removed. */
  lemma {:induction false} LogIsSound(hash: string -> string, leads: set<string>, calls: seq<Timed>, k: nat)
    requires k <= |calls|
    ensures var log := After(hash, Log(leads, []), calls);
            && UniqueKeys(log.rows) && (forall i :: 0 <= i < |log.rows| ==> FollowsPipeline(log.rows[i]))
            && After(hash, Log(leads, []), calls[..k]).rows <= log.rows && log.leads == leads
  {
    hide Record, FollowsPipeline;
    if |calls| > 0 {
      var n := |calls| - 1;
      if k <= n {
        assert calls[..n][..k] == calls[..k];
      } else {
        assert calls[..k] == calls;
      }
      LogIsSound(hash, leads, calls[..n], if k <= n then k else n);
      RecordKeeps(hash, After(hash, Log(leads, []), calls[..n]), calls[n].call, calls[n].at);
    }
  }

  // ---------------------------------------------------------------- the life of a lead

  /** Recordings of one lead that take it through the named states, under the given keys. */
  function Journey(lead: string, names: seq<string>, keys: seq<string>): seq<Timed>
    requires |names| == |keys|
  {
    seq(|names|, i requires 0 <= i < |names| =>
      Timed(Call(lead, if i == 0 then None else Some(names[i - 1]), names[i], "step", None, None, "succeeded",
                 Some(keys[i]), Null), i))
  }

  /** Nothing stands in the way of these keys: none is empty, none is used, and no two are the same. */
  predicate FreshKeys(rows: seq<Row>, keys: seq<string>) {
    && (forall i :: 0 <= i < |keys| ==> keys[i] != "" && IsFresh(rows, keys[i]))
    && forall i, j :: 0 <= i < j < |keys| ==> keys[i] != keys[j]
  }

  predicate Legal(names: seq<string>) {
    forall i :: 0 < i < |names| ==> IsLegal(names[i - 1], names[i])
  }

  /** What the i-th recording of a journey writes. */
  function JourneyRow(lead: string, names: seq<string>, keys: seq<string>, i: nat): Row
    requires |names| == |keys| && i < |names|
  {
    Row(lead, if i == 0 then "start" else names[i - 1], names[i], "step", None, None, "succeeded", keys[i], Null, i)
  }

  function JourneyRows(lead: string, names: seq<string>, keys: seq<string>): seq<Row>
    requires |names| == |keys|
  {
    seq(|names|, i requires 0 <= i < |names| => JourneyRow(lead, names, keys, i))
  }

  /** The next recording of a journey that has been recorded up to there. */
  lemma JourneyStep(hash: string -> string, log: Log, lead: string, names: seq<string>, keys: seq<string>, n: nat)
    requires n < |names| == |keys| && lead in log.leads && FreshKeys(log.rows, keys) && Legal(names)
    ensures var log1 := log.(rows := log.rows + JourneyRows(lead, names, keys)[..n]);
            var row := JourneyRow(lead, names, keys, n);
            Record(hash, log1, Journey(lead, names, keys)[n].call, n) ==
              (log1.(rows := log1.rows + [row]), Written(row, true))
  {
    var log1 := log.(rows := log.rows + JourneyRows(lead, names, keys)[..n]);
    assert IsFresh(log.rows, keys[n]);
    assert IsFresh(log1.rows, keys[n]);
    if n > 0 {
      assert IsLegal(names[n - 1], names[n]);
    }
    hide Record, FreshKeys;
    RecordIsExact(hash, log1, Journey(lead, names, keys)[n].call, n, keys[n]);
  }

  lemma {:induction false} JourneyUpTo(hash: string -> string, log: Log, lead: string, names: seq<string>,
        keys: seq<string>, n: nat)
    requires n <= |names| == |keys| && lead in log.leads && FreshKeys(log.rows, keys) && Legal(names)
    ensures After(hash, log, Journey(lead, names, keys)[..n]) ==
              log.(rows := log.rows + JourneyRows(lead, names, keys)[..n])
  {
    hide Record, FreshKeys, Legal, JourneyRow;
    var calls, rows := Journey(lead, names, keys), JourneyRows(lead, names, keys);
    if n == 0 {
      assert log.rows + rows[..0] == log.rows;
    } else {
      JourneyUpTo(hash, log, lead, names, keys, n - 1);
      JourneyStep(hash, log, lead, names, keys, n - 1);
      assert calls[..n][..n - 1] == calls[..n - 1];
      assert log.rows + rows[..n - 1] + [rows[n - 1]] == log.rows + rows[..n];
    }
  }

  /** A lead that exists can go through any states that follow one another legally, such as captured, enriched,
      qualified, auctioned, sold: every recording inserts its row. */
  lemma JourneyIsRecorded(hash: string -> string, log: Log, lead: string, names: seq<string>, keys: seq<string>)
    requires |names| == |keys| && lead in log.leads && FreshKeys(log.rows, keys) && Legal(names)
    ensures var calls, rows := Journey(lead, names, keys), JourneyRows(lead, names, keys);
            && After(hash, log, calls) == Log(log.leads, log.rows + rows)
            && forall i :: 0 <= i < |names| ==> OutcomeOf(hash, log, calls, i) == Written(rows[i], true)
  {
    hide Record, FreshKeys, Legal, JourneyRow, After;
    var calls, rows := Journey(lead, names, keys), JourneyRows(lead, names, keys);
    JourneyUpTo(hash, log, lead, names, keys, |names|);
    assert calls[..|names|] == calls && rows[..|names|] == rows;
    forall i | 0 <= i < |names| ensures OutcomeOf(hash, log, calls, i) == Written(rows[i], true) {
      JourneyUpTo(hash, log, lead, names, keys, i);
      JourneyStep(hash, log, lead, names, keys, i);
    }
  }

  // ---------------------------------------------------------------- replay

  lemma FoundStays(hash: string -> string, log: Log, call: Call, at: nat, key: string)
    requires RowWithKey(log.rows, key).Some?
    ensures RowWithKey(Record(hash, log, call, at).0.rows, key) == RowWithKey(log.rows, key)
  {
    var log' := Record(hash, log, call, at).0;
    if log' != log {
      assert log'.rows[..|log.rows|] == log.rows;
    }
  }

  lemma WrittenIsFound(hash: string -> string, log: Log, call: Call, at: nat)
    ensures var (log', outcome) := Record(hash, log, call, at);
            outcome.Written? ==> RowWithKey(log'.rows, KeyOf(hash, call)) == Some(outcome.row)
  {
  }

  lemma FoundChangesNothing(hash: string -> string, log: Log, call: Call, at: nat)
    requires Check(call).None? ==> RowWithKey(log.rows, KeyOf(hash, call)).Some? || call.lead !in log.leads
    ensures Record(hash, log, call, at).0 == log
  {
  }

  lemma FailedFor(hash: string -> string, log: Log, call: Call, at: nat)
    requires Record(hash, log, call, at).1.Failed?
    ensures Check(call).Some? || call.lead !in log.leads
  {
  }

  lemma WrittenPassed(hash: string -> string, log: Log, call: Call, at: nat)
    requires Record(hash, log, call, at).1.Written?
    ensures Check(call).None?
  {
  }

  /** After a call that wrote or found a row, the log has that row under the call's key for good. */
  lemma {:induction false} WrittenStays(hash: string -> string, log: Log, calls: seq<Timed>, i: nat)
    requires i < |calls| && OutcomeOf(hash, log, calls, i).Written?
    ensures RowWithKey(After(hash, log, calls).rows, KeyOf(hash, calls[i].call)) ==
              Some(OutcomeOf(hash, log, calls, i).row)
  {
    hide Record;
    var n := |calls| - 1;
    var before := After(hash, log, calls[..n]);
    if i == n {
      WrittenIsFound(hash, before, calls[n].call, calls[n].at);
    } else {
      assert calls[..n][..i] == calls[..i];
      WrittenStays(hash, log, calls[..n], i);
      FoundStays(hash, before, calls[n].call, calls[n].at, KeyOf(hash, calls[i].call));
    }
  }

  lemma {:induction false} LeadsFixed(hash: string -> string, log: Log, calls: seq<Timed>)
    ensures After(hash, log, calls).leads == log.leads
  {
    if |calls| > 0 {
      LeadsFixed(hash, log, calls[..|calls| - 1]);
    }
  }

  predicate IsAmong(call: Call, calls: seq<Timed>) {
    exists i :: 0 <= i < |calls| && calls[i].call == call
  }

  /** Calls already made change nothing when made again, in any number and at any time. */
  lemma {:induction false} ReplayChangesNothing(hash: string -> string, log: Log, calls: seq<Timed>, again: seq<Timed>)
    requires forall j :: 0 <= j < |again| ==> IsAmong(again[j].call, calls)
    ensures After(hash, After(hash, log, calls), again) == After(hash, log, calls)
  {
    hide Record, Check;
    if |again| > 0 {
      var n := |again| - 1;
      ReplayChangesNothing(hash, log, calls, again[..n]);
      assert IsAmong(again[n].call, calls);
      var i :| 0 <= i < |calls| && calls[i].call == again[n].call;
      if OutcomeOf(hash, log, calls, i).Written? {
        WrittenStays(hash, log, calls, i);
      } else {
        FailedFor(hash, After(hash, log, calls[..i]), calls[i].call, calls[i].at);
        LeadsFixed(hash, log, calls);
        LeadsFixed(hash, log, calls[..i]);
      }
      FoundChangesNothing(hash, After(hash, log, calls), again[n].call, again[n].at);
    }
  }

  /** Making the same calls again, in the same order, returns the stored rows as found, not inserted. */
  lemma ReplayReturnsStoredRows(hash: string -> string, log: Log, calls: seq<Timed>, again: seq<Timed>, i: nat)
    requires |again| == |calls| && forall j :: 0 <= j < |again| ==> calls[j].call == again[j].call
    requires i < |calls| && OutcomeOf(hash, log, calls, i).Written?
    ensures OutcomeOf(hash, After(hash, log, calls), again, i) == Written(OutcomeOf(hash, log, calls, i).row, false)
  {
    forall j | 0 <= j < |again| ensures IsAmong(again[j].call, calls) {
      assert calls[j].call == again[j].call;
    }
    ReplayChangesNothing(hash, log, calls, again);
    ReplayChangesNothing(hash, log, calls, again[..i]);
    WrittenStays(hash, log, calls, i);
    WrittenPassed(hash, After(hash, log, calls[..i]), calls[i].call, calls[i].at);
  }

  // ---------------------------------------------------------------- chains

  /** Positions of rows of one lead, none from "start", each leaving the state the one before entered. */
  predicate IsChain(rows: seq<Row>, chain: seq<nat>) {
    && (forall i :: 0 <= i < |chain| ==> chain[i] < |rows| && rows[chain[i]].fromState != "start")
    && (forall i :: 0 < i < |chain| ==>
          rows[chain[i]].fromState == rows[chain[i - 1]].toState && rows[chain[i]].lead == rows[chain[i - 1]].lead)
  }

  function StateNamed(name: string): Pipeline.PipelineState {
    var parsed := Pipeline.Normalize(name);
    if parsed.Known? then parsed.state else Pipeline.Captured
  }

  /** The states a chain goes through. */
  function StatesOf(rows: seq<Row>, chain: seq<nat>): seq<Pipeline.PipelineState>
    requires IsChain(rows, chain) && |chain| > 0
  {
    [StateNamed(rows[chain[0]].fromState)] +
      seq(|chain|, i requires 0 <= i < |chain| => StateNamed(rows[chain[i]].toState))
  }

  lemma EdgeOf(row: Row)
    requires FollowsPipeline(row) && row.fromState != "start"
    ensures Pipeline.CanTransition(StateNamed(row.fromState), StateNamed(row.toState))
    ensures !LeavesEnd(row)
  {
  }

  predicate LeavesEnd(row: Row) {
    row.fromState == "sold" || row.fromState == "nurtured"
  }

  /** In any history the rows of a lead chain at most five deep, and nothing leaves sold or nurtured. */
  lemma ChainsAreShort(hash: string -> string, leads: set<string>, calls: seq<Timed>, chain: seq<nat>)
    requires IsChain(After(hash, Log(leads, []), calls).rows, chain)
    ensures |chain| <= 5
    ensures forall i :: 0 <= i < |chain| ==> !LeavesEnd(After(hash, Log(leads, []), calls).rows[chain[i]])
  {
    hide FollowsPipeline, StateNamed, After, Pipeline.CanTransition;
    var rows := After(hash, Log(leads, []), calls).rows;
    LogIsSound(hash, leads, calls, 0);
    forall i | 0 <= i < |chain|
      ensures Pipeline.CanTransition(StateNamed(rows[chain[i]].fromState), StateNamed(rows[chain[i]].toState))
      ensures !LeavesEnd(rows[chain[i]])
    {
      EdgeOf(rows[chain[i]]);
    }
    if |chain| > 0 {
      var walk := StatesOf(rows, chain);
      forall i | 0 < i < |walk| ensures Pipeline.CanTransition(walk[i - 1], walk[i]) {
        assert walk[i] == StateNamed(rows[chain[i - 1]].toState);
        assert walk[i - 1] == StateNamed(rows[chain[i - 1]].fromState);
      }
      Pipeline.RankIsLongestWalk(walk[0]);
    }
  }

  // ---------------------------------------------------------------- default keys

  predicate Colonless(s: string) {
    forall i :: 0 <= i < |s| ==> s[i] != ':'
  }

  /** Lead ids and state names never contain the separator. */
  predicate PlainNames(call: Call) {
    Colonless(call.lead) && Colonless(FromText(call)) && Colonless(call.toState)
  }

  /** What a default key is meant to identify; a missing task counts as an empty one. */
  predicate SameStep(a: Call, b: Call) {
    && a.lead == b.lead && FromText(a) == FromText(b) && a.toState == b.toState
    && a.event == b.event && TaskText(a) == TaskText(b)
  }

  lemma SplitAtColon(a: string, x: string, b: string, y: string)
    requires Colonless(a) && Colonless(b) && a + ":" + x == b + ":" + y
    ensures a == b && x == y
  {
    var s := a + ":" + x;
    assert s[|a|] == ':' && forall i :: 0 <= i < |a| ==> s[i] == a[i];
    assert s[|b|] == ':' && forall i :: 0 <= i < |b| ==> s[i] == b[i];
    assert a == s[..|a|] && b == s[..|b|];
    assert x == s[|a| + 1..] && y == s[|b| + 1..];
  }

  lemma KeyTextSplits(a: Call, b: Call)
    requires PlainNames(a) && PlainNames(b)
    ensures KeyText(a) == KeyText(b) <==>
              a.lead == b.lead && FromText(a) == FromText(b) && a.toState == b.toState && Tail(a) == Tail(b)
  {
    hide Colonless, Tail;
    var a1, b1 := a.toState + ":" + Tail(a), b.toState + ":" + Tail(b);
    var a2, b2 := FromText(a) + ":" + a1, FromText(b) + ":" + b1;
    var a3, b3 := a.lead + ":" + a2, b.lead + ":" + b2;
    if KeyText(a) == KeyText(b) {
      assert a3 == KeyText(a)[3..] && b3 == KeyText(b)[3..];
      SplitAtColon(a.lead, a2, b.lead, b2);
      SplitAtColon(FromText(a), a1, FromText(b), b1);
      SplitAtColon(a.toState, Tail(a), b.toState, Tail(b));
    }
  }

  /** A default key belongs to one step only exactly when neither the event name nor the task name contains the
      separator. */
  lemma KeyIdentifiesStep(hash: string -> string, call: Call)
    requires forall x, y :: hash(x) == hash(y) ==> x == y
    requires PlainNames(call)
    ensures (forall other :: PlainNames(other) && hash(KeyText(other)) == hash(KeyText(call)) ==> SameStep(call, other))
       <==> Colonless(call.event) && Colonless(TaskText(call))
  {
    if Colonless(call.event) && Colonless(TaskText(call)) {
      forall other | PlainNames(other) && hash(KeyText(other)) == hash(KeyText(call)) ensures SameStep(call, other) {
        KeyTextSplits(call, other);
        TailSplits(call, other);
      }
    } else {
      var other := Twin(call);
      KeyTextSplits(call, other);
      assert PlainNames(other) && KeyText(other) == KeyText(call);
    }
  }

  lemma TailSplits(call: Call, other: Call)
    requires Colonless(call.event) && Colonless(TaskText(call)) && Tail(call) == Tail(other)
    ensures call.event == other.event && TaskText(call) == TaskText(other)
  {
    var tail, n := Tail(call), |call.event|;
    assert forall i :: 0 <= i < |tail| && i != n ==> tail[i] != ':';
    assert tail[|other.event|] == ':';
    assert call.event == tail[..n] && TaskText(call) == tail[n + 1..];
    assert other.event == tail[..n] && TaskText(other) == tail[n + 1..];
  }

  /** Another call with the same key text, cut at a different separator. */
  lemma Twin(call: Call) returns (other: Call)
    requires !Colonless(call.event) || !Colonless(TaskText(call))
    ensures other.lead == call.lead && other.fromState == call.fromState && other.toState == call.toState
    ensures Tail(other) == Tail(call) && other.event != call.event
  {
    var n := |call.event|;
    var i;
    if !Colonless(call.event) {
      i :| 0 <= i < n && call.event[i] == ':';
    } else {
      var j :| 0 <= j < |TaskText(call)| && TaskText(call)[j] == ':';
      i := n + 1 + j;
    }
    CutAt(Tail(call), i);
    other := call.(event := Tail(call)[..i], task := Some(Tail(call)[i + 1..]));
  }

  lemma CutAt(s: string, i: nat)
    requires i < |s| && s[i] == ':'
    ensures s == s[..i] + ":" + s[i + 1..]
  {
  }
}
