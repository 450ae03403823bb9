/** Recent lead runs: the newest transition rows, grouped by lead and run, summarised, newest run first. */
module Timeline {
  import opened Lists
  import opened Market
  import opened Redaction
  import opened Sorting
  import opened Sums
  import opened TransitionLog

  const ARTIFACT_KEY_PARTS := ["artifact", "evidence", "screenshot", "trace", "video"]

  // ---------------------------------------------------------------- grouping

  datatype RunKey = RunKey(lead: string, run: Option<string>)

  function KeyOfRow(row: Row): RunKey {
    RunKey(row.lead, row.run)
  }

  function KeysOf(rows: seq<Row>): seq<RunKey> {
    seq(|rows|, i requires 0 <= i < |rows| => KeyOfRow(rows[i]))
  }

  /** The rows of one run, in the order given. */
  function RowsFor(rows: seq<Row>, key: RunKey): seq<Row> {
    if |rows| == 0 then []
    else
      var last := rows[|rows| - 1];
      RowsFor(rows[..|rows| - 1], key) + if KeyOfRow(last) == key then [last] else []
  }

  function CountFor(rows: seq<Row>): RunKey -> int {
    (key: RunKey) => |RowsFor(rows, key)|
  }

  lemma Grows(rows: seq<Row>, row: Row)
    ensures KeysOf(rows + [row]) == KeysOf(rows) + [KeyOfRow(row)]
    ensures forall key :: RowsFor(rows + [row], key) == RowsFor(rows, key) + if KeyOfRow(row) == key then [row] else []
  {
    assert (rows + [row])[..|rows|] == rows;
  }

  lemma {:induction false} GroupNotEmpty(rows: seq<Row>, key: RunKey)
    ensures |RowsFor(rows, key)| > 0 <==> key in KeysOf(rows)
  {
    hide RowsFor;
    if |rows| == 0 {
      assert RowsFor(rows, key) == [] by { NoRows(key); }
    } else {
      var front, last := rows[..|rows| - 1], rows[|rows| - 1];
      assert rows == front + [last];
      GroupNotEmpty(front, key);
      Grows(front, last);
    }
  }

  lemma NoRows(key: RunKey)
    ensures RowsFor([], key) == [] && KeysOf([]) == []
  {
  }

  /** A row is in the group of its own key, as often as it was scanned, and in no other group. */
  lemma {:induction false} GroupIsExact(rows: seq<Row>, key: RunKey, row: Row)
    ensures multiset(RowsFor(rows, key))[row] == if KeyOfRow(row) == key then multiset(rows)[row] else 0
  {
    hide RowsFor, KeyOfRow;
    if |rows| == 0 {
      NoRows(key);
    } else {
      var front, last := rows[..|rows| - 1], rows[|rows| - 1];
      assert rows == front + [last];
      GroupIsExact(front, key, row);
      Grows(front, last);
    }
  }

  /** Groups partition the rows: their sizes add up to the number of rows. */
  lemma {:induction false} CountsAddUp(rows: seq<Row>)
    ensures Sum(Distinct(KeysOf(rows)), CountFor(rows)) == |rows|
  {
    if |rows| > 0 {
      hide RowsFor, Distinct;
      var front, last := rows[..|rows| - 1], rows[|rows| - 1];
      var key, keys := KeyOfRow(last), Distinct(KeysOf(front));
      assert rows == front + [last];
      CountsAddUp(front);
      Grows(front, last);
      DistinctAppend(KeysOf(front), key);
      DistinctIsExact(KeysOf(front));
      SumLinear(keys, CountFor(rows), 1, CountFor(front), 1, Is(key));
      DistinctCounts(KeysOf(front), key);
      GroupNotEmpty(front, key);
      SumAppend(keys, key, CountFor(rows));
    }
  }

  // ---------------------------------------------------------------- artifact paths

  predicate IsArtifactKey(key: string) {
    exists i :: 0 <= i < |ARTIFACT_KEY_PARTS| && Contains(Lower(key), ARTIFACT_KEY_PARTS[i])
  }

  /** Every string inside a value, in order. */
  function Strings(v: Json): seq<string>
    decreases v, 1
  {
    match v
    case Str(s) => [s]
    case Arr(items) => StringsOfFirst(v, |items|)
    case Obj(fields) => StringsOfFirst(v, |fields|)
    case _ => []
  }

  function StringsOfFirst(v: Json, n: nat): seq<string>
    requires (v.Arr? && n <= |v.items|) || (v.Obj? && n <= |v.fields|)
    decreases v, 0, n
  {
    if n == 0 then [] else StringsOfFirst(v, n - 1) + Strings(if v.Arr? then v.items[n - 1] else v.fields[n - 1].value)
  }

  /** Every string at or below an artifact key, in order. */
  function Artifacts(v: Json): seq<string>
    decreases v, 1
  {
    match v
    case Arr(items) => ArtifactsOfFirst(v, |items|)
    case Obj(fields) => ArtifactsOfFirst(v, |fields|)
    case _ => []
  }

  function ArtifactsOfFirst(v: Json, n: nat): seq<string>
    requires (v.Arr? && n <= |v.items|) || (v.Obj? && n <= |v.fields|)
    decreases v, 0, n
  {
    if n == 0 then []
    else
      ArtifactsOfFirst(v, n - 1) +
      if v.Arr? then Artifacts(v.items[n - 1])
      else if IsArtifactKey(v.fields[n - 1].key) then Strings(v.fields[n - 1].value)
      else Artifacts(v.fields[n - 1].value)
  }

  method AppendArtifactValue(value: Json, paths: seq<string>) returns (paths': seq<string>)
    ensures paths' == paths + Strings(value)
    decreases value
  {
    paths' := paths;
    match value {
      case Str(s) => paths' := paths' + [s];
      case Arr(items) =>
        for i := 0 to |items|
          invariant paths' == paths + StringsOfFirst(value, i)
        {
          paths' := AppendArtifactValue(items[i], paths');
        }
      case Obj(fields) =>
        for i := 0 to |fields|
          invariant paths' == paths + StringsOfFirst(value, i)
        {
          paths' := AppendArtifactValue(fields[i].value, paths');
        }
      case _ =>
    }
  }

  method CollectArtifactValues(value: Json, paths: seq<string>) returns (paths': seq<string>)
    ensures paths' == paths + Artifacts(value)
    decreases value
  {
    paths' := paths;
    match value {
      case Obj(fields) =>
        for i := 0 to |fields|
          invariant paths' == paths + ArtifactsOfFirst(value, i)
        {
          if IsArtifactKey(fields[i].key) {
            paths' := AppendArtifactValue(fields[i].value, paths');
          } else {
            paths' := CollectArtifactValues(fields[i].value, paths');
          }
        }
      case Arr(items) =>
        for i := 0 to |items|
          invariant paths' == paths + ArtifactsOfFirst(value, i)
        {
          paths' := CollectArtifactValues(items[i], paths');
        }
      case _ =>
    }
  }

  /** The artifact strings of the summaries of some rows, in order, repetitions included. */
  function AllPaths(t: Rewriting, rows: seq<Row>): seq<string> {
    if |rows| == 0 then [] else AllPaths(t, rows[..|rows| - 1]) + Artifacts(Summary(t, rows[|rows| - 1].payload))
  }

  /** The first eight of them, each once. */
  function ArtifactPaths(t: Rewriting, rows: seq<Row>): seq<string> {
    var deduped := Distinct(AllPaths(t, rows));
    deduped[..Min(|deduped|, MAX_ITEMS)]
  }

  method CollectArtifactPaths(t: Rewriting, rows: seq<Row>) returns (kept: seq<string>)
    ensures kept == ArtifactPaths(t, rows)
  {
    var paths := [];
    for i := 0 to |rows|
      invariant paths == AllPaths(t, rows[..i])
    {
      assert rows[..i + 1][..i] == rows[..i];
      paths := CollectArtifactValues(Summary(t, rows[i].payload), paths);
    }
    assert rows[..|rows|] == rows;
    var deduped: seq<string>, seen: set<string> := [], {};
    for i := 0 to |paths|
      invariant deduped == Distinct(paths[..i]) && seen == set path | path in deduped
    {
      assert paths[..i + 1][..i] == paths[..i];
      if paths[i] !in seen {
        deduped := deduped + [paths[i]];
        seen := seen + {paths[i]};
      }
    }
    assert paths[..|paths|] == paths;
    kept := deduped[..Min(|deduped|, MAX_ITEMS)];
  }

  lemma {:induction false} StringsAreShort(v: Json, levels: nat)
    requires Small(v, levels)
    ensures forall i :: 0 <= i < |Strings(v)| ==> |Strings(v)[i]| <= MAX_LENGTH
    decreases v, 1
  {
    match v
    case Arr(items) => FirstStringsAreShort(v, |items|, levels);
    case Obj(fields) => FirstStringsAreShort(v, |fields|, levels);
    case _ =>
  }

  lemma {:induction false} FirstStringsAreShort(v: Json, n: nat, levels: nat)
    requires Small(v, levels) && ((v.Arr? && n <= |v.items|) || (v.Obj? && n <= |v.fields|))
    ensures forall i :: 0 <= i < |StringsOfFirst(v, n)| ==> |StringsOfFirst(v, n)[i]| <= MAX_LENGTH
    decreases v, 0, n
  {
    if n > 0 {
      FirstStringsAreShort(v, n - 1, levels);
      if v.Arr? {
        StringsAreShort(v.items[n - 1], levels);
      } else {
        StringsAreShort(v.fields[n - 1].value, levels - 1);
      }
    }
  }

  lemma {:induction false} ArtifactsAreShort(v: Json, levels: nat)
    requires Small(v, levels)
    ensures forall i :: 0 <= i < |Artifacts(v)| ==> |Artifacts(v)[i]| <= MAX_LENGTH
    decreases v, 1
  {
    match v
    case Arr(items) => FirstArtifactsAreShort(v, |items|, levels);
    case Obj(fields) => FirstArtifactsAreShort(v, |fields|, levels);
    case _ =>
  }

  lemma {:induction false} FirstArtifactsAreShort(v: Json, n: nat, levels: nat)
    requires Small(v, levels) && ((v.Arr? && n <= |v.items|) || (v.Obj? && n <= |v.fields|))
    ensures forall i :: 0 <= i < |ArtifactsOfFirst(v, n)| ==> |ArtifactsOfFirst(v, n)[i]| <= MAX_LENGTH
    decreases v, 0, n
  {
    if n > 0 {
      FirstArtifactsAreShort(v, n - 1, levels);
      if v.Arr? {
        ArtifactsAreShort(v.items[n - 1], levels);
      } else {
        StringsAreShort(v.fields[n - 1].value, levels - 1);
        ArtifactsAreShort(v.fields[n - 1].value, levels - 1);
      }
    }
  }

  lemma {:induction false} AllPathsAreShort(t: Rewriting, rows: seq<Row>)
    ensures forall i :: 0 <= i < |AllPaths(t, rows)| ==> |AllPaths(t, rows)[i]| <= MAX_LENGTH
  {
    if |rows| > 0 {
      AllPathsAreShort(t, rows[..|rows| - 1]);
      SummaryIsSmall(t, rows[|rows| - 1].payload);
      ArtifactsAreShort(Summary(t, rows[|rows| - 1].payload), 4);
    }
  }

  /** At most eight paths are kept, none twice, none longer than 240 characters; they are the earliest
      distinct ones, so nothing is left out while there is room. */
  lemma PathsAreFirstDistinct(t: Rewriting, rows: seq<Row>)
    ensures var kept, all := ArtifactPaths(t, rows), AllPaths(t, rows);
            && |kept| <= MAX_ITEMS
            && (forall i, j :: 0 <= i < j < |kept| ==> kept[i] != kept[j])
            && (forall path :: path in kept ==> path in all && |path| <= MAX_LENGTH)
            && kept <= Distinct(all)
            && (|kept| < MAX_ITEMS ==> forall path :: path in all ==> path in kept)
  {
    hide Distinct, AllPaths;
    var all := AllPaths(t, rows);
    DistinctIsExact(all);
    AllPathsAreShort(t, rows);
    forall path | path in ArtifactPaths(t, rows) ensures path in all && |path| <= MAX_LENGTH {
      assert path in Distinct(all);
    }
  }

  lemma {:induction false} PathsOfPrefix(t: Rewriting, rows: seq<Row>, n: nat)
    requires n <= |rows|
    ensures AllPaths(t, rows[..n]) <= AllPaths(t, rows)
  {
    if n == |rows| {
      assert rows[..n] == rows;
    } else {
      PathsOfPrefix(t, rows[..|rows| - 1], n);
      assert rows[..|rows| - 1][..n] == rows[..n];
    }
  }

  /** Later rows never displace a path that earlier rows gave. */
  lemma EarlierPathsStay(t: Rewriting, rows: seq<Row>, n: nat)
    requires n <= |rows|
    ensures ArtifactPaths(t, rows[..n]) <= ArtifactPaths(t, rows)
  {
    var all, early := AllPaths(t, rows), AllPaths(t, rows[..n]);
    PathsOfPrefix(t, rows, n);
    assert early == all[..|early|];
    DistinctOfPrefix(all, |early|);
  }

  /** The key has one of the words for artifacts in it, in small or capital letters. */
  ghost predicate LooksLikeArtifact(key: string) {
    exists part, at :: part in {"artifact", "evidence", "screenshot", "trace", "video"} && 0 <= at <= |key| &&
                         Spells(key, at, part)
  }

  lemma ArtifactKeyIsExact(key: string)
    ensures IsArtifactKey(key) <==> LooksLikeArtifact(key)
  {
    hide Spells, Contains, Lower;
    if i :| 0 <= i < |ARTIFACT_KEY_PARTS| && Contains(Lower(key), ARTIFACT_KEY_PARTS[i]) {
      PartSpells(key, ARTIFACT_KEY_PARTS[i]);
    }
    if part, at :| part in {"artifact", "evidence", "screenshot", "trace", "video"} && 0 <= at <= |key| &&
                   Spells(key, at, part) {
      PartSpells(key, part);
      assert part in ARTIFACT_KEY_PARTS;
    }
  }

  /** The i-th field of a dict has an artifact key and the string stands at or below it. */
  ghost predicate HoldsUnderKey(s: string, dict: Json, i: nat) {
    dict.Obj? && i < |dict.fields| && LooksLikeArtifact(dict.fields[i].key) && Within(Str(s), dict.fields[i].value)
  }

  /** Some dict at or inside v has an artifact key at or below which the string stands. */
  ghost predicate UnderArtifactKey(s: string, v: Json) {
    exists dict, i :: Within(dict, v) && HoldsUnderKey(s, dict, i)
  }

  lemma {:induction false} StringsAreWithin(s: string, v: Json)
    ensures s in Strings(v) <==> Within(Str(s), v)
    decreases v, 1
  {
    if v.Arr? || v.Obj? {
      FirstStringsAreWithin(s, v, ChildCount(v));
    }
  }

  lemma {:induction false} FirstStringsAreWithin(s: string, v: Json, n: nat)
    requires (v.Arr? || v.Obj?) && n <= ChildCount(v)
    ensures s in StringsOfFirst(v, n) <==> exists i :: 0 <= i < n && Within(Str(s), Child(v, i))
    decreases v, 0, n
  {
    if n > 0 {
      FirstStringsAreWithin(s, v, n - 1);
      StringsAreWithin(s, Child(v, n - 1));
    }
  }

  /** What a child, or the key above it, contributes. */
  ghost predicate FoundAt(s: string, v: Json, i: nat) {
    i < ChildCount(v) && (UnderArtifactKey(s, Child(v, i)) || HoldsUnderKey(s, v, i))
  }

  lemma UnderByChild(s: string, v: Json)
    ensures UnderArtifactKey(s, v) <==> exists i :: 0 <= i < ChildCount(v) && FoundAt(s, v, i)
  {
    if UnderArtifactKey(s, v) {
      var dict, k :| Within(dict, v) && HoldsUnderKey(s, dict, k);
      if dict == v {
        assert FoundAt(s, v, k);
      } else {
        var i :| 0 <= i < ChildCount(v) && Within(dict, Child(v, i));
        assert FoundAt(s, v, i);
      }
    }
    if i :| 0 <= i < ChildCount(v) && FoundAt(s, v, i) {
      if HoldsUnderKey(s, v, i) {
        assert Within(v, v);
      } else {
        var dict, k :| Within(dict, Child(v, i)) && HoldsUnderKey(s, dict, k);
        assert Within(dict, v);
      }
    }
  }

  /** Inside a value whose key is an artifact key every string counts, so nothing below is missed. */
  lemma {:induction false} UnderIsWithin(s: string, v: Json)
    requires UnderArtifactKey(s, v)
    ensures Within(Str(s), v)
    decreases v
  {
    UnderByChild(s, v);
    var i :| 0 <= i < ChildCount(v) && FoundAt(s, v, i);
    if UnderArtifactKey(s, Child(v, i)) {
      UnderIsWithin(s, Child(v, i));
    }
    assert Within(Str(s), Child(v, i));
  }

  /** The collected strings are exactly those at or below a field with an artifact key. */
  lemma {:induction false} ArtifactsAreUnderKeys(s: string, v: Json)
    ensures s in Artifacts(v) <==> UnderArtifactKey(s, v)
    decreases v, 1
  {
    UnderByChild(s, v);
    if v.Arr? || v.Obj? {
      FirstArtifactsAreUnderKeys(s, v, ChildCount(v));
    }
  }

  lemma {:induction false} FirstArtifactsAreUnderKeys(s: string, v: Json, n: nat)
    requires (v.Arr? || v.Obj?) && n <= ChildCount(v)
    ensures s in ArtifactsOfFirst(v, n) <==> exists i :: 0 <= i < n && FoundAt(s, v, i)
    decreases v, 0, n
  {
    if n > 0 {
      if v.Obj? {
        ArtifactKeyIsExact(v.fields[n - 1].key);
      }
      hide UnderArtifactKey, IsArtifactKey, LooksLikeArtifact, Within;
      FirstArtifactsAreUnderKeys(s, v, n - 1);
      var child := Child(v, n - 1);
      StringsAreWithin(s, child);
      ArtifactsAreUnderKeys(s, child);
      if UnderArtifactKey(s, child) {
        UnderIsWithin(s, child);
      }
      assert s in ArtifactsOfFirst(v, n) <==> s in ArtifactsOfFirst(v, n - 1) || FoundAt(s, v, n - 1);
    }
  }

  // ---------------------------------------------------------------- one run

  datatype RunStatus = Attention | Running | Succeeded

  datatype RunSummary = RunSummary(
    lead: string, run: Option<string>, state: string, status: RunStatus, events: nat, errors: int, reviews: int,
    startedAt: nat, updatedAt: nat, latestEvent: string, paths: seq<string>)

  predicate Older(a: Row, b: Row) {
    a.at <= b.at
  }

  predicate Newer(a: RunSummary, b: RunSummary) {
    a.updatedAt >= b.updatedAt
  }

  /** 1 for a row that neither succeeded, nor was reviewed, nor is under way. */
  function ErrorIn(): Row -> int {
    (row: Row) => if row.status != "succeeded" && row.status != "reviewed" && row.status != "started" then 1 else 0
  }

  function ReviewIn(): Row -> int {
    (row: Row) => if "admin.review" <= row.event then 1 else 0
  }

  predicate HasActive(rows: seq<Row>) {
    exists i :: 0 <= i < |rows| && rows[i].status == "started"
  }

  function SummaryOf(t: Rewriting, rows: seq<Row>): RunSummary
    requires |rows| > 0
  {
    SortKeeps(rows, Older);
    var ordered := StableSort(rows, Older);
    var latest := ordered[|ordered| - 1];
    var errors := Sum(ordered, ErrorIn());
    RunSummary(latest.lead, latest.run, latest.toState,
               if errors != 0 then Attention else if HasActive(ordered) then Running else Succeeded,
               |ordered|, errors, Sum(ordered, ReviewIn()), ordered[0].at, latest.at, latest.event,
               ArtifactPaths(t, ordered))
  }

  predicate InTime(rows: seq<Row>) {
    forall i, j :: 0 <= i < j < |rows| ==> rows[i].at <= rows[j].at
  }

  lemma OrderedRows(rows: seq<Row>)
    ensures var ordered := StableSort(rows, Older);
            && |ordered| == |rows| && SortedBy(ordered, Older)
            && forall row :: row in ordered <==> row in rows
  {
    SortKeeps(rows, Older);
    SortSorts(rows, Older);
    forall row ensures row in StableSort(rows, Older) <==> row in rows {
      assert row in multiset(StableSort(rows, Older)) <==> row in multiset(rows);
    }
  }

  /** A summary counts the rows it was made from, its times bound every one of them and are reached, its state and
      latest event are those of a newest row, and its status says exactly whether something failed or is under way. */
  lemma RunSummaryIsFair(t: Rewriting, rows: seq<Row>)
    requires |rows| > 0
    ensures var s := SummaryOf(t, rows);
            && s.events == |rows|
            && (forall row :: row in rows ==> s.startedAt <= row.at <= s.updatedAt)
            && (exists row :: row in rows && row.at == s.startedAt)
            && (exists row :: row in rows && row.at == s.updatedAt && row.toState == s.state &&
                 row.event == s.latestEvent)
            && (s.status == Attention <==>
                 exists row :: row in rows && row.status !in {"succeeded", "reviewed", "started"})
            && (s.status == Running <==> s.errors == 0 && exists row :: row in rows && row.status == "started")
  {
    hide ArtifactPaths, StableSort;
    OrderedRows(rows);
    SortSum(rows, Older, ErrorIn());
    var ordered := StableSort(rows, Older);
    forall row | row in rows ensures ordered[0].at <= row.at <= ordered[|ordered| - 1].at {
      var i :| 0 <= i < |ordered| && ordered[i] == row;
    }
    assert ordered[0] in ordered && ordered[|ordered| - 1] in ordered;
    ErrorsCount(rows);
    assert HasActive(ordered) <==> exists row :: row in ordered && row.status == "started";
  }

  /** Its errors are the rows that neither succeeded, nor were reviewed, nor are under way; its reviews are the
      events of a review by the admin. */
  lemma RunCountsAreExact(t: Rewriting, rows: seq<Row>)
    requires |rows| > 0
    ensures var s := SummaryOf(t, rows);
            && s.errors == Count(rows, (row: Row) => row.status !in {"succeeded", "reviewed", "started"})
            && s.reviews == Count(rows, (row: Row) => |row.event| >= 12 && row.event[..12] == "admin.review")
  {
    hide ArtifactPaths, StableSort;
    SortSum(rows, Older, ErrorIn());
    SortSum(rows, Older, ReviewIn());
    SumIsCount(rows, ErrorIn(), (row: Row) => row.status !in {"succeeded", "reviewed", "started"});
    SumIsCount(rows, ReviewIn(), (row: Row) => |row.event| >= 12 && row.event[..12] == "admin.review");
  }

  /** Its artifact paths are those of the rows in the order of time. */
  lemma RunPathsAreInTime(t: Rewriting, rows: seq<Row>) returns (ordered: seq<Row>)
    requires |rows| > 0
    ensures multiset(ordered) == multiset(rows) && InTime(ordered)
    ensures SummaryOf(t, rows).paths == ArtifactPaths(t, ordered)
  {
    hide ArtifactPaths;
    SortKeeps(rows, Older);
    SortSorts(rows, Older);
    ordered := StableSort(rows, Older);
  }

  lemma ErrorsCount(rows: seq<Row>)
    ensures Sum(rows, ErrorIn()) != 0 <==> exists row :: row in rows && ErrorIn()(row) == 1
  {
    if row :| row in rows && ErrorIn()(row) == 1 {
      var i :| 0 <= i < |rows| && rows[i] == row;
      SumAtLeastTerms(rows, ErrorIn(), i, i);
    } else {
      SumZero(rows, ErrorIn());
    }
  }

  lemma SummaryKeepsKey(t: Rewriting, rows: seq<Row>, key: RunKey)
    requires key in KeysOf(rows)
    ensures |RowsFor(rows, key)| > 0
    ensures var s := SummaryOf(t, RowsFor(rows, key)); s.lead == key.lead && s.run == key.run
  {
    GroupNotEmpty(rows, key);
    var group := RowsFor(rows, key);
    OrderedRows(group);
    var latest := StableSort(group, Older)[|group| - 1];
    assert latest in StableSort(group, Older);
    GroupIsExact(rows, key, latest);
    assert latest in multiset(group);
  }

  // ---------------------------------------------------------------- the list of recent runs

  predicate Later(a: Row, b: Row) {
    a.at >= b.at
  }

  /** The newest rows of the table, as many as the scan limit allows. */
  function Scanned(rows: seq<Row>, limit: nat, scanLimit: Option<nat>): seq<Row> {
    var wanted := if scanLimit.Some? && scanLimit.value != 0 then scanLimit.value else limit;
    var most := if limit * 20 >= wanted then limit * 20 else wanted;
    var sorted := StableSort(rows, Later);
    sorted[..Min(|sorted|, most)]
  }

  /** The summary of the i-th run among the scanned rows. */
  function SummaryAt(t: Rewriting, scanned: seq<Row>, i: nat): RunSummary
    requires i < |Distinct(KeysOf(scanned))|
  {
    var key := Distinct(KeysOf(scanned))[i];
    DistinctIsExact(KeysOf(scanned));
    SummaryKeepsKey(t, scanned, key);
    SummaryOf(t, RowsFor(scanned, key))
  }

  function Summaries(t: Rewriting, scanned: seq<Row>): seq<RunSummary> {
    var keys := Distinct(KeysOf(scanned));
    seq(|keys|, i requires 0 <= i < |keys| => SummaryAt(t, scanned, i))
  }

  function RecentRuns(t: Rewriting, rows: seq<Row>, limit: nat, scanLimit: Option<nat>): seq<RunSummary> {
    var sorted := StableSort(Summaries(t, Scanned(rows, limit, scanLimit)), Newer);
    sorted[..Min(|sorted|, if limit < 1 then 1 else limit)]
  }

  function EventsOf(): RunSummary -> int {
    (s: RunSummary) => s.events
  }

  lemma SummaryAtCounts(t: Rewriting, scanned: seq<Row>, i: nat)
    requires i < |Distinct(KeysOf(scanned))|
    ensures SummaryAt(t, scanned, i).events == CountFor(scanned)(Distinct(KeysOf(scanned))[i])
  {
    var key := Distinct(KeysOf(scanned))[i];
    DistinctIsExact(KeysOf(scanned));
    SummaryKeepsKey(t, scanned, key);
    RunSummaryIsFair(t, RowsFor(scanned, key));
  }

  /** Before the limit cut the summaries count every scanned row exactly once. */
  lemma EventsAddUp(t: Rewriting, scanned: seq<Row>)
    ensures Sum(StableSort(Summaries(t, scanned), Newer), EventsOf()) == |scanned|
  {
    hide SummaryAt, StableSort;
    var keys, all := Distinct(KeysOf(scanned)), Summaries(t, scanned);
    forall i | 0 <= i < |keys| ensures EventsOf()(all[i]) == CountFor(scanned)(keys[i]) {
      SummaryAtCounts(t, scanned, i);
    }
    SumToSame(all, EventsOf(), keys, CountFor(scanned), |keys|);
    CountsAddUp(scanned);
    SortSum(all, Newer, EventsOf());
  }

  /** Every scanned row is summarised by the run of its own key, no earlier than it starts and no later than it ends. */
  lemma RowIsSummarised(t: Rewriting, scanned: seq<Row>, row: Row) returns (i: nat)
    requires row in scanned
    ensures i < |Summaries(t, scanned)|
    ensures var s := Summaries(t, scanned)[i];
            s.lead == row.lead && s.run == row.run && s.startedAt <= row.at <= s.updatedAt
    ensures forall j :: 0 <= j < |Summaries(t, scanned)| && j != i ==>
              Summaries(t, scanned)[j].lead != row.lead || Summaries(t, scanned)[j].run != row.run
  {
    hide SummaryOf, RowsFor;
    var keys, key := Distinct(KeysOf(scanned)), KeyOfRow(row);
    var p :| 0 <= p < |scanned| && scanned[p] == row;
    assert KeysOf(scanned)[p] == key;
    DistinctIsExact(KeysOf(scanned));
    assert key in KeysOf(scanned) && key in keys;
    i :| 0 <= i < |keys| && keys[i] == key;
    forall j | 0 <= j < |keys|
      ensures Summaries(t, scanned)[j].lead == keys[j].lead && Summaries(t, scanned)[j].run == keys[j].run
    {
      SummaryKeepsKey(t, scanned, keys[j]);
    }
    SummaryKeepsKey(t, scanned, key);
    RunSummaryIsFair(t, RowsFor(scanned, key));
    GroupIsExact(scanned, key, row);
    assert row in multiset(RowsFor(scanned, key));
  }

  predicate ByUpdate(runs: seq<RunSummary>) {
    forall i, j :: 0 <= i < j < |runs| ==> runs[i].updatedAt >= runs[j].updatedAt
  }

  lemma SortedSummaries(all: seq<RunSummary>)
    ensures var sorted := StableSort(all, Newer);
            |sorted| == |all| && ByUpdate(sorted) && multiset(sorted) == multiset(all)
  {
    SortKeeps(all, Newer);
    SortSorts(all, Newer);
  }

  /** The result is newest first and holds at most limit runs; what the cut left out goes behind it. If anything
      was scanned, it starts with a run as new as any scanned row. */
  lemma RecentRunsAreNewest(t: Rewriting, rows: seq<Row>, limit: nat, scanLimit: Option<nat>)
    ensures var scanned, runs := Scanned(rows, limit, scanLimit), RecentRuns(t, rows, limit, scanLimit);
            && |runs| == Min(|Summaries(t, scanned)|, if limit < 1 then 1 else limit)
            && (exists rest :: ByUpdate(runs + rest) && multiset(runs + rest) == multiset(Summaries(t, scanned)))
            && (forall row :: row in scanned ==> |runs| > 0 && row.at <= runs[0].updatedAt)
  {
    hide StableSort, Summaries, Scanned;
    var scanned, runs := Scanned(rows, limit, scanLimit), RecentRuns(t, rows, limit, scanLimit);
    var sorted := StableSort(Summaries(t, scanned), Newer);
    SortedSummaries(Summaries(t, scanned));
    assert sorted == runs + sorted[|runs|..];
    forall row | row in scanned ensures |runs| > 0 && row.at <= runs[0].updatedAt {
      FirstIsNewest(t, scanned, sorted, row);
    }
  }

  lemma FirstIsNewest(t: Rewriting, scanned: seq<Row>, sorted: seq<RunSummary>, row: Row)
    requires ByUpdate(sorted) && multiset(sorted) == multiset(Summaries(t, scanned)) && row in scanned
    ensures |sorted| > 0 && row.at <= sorted[0].updatedAt
  {
    hide Summaries;
    var i := RowIsSummarised(t, scanned, row);
    var summary := Summaries(t, scanned)[i];
    assert summary in multiset(Summaries(t, scanned));
    assert summary in sorted;
    var j :| 0 <= j < |sorted| && sorted[j] == summary;
  }

  /** scanned and rest are the rows of the table, and no row of rest is newer than a scanned one. */
  ghost predicate LeavesOut(rows: seq<Row>, scanned: seq<Row>, rest: seq<Row>) {
    && multiset(scanned) + multiset(rest) == multiset(rows)
    && forall i, j :: 0 <= i < |scanned| && 0 <= j < |rest| ==> scanned[i].at >= rest[j].at
  }

  lemma CutLeavesOut(rows: seq<Row>, sorted: seq<Row>, n: nat)
    requires n <= |sorted| && multiset(sorted) == multiset(rows) && SortedBy(sorted, Later)
    ensures LeavesOut(rows, sorted[..n], sorted[n..])
  {
    assert sorted == sorted[..n] + sorted[n..];
  }

  /** The scan takes as many rows as its limits say, and no row it leaves out is newer than one it takes. */
  lemma ScanIsNewest(rows: seq<Row>, limit: nat, scanLimit: Option<nat>) returns (rest: seq<Row>)
    ensures LeavesOut(rows, Scanned(rows, limit, scanLimit), rest)
    ensures var asked := if scanLimit.Some? && scanLimit.value > 0 then scanLimit.value else limit;
            var most := if asked > 20 * limit then asked else 20 * limit;
            |Scanned(rows, limit, scanLimit)| == if |rows| < most then |rows| else most
  {
    SortKeeps(rows, Later);
    SortSorts(rows, Later);
    hide StableSort, LeavesOut, SortedBy;
    var sorted, n := StableSort(rows, Later), |Scanned(rows, limit, scanLimit)|;
    rest := sorted[n..];
    CutLeavesOut(rows, sorted, n);
  }

  lemma LeftOutIsOlder(rows: seq<Row>, scanned: seq<Row>, rest: seq<Row>, row: Row)
    requires LeavesOut(rows, scanned, rest) && row in rows && |scanned| > 0
    ensures row in scanned || row.at <= scanned[0].at
  {
    assert row in multiset(rows);
    if row in rest {
      var j :| 0 <= j < |rest| && rest[j] == row;
    }
  }

  /** Of a table with rows, the list starts with a run that is as new as any row of the table. */
  lemma NewestRunFirst(t: Rewriting, rows: seq<Row>, limit: nat, scanLimit: Option<nat>)
    requires limit >= 1
    ensures var runs := RecentRuns(t, rows, limit, scanLimit);
            |rows| > 0 ==> |runs| > 0 && forall row :: row in rows ==> row.at <= runs[0].updatedAt
  {
    hide Scanned, RecentRuns, LeavesOut, Summaries, ByUpdate;
    var rest := ScanIsNewest(rows, limit, scanLimit);
    RecentRunsAreNewest(t, rows, limit, scanLimit);
    var scanned := Scanned(rows, limit, scanLimit);
    if |rows| > 0 {
      assert scanned[0] in scanned;
      forall row | row in rows ensures row.at <= RecentRuns(t, rows, limit, scanLimit)[0].updatedAt {
        LeftOutIsOlder(rows, scanned, rest, row);
      }
    }
  }

  /** The rows by run, and the runs in the order they were first met. */
  method GroupRows(scanned: seq<Row>) returns (order: seq<RunKey>, grouped: map<RunKey, seq<Row>>)
    ensures order == Distinct(KeysOf(scanned))
    ensures forall key :: key in grouped <==> key in order
    ensures forall key :: key in grouped ==> grouped[key] == RowsFor(scanned, key)
  {
    hide KeysOf, RowsFor, KeyOfRow, Distinct;
    order, grouped := [], map[];
    NothingGrouped();
    for i := 0 to |scanned|
      invariant order == Distinct(KeysOf(scanned[..i]))
      invariant forall key :: key in grouped <==> key in order
      invariant forall key :: key in grouped ==> grouped[key] == RowsFor(scanned[..i], key)
    {
      var key := KeyOfRow(scanned[i]);
      assert scanned[..i + 1] == scanned[..i] + [scanned[i]];
      GroupStep(scanned[..i], scanned[i]);
      if key !in grouped {
        order := order + [key];
        grouped := grouped[key := []];
      }
      grouped := grouped[key := grouped[key] + [scanned[i]]];
    }
    assert scanned[..|scanned|] == scanned;
  }

  lemma NothingGrouped()
    ensures Distinct(KeysOf([])) == [] && forall key :: RowsFor([], key) == []
  {
  }

  lemma GroupStep(rows: seq<Row>, row: Row)
    ensures var keys, key := Distinct(KeysOf(rows)), KeyOfRow(row);
            && Distinct(KeysOf(rows + [row])) == (if key in keys then keys else keys + [key])
            && (key !in keys ==> RowsFor(rows, key) == [])
    ensures forall key :: RowsFor(rows + [row], key) ==
              if key == KeyOfRow(row) then RowsFor(rows, key) + [row] else RowsFor(rows, key)
  {
    Grows(rows, row);
    DistinctAppend(KeysOf(rows), KeyOfRow(row));
    DistinctIsExact(KeysOf(rows));
    GroupNotEmpty(rows, KeyOfRow(row));
  }

  lemma ListIsOrdered(t: Rewriting, rows: seq<Row>, limit: nat, scanLimit: Option<nat>)
    ensures var runs := RecentRuns(t, rows, limit, scanLimit);
            && |runs| <= (if limit == 0 then 1 else limit) && ByUpdate(runs)
            && (limit >= 1 && |rows| > 0 ==> |runs| > 0 && forall row :: row in rows ==> row.at <= runs[0].updatedAt)
  {
    hide Scanned, RecentRuns, Summaries;
    RecentRunsAreNewest(t, rows, limit, scanLimit);
    var runs := RecentRuns(t, rows, limit, scanLimit);
    var rest :| ByUpdate(runs + rest);
    assert forall i :: 0 <= i < |runs| ==> (runs + rest)[i] == runs[i];
    if limit >= 1 {
      NewestRunFirst(t, rows, limit, scanLimit);
    }
  }

  method ListRecentLeadRuns(t: Rewriting, rows: seq<Row>, limit: nat, scanLimit: Option<nat>)
    returns (runs: seq<RunSummary>)
    ensures runs == RecentRuns(t, rows, limit, scanLimit)
    ensures |runs| <= if limit == 0 then 1 else limit
    ensures forall i, j :: 0 <= i < j < |runs| ==> runs[i].updatedAt >= runs[j].updatedAt
    ensures limit >= 1 && |rows| > 0 ==> |runs| > 0 && forall row :: row in rows ==> row.at <= runs[0].updatedAt
  {
    ListIsOrdered(t, rows, limit, scanLimit);
    hide StableSort, RowsFor, SummaryOf, Distinct, Scanned;
    var scanned := Scanned(rows, limit, scanLimit);
    var order, grouped := GroupRows(scanned);
    var summaries := [];
    for i := 0 to |order|
      invariant summaries == Summaries(t, scanned)[..i]
    {
      DistinctIsExact(KeysOf(scanned));
      assert order[i] in order;
      SummaryKeepsKey(t, scanned, order[i]);
      summaries := summaries + [SummaryOf(t, grouped[order[i]])];
    }
    assert summaries == Summaries(t, scanned);
    var sorted := StableSort(summaries, Newer);
    runs := sorted[..Min(|sorted|, if limit < 1 then 1 else limit)];
  }
}
