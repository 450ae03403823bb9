/** The by-zip return report: a two-stage aggregate, stage by stage, and the plain sums it has to equal. */
module Attribution {
  import opened Lists
  import opened Market
  import opened Sorting
  import opened Sums

  /** The four aggregated columns of a post. */
  datatype Measure = SoldCount | ReturnedCount | Revenue | ReturnedCents

  function Value(m: Measure, p: Post): int {
    match m
    case SoldCount => if p.delivered then 1 else 0
    case ReturnedCount => if p.returned then 1 else 0
    case Revenue => if p.delivered then p.bid else 0
    case ReturnedCents => if p.returned then p.bid else 0
  }

  // ---------------------------------------------------------------- the query, stage by stage

  datatype LeadBase = LeadBase(id: nat, zip: nat, score: Option<real>)

  /** The leads of one state. */
  function LeadBaseOf(leads: seq<Lead>, state: nat): seq<LeadBase> {
    if |leads| == 0 then []
    else
      var n := |leads| - 1;
      LeadBaseOf(leads[..n], state) +
      if leads[n].state == state then [LeadBase(n, leads[n].zip, leads[n].qualification)] else []
  }

  /** The rows of base with the given id. */
  function Matching(base: seq<LeadBase>, id: nat): seq<LeadBase> {
    if |base| == 0 then []
    else Matching(base[..|base| - 1], id) + if base[|base| - 1].id == id then [base[|base| - 1]] else []
  }

  /** Posts joined with the leads of the state: one row per matching pair. */
  function Joined(posts: seq<Post>, base: seq<LeadBase>): seq<Post> {
    if |posts| == 0 then []
    else
      var n := |posts| - 1;
      Joined(posts[..n], base) + seq(|Matching(base, posts[n].lead)|, i => posts[n])
  }

  datatype PostBase = PostBase(lead: nat, sold: int, returned: int, revenue: int, returnedCents: int)

  function Column(m: Measure, row: PostBase): int {
    match m
    case SoldCount => row.sold
    case ReturnedCount => row.returned
    case Revenue => row.revenue
    case ReturnedCents => row.returnedCents
  }

  /** m over the rows of lead id. */
  function OfLead(m: Measure, id: nat): Post -> int {
    (p: Post) => if p.lead == id then Value(m, p) else 0
  }

  function PostBaseRow(joined: seq<Post>, id: nat): PostBase {
    PostBase(id, Sum(joined, OfLead(SoldCount, id)), Sum(joined, OfLead(ReturnedCount, id)),
             Sum(joined, OfLead(Revenue, id)), Sum(joined, OfLead(ReturnedCents, id)))
  }

  /** The first aggregate: one row per lead that has posts. */
  function PostBaseOf(joined: seq<Post>): seq<PostBase> {
    var keys := Distinct<nat>(seq(|joined|, i requires 0 <= i < |joined| => joined[i].lead));
    seq(|keys|, i requires 0 <= i < |keys| => PostBaseRow(joined, keys[i]))
  }

  datatype Row = Row(lead: LeadBase, posts: Option<PostBase>)

  /** The rows of pbs for lead id. */
  function Aggregated(pbs: seq<PostBase>, id: nat): seq<PostBase> {
    if |pbs| == 0 then []
    else Aggregated(pbs[..|pbs| - 1], id) + if pbs[|pbs| - 1].lead == id then [pbs[|pbs| - 1]] else []
  }

  /** The left join: every lead, with each of its aggregate rows, or once with none. */
  function LeftJoined(base: seq<LeadBase>, pbs: seq<PostBase>): seq<Row> {
    if |base| == 0 then []
    else
      var n := |base| - 1;
      var matches := Aggregated(pbs, base[n].id);
      LeftJoined(base[..n], pbs) +
      if |matches| == 0 then [Row(base[n], None)]
      else seq(|matches|, i requires 0 <= i < |matches| => Row(base[n], Some(matches[i])))
  }

  /** The qualification scores of the rows of zip z, in row order; their number is COUNT(lb.id). */
  function Scores(rows: seq<Row>, z: nat): seq<Option<real>> {
    if |rows| == 0 then []
    else
      Scores(rows[..|rows| - 1], z) + if rows[|rows| - 1].lead.zip == z then [rows[|rows| - 1].lead.score] else []
  }

  function TotalScore(scores: seq<Option<real>>): (real, nat) {
    if |scores| == 0 then (0.0, 0)
    else
      var (total, n) := TotalScore(scores[..|scores| - 1]);
      var last := scores[|scores| - 1];
      if last.Some? then (total + last.value, n + 1) else (total, n)
  }

  /** SQL's AVG: nulls are skipped, and of nothing there is no average. */
  function Average(scores: seq<Option<real>>): Option<real> {
    var (total, n) := TotalScore(scores);
    if n == 0 then None else Some(total / n as real)
  }

  function Coalesced(m: Measure, row: Row): int {
    if row.posts.Some? then Column(m, row.posts.value) else 0
  }

  function OfZip(m: Measure, z: nat): Row -> int {
    (row: Row) => if row.lead.zip == z then Coalesced(m, row) else 0
  }

  datatype ZipRoi = ZipRoi(zip: nat, leads: nat, sold: int, returned: int, revenue: int, returnedCents: int,
        average: Option<real>)

  /** The second aggregate, for one zip. */
  function ZipGroup(rows: seq<Row>, z: nat): ZipRoi {
    ZipRoi(z, |Scores(rows, z)|, Sum(rows, OfZip(SoldCount, z)), Sum(rows, OfZip(ReturnedCount, z)),
           Sum(rows, OfZip(Revenue, z)), Abs(Sum(rows, OfZip(ReturnedCents, z))), Average(Scores(rows, z)))
  }

  function RowsOf(leads: seq<Lead>, posts: seq<Post>, state: nat): seq<Row> {
    var base := LeadBaseOf(leads, state);
    LeftJoined(base, PostBaseOf(Joined(posts, base)))
  }

  /** ORDER BY revenue DESC, leads DESC. */
  predicate Richer(a: ZipRoi, b: ZipRoi) {
    a.revenue > b.revenue || (a.revenue == b.revenue && a.leads >= b.leads)
  }

  function Limited(groups: seq<ZipRoi>): seq<ZipRoi> {
    var sorted := StableSort(groups, Richer);
    if |sorted| <= 50 then sorted else sorted[..50]
  }

  function ZipsOf(rows: seq<Row>): seq<nat> {
    seq(|rows|, i requires 0 <= i < |rows| => rows[i].lead.zip)
  }

  /** The whole query. */
  function RoiByZip(leads: seq<Lead>, posts: seq<Post>, state: nat): seq<ZipRoi> {
    var rows := RowsOf(leads, posts, state);
    var zips := Distinct<nat>(ZipsOf(rows));
    Limited(seq(|zips|, i requires 0 <= i < |zips| => ZipGroup(rows, zips[i])))
  }

  // ---------------------------------------------------------------- the plain meaning

  /** The zips of the state's leads, in lead order, once per lead. */
  function LeadZips(leads: seq<Lead>, state: nat): seq<nat> {
    if |leads| == 0 then []
    else
      LeadZips(leads[..|leads| - 1], state) + if leads[|leads| - 1].state == state then [leads[|leads| - 1].zip] else []
  }

  function LeadScores(leads: seq<Lead>, state: nat, z: nat): seq<Option<real>> {
    if |leads| == 0 then []
    else
      var last := leads[|leads| - 1];
      LeadScores(leads[..|leads| - 1], state, z) +
      if last.state == state && last.zip == z then [last.qualification] else []
  }

  /** m over the posts whose lead is in the state and zip. */
  function InZip(leads: seq<Lead>, state: nat, z: nat, m: Measure): Post -> int {
    (p: Post) => if p.lead < |leads| && leads[p.lead].state == state && leads[p.lead].zip == z then Value(m, p) else 0
  }

  /** One zip, straight from the two tables. */
  function PlainGroup(leads: seq<Lead>, posts: seq<Post>, state: nat, z: nat): ZipRoi {
    ZipRoi(z, |LeadScores(leads, state, z)|, Sum(posts, InZip(leads, state, z, SoldCount)),
           Sum(posts, InZip(leads, state, z, ReturnedCount)), Sum(posts, InZip(leads, state, z, Revenue)),
           Abs(Sum(posts, InZip(leads, state, z, ReturnedCents))), Average(LeadScores(leads, state, z)))
  }

  /** The groups of all zips of the state's leads. */
  function AllGroups(leads: seq<Lead>, posts: seq<Post>, state: nat): seq<ZipRoi> {
    var zips := Distinct<nat>(LeadZips(leads, state));
    seq(|zips|, i requires 0 <= i < |zips| => PlainGroup(leads, posts, state, zips[i]))
  }

  function PlainRoiByZip(leads: seq<Lead>, posts: seq<Post>, state: nat): seq<ZipRoi> {
    Limited(AllGroups(leads, posts, state))
  }

  /** What each column of a zip counts or adds up. */
  lemma PlainGroupIsExact(leads: seq<Lead>, posts: seq<Post>, state: nat, z: nat)
    ensures var group := PlainGroup(leads, posts, state, z);
            && group.zip == z
            && group.leads == Count(leads, (row: Lead) => row.state == state && row.zip == z)
            && group.sold == Count(posts, (p: Post) =>
                 p.lead < |leads| && leads[p.lead].state == state && leads[p.lead].zip == z && p.delivered)
            && group.returned == Count(posts, (p: Post) =>
                 p.lead < |leads| && leads[p.lead].state == state && leads[p.lead].zip == z && p.returned)
            && group.revenue == Sum(posts, (p: Post) =>
                 if p.lead < |leads| && leads[p.lead].state == state && leads[p.lead].zip == z && p.delivered
                 then p.bid else 0)
            && group.returnedCents == Abs(Sum(posts, (p: Post) =>
                 if p.lead < |leads| && leads[p.lead].state == state && leads[p.lead].zip == z && p.returned
                 then p.bid else 0))
            && MeanOf(group.average, LeadScores(leads, state, z))
  {
    ScoresAreCounted(leads, state, z);
    AverageIsMean(LeadScores(leads, state, z));
    SumIsCount(posts, InZip(leads, state, z, SoldCount), (p: Post) =>
      p.lead < |leads| && leads[p.lead].state == state && leads[p.lead].zip == z && p.delivered);
    SumIsCount(posts, InZip(leads, state, z, ReturnedCount), (p: Post) =>
      p.lead < |leads| && leads[p.lead].state == state && leads[p.lead].zip == z && p.returned);
    SumSame(posts, InZip(leads, state, z, Revenue), (p: Post) =>
      if p.lead < |leads| && leads[p.lead].state == state && leads[p.lead].zip == z && p.delivered then p.bid else 0);
    SumSame(posts, InZip(leads, state, z, ReturnedCents), (p: Post) =>
      if p.lead < |leads| && leads[p.lead].state == state && leads[p.lead].zip == z && p.returned then p.bid else 0);
  }

  lemma {:induction false} ScoresAreCounted(leads: seq<Lead>, state: nat, z: nat)
    ensures |LeadScores(leads, state, z)| == Count(leads, (row: Lead) => row.state == state && row.zip == z)
  {
    var there := (row: Lead) => row.state == state && row.zip == z;
    if |leads| > 0 {
      var front, last := leads[..|leads| - 1], leads[|leads| - 1];
      ScoresAreCounted(front, state, z);
      CountAppend(front, last, there);
      assert front + [last] == leads;
    }
  }

  /** Each score is averaged as often as a lead of the zip has it. */
  lemma {:induction false} ScoreIsCounted(leads: seq<Lead>, state: nat, z: nat, score: Option<real>)
    ensures multiset(LeadScores(leads, state, z))[score] ==
              Count(leads, (row: Lead) => row.state == state && row.zip == z && row.qualification == score)
  {
    var there := (row: Lead) => row.state == state && row.zip == z && row.qualification == score;
    if |leads| > 0 {
      var front, last := leads[..|leads| - 1], leads[|leads| - 1];
      ScoreIsCounted(front, state, z, score);
      CountAppend(front, last, there);
      assert front + [last] == leads;
      hide Count;
    }
  }

  /** What the known scores lie above and below a value, added up. */
  function Deviation(scores: seq<Option<real>>, mean: real): real {
    if |scores| == 0 then 0.0
    else (if scores[0].Some? then scores[0].value - mean else 0.0) + Deviation(scores[1..], mean)
  }

  /** The deviations from the mean of the known scores cancel out; without a known score there is none. */
  predicate MeanOf(mean: Option<real>, scores: seq<Option<real>>) {
    && (mean.Some? <==> exists i :: 0 <= i < |scores| && scores[i].Some?)
    && (mean.Some? ==> Deviation(scores, mean.value) == 0.0)
  }

  lemma {:induction false} DeviationAppend(scores: seq<Option<real>>, score: Option<real>, mean: real)
    ensures Deviation(scores + [score], mean) ==
              Deviation(scores, mean) + if score.Some? then score.value - mean else 0.0
  {
    if |scores| > 0 {
      DeviationAppend(scores[1..], score, mean);
      assert (scores + [score])[1..] == scores[1..] + [score];
    }
  }

  lemma {:induction false} DeviationIsTotal(scores: seq<Option<real>>, mean: real)
    ensures var (total, n) := TotalScore(scores);
            && Deviation(scores, mean) == total - n as real * mean
            && (n > 0 <==> exists i :: 0 <= i < |scores| && scores[i].Some?)
  {
    if |scores| > 0 {
      var k := |scores| - 1;
      DeviationIsTotal(scores[..k], mean);
      DeviationAppend(scores[..k], scores[k], mean);
      assert scores[..k] + [scores[k]] == scores;
      var n := TotalScore(scores[..k]).1;
      assert (n as real + 1.0) * mean == n as real * mean + mean;
    }
  }

  lemma AverageIsMean(scores: seq<Option<real>>)
    ensures MeanOf(Average(scores), scores)
  {
    var mean := Average(scores);
    DeviationIsTotal(scores, if mean.Some? then mean.value else 0.0);
  }

  // ---------------------------------------------------------------- the first join keeps each post once

  lemma {:induction false} MatchesAtMostOne(leads: seq<Lead>, state: nat, id: nat)
    ensures |Matching(LeadBaseOf(leads, state), id)| == One(id < |leads| && leads[id].state == state)
  {
    if |leads| > 0 {
      var n := |leads| - 1;
      MatchesAtMostOne(leads[..n], state, id);
      var front := LeadBaseOf(leads[..n], state);
      if leads[n].state == state {
        assert (front + [LeadBase(n, leads[n].zip, leads[n].qualification)])[..|front|] == front;
      } else {
        assert front + [] == front;
      }
    }
  }

  predicate InState(leads: seq<Lead>, state: nat, id: nat) {
    id < |leads| && leads[id].state == state
  }

  function WhenInState(leads: seq<Lead>, state: nat, f: Post -> int): Post -> int {
    (p: Post) => if p.lead < |leads| && leads[p.lead].state == state then f(p) else 0
  }

  lemma {:induction false} JoinedSum(leads: seq<Lead>, posts: seq<Post>, state: nat, f: Post -> int)
    ensures Sum(Joined(posts, LeadBaseOf(leads, state)), f) == Sum(posts, WhenInState(leads, state, f))
  {
    if |posts| > 0 {
      var n := |posts| - 1;
      var front := Joined(posts[..n], LeadBaseOf(leads, state));
      JoinedSum(leads, posts[..n], state, f);
      SumPrefix(posts, n, WhenInState(leads, state, f));
      MatchesAtMostOne(leads, state, posts[n].lead);
      if InState(leads, state, posts[n].lead) {
        assert Joined(posts, LeadBaseOf(leads, state)) == front + [posts[n]];
        SumAppend(front, posts[n], f);
      } else {
        assert Joined(posts, LeadBaseOf(leads, state)) == front;
      }
    }
  }

  /** For a lead of the state the join neither loses nor repeats a post. */
  lemma JoinKeepsPosts(leads: seq<Lead>, posts: seq<Post>, state: nat, id: nat, m: Measure)
    requires InState(leads, state, id)
    ensures Sum(Joined(posts, LeadBaseOf(leads, state)), OfLead(m, id)) == Sum(posts, OfLead(m, id))
  {
    JoinedSum(leads, posts, state, OfLead(m, id));
    SumSame(posts, WhenInState(leads, state, OfLead(m, id)), OfLead(m, id));
  }

  // ---------------------------------------------------------------- the first aggregate has one row per lead

  lemma {:induction false} AggregatedOnce(pbs: seq<PostBase>, id: nat)
    requires forall i, j :: 0 <= i < j < |pbs| ==> pbs[i].lead != pbs[j].lead
    ensures |Aggregated(pbs, id)| <= 1
    ensures |Aggregated(pbs, id)| == 0 ==> forall i :: 0 <= i < |pbs| ==> pbs[i].lead != id
    ensures |Aggregated(pbs, id)| == 1 ==> Aggregated(pbs, id)[0] in pbs && Aggregated(pbs, id)[0].lead == id
  {
    if |pbs| > 0 {
      AggregatedOnce(pbs[..|pbs| - 1], id);
    }
  }

  /** Looking a lead up in the first aggregate, zero when absent, gives the sums over its joined posts. */
  lemma LookupIsSum(joined: seq<Post>, id: nat, m: Measure)
    ensures var found := Aggregated(PostBaseOf(joined), id);
            && |found| <= 1
            && Sum(joined, OfLead(m, id)) == if |found| == 0 then 0 else Column(m, found[0])
  {
    var ids: seq<nat> := seq(|joined|, i requires 0 <= i < |joined| => joined[i].lead);
    DistinctIsExact<nat>(ids);
    AggregatedOnce(PostBaseOf(joined), id);
    if |Aggregated(PostBaseOf(joined), id)| == 0 {
      forall i | 0 <= i < |joined| ensures joined[i].lead != id {
        assert ids[i] in Distinct<nat>(ids);
        var k :| 0 <= k < |Distinct<nat>(ids)| && Distinct<nat>(ids)[k] == joined[i].lead;
        assert PostBaseOf(joined)[k].lead == joined[i].lead;
      }
      SumZero(joined, OfLead(m, id));
    }
  }

  // ---------------------------------------------------------------- the left join keeps each lead once

  /** The aggregates of the posts of the state's leads. */
  function Aggregates(leads: seq<Lead>, posts: seq<Post>, state: nat): seq<PostBase> {
    PostBaseOf(Joined(posts, LeadBaseOf(leads, state)))
  }

  /** The left-joined rows of the first n leads. */
  function RowsOfFirst(leads: seq<Lead>, posts: seq<Post>, state: nat, n: nat): seq<Row>
    requires n <= |leads|
  {
    LeftJoined(LeadBaseOf(leads[..n], state), Aggregates(leads, posts, state))
  }

  /** One more lead of the state adds exactly one row, whose columns are the sums over that lead's posts. */
  lemma OneRowPerLead(leads: seq<Lead>, posts: seq<Post>, state: nat, n: nat) returns (row: Row)
    requires n < |leads|
    ensures RowsOfFirst(leads, posts, state, n + 1) ==
              RowsOfFirst(leads, posts, state, n) + if leads[n].state == state then [row] else []
    ensures leads[n].state == state ==>
              && row.lead == LeadBase(n, leads[n].zip, leads[n].qualification)
              && forall m :: Coalesced(m, row) == Sum(posts, OfLead(m, n))
  {
    var front := LeadBaseOf(leads[..n], state);
    assert leads[..n + 1][..n] == leads[..n];
    var joined := Joined(posts, LeadBaseOf(leads, state));
    var found := Aggregated(Aggregates(leads, posts, state), n);
    var lead := LeadBase(n, leads[n].zip, leads[n].qualification);
    LookupIsSum(joined, n, Revenue);
    row := Row(lead, if |found| == 0 then None else Some(found[0]));
    if leads[n].state == state {
      assert (front + [lead])[..|front|] == front;
      assert |found| == 1 ==> seq(|found|, i requires 0 <= i < |found| => Row(lead, Some(found[i]))) == [row];
      forall m ensures Coalesced(m, row) == Sum(posts, OfLead(m, n)) {
        LookupIsSum(joined, n, m);
        JoinKeepsPosts(leads, posts, state, n, m);
      }
    } else {
      assert front + [] == front;
    }
  }

  /** m over the posts of the first n leads that are in the state and zip. */
  function InZipOfFirst(leads: seq<Lead>, state: nat, z: nat, m: Measure, n: nat): Post -> int {
    (p: Post) =>
      if p.lead < n && p.lead < |leads| && leads[p.lead].state == state && leads[p.lead].zip == z
      then Value(m, p) else 0
  }

  lemma PlainSumGrows(leads: seq<Lead>, posts: seq<Post>, state: nat, z: nat, m: Measure, k: nat)
    requires k < |leads|
    ensures Sum(posts, InZipOfFirst(leads, state, z, m, k + 1)) ==
              Sum(posts, InZipOfFirst(leads, state, z, m, k)) +
              if leads[k].state == state && leads[k].zip == z then Sum(posts, OfLead(m, k)) else 0
  {
    if leads[k].state == state && leads[k].zip == z {
      SumLinear(posts, InZipOfFirst(leads, state, z, m, k + 1), 1, InZipOfFirst(leads, state, z, m, k), 1,
        OfLead(m, k));
    } else {
      SumSame(posts, InZipOfFirst(leads, state, z, m, k + 1), InZipOfFirst(leads, state, z, m, k));
    }
  }

  lemma {:induction false} ZipSum(leads: seq<Lead>, posts: seq<Post>, state: nat, z: nat, m: Measure, n: nat)
    requires n <= |leads|
    ensures Sum(RowsOfFirst(leads, posts, state, n), OfZip(m, z)) == Sum(posts, InZipOfFirst(leads, state, z, m, n))
  {
    if n == 0 {
      SumZero(posts, InZipOfFirst(leads, state, z, m, 0));
    } else {
      var k := n - 1;
      ZipSum(leads, posts, state, z, m, k);
      PlainSumGrows(leads, posts, state, z, m, k);
      var row := OneRowPerLead(leads, posts, state, k);
      SumGrows(RowsOfFirst(leads, posts, state, k), RowsOfFirst(leads, posts, state, n), OfZip(m, z));
      if leads[k].state == state {
        assert Coalesced(m, row) == Sum(posts, OfLead(m, k));
      }
    }
  }

  lemma ScoresAppend(rows: seq<Row>, row: Row, z: nat)
    ensures Scores(rows + [row], z) == Scores(rows, z) + if row.lead.zip == z then [row.lead.score] else []
  {
    assert (rows + [row])[..|rows|] == rows;
  }

  lemma LeadScoresAppend(leads: seq<Lead>, lead: Lead, state: nat, z: nat)
    ensures LeadScores(leads + [lead], state, z) ==
              LeadScores(leads, state, z) + if lead.state == state && lead.zip == z then [lead.qualification] else []
  {
    assert (leads + [lead])[..|leads|] == leads;
  }

  lemma {:induction false} ScoresKept(leads: seq<Lead>, posts: seq<Post>, state: nat, z: nat, n: nat)
    requires n <= |leads|
    ensures Scores(RowsOfFirst(leads, posts, state, n), z) == LeadScores(leads[..n], state, z)
  {
    if n > 0 {
      hide RowsOfFirst, Scores, LeadScores, Coalesced;
      ScoresKept(leads, posts, state, z, n - 1);
      var row := OneRowPerLead(leads, posts, state, n - 1);
      var front := RowsOfFirst(leads, posts, state, n - 1);
      assert leads[..n] == leads[..n - 1] + [leads[n - 1]];
      LeadScoresAppend(leads[..n - 1], leads[n - 1], state, z);
      ScoresAppend(front, row, z);
      assert front + [] == front;
    }
  }

  lemma {:induction false} ZipsKept(leads: seq<Lead>, posts: seq<Post>, state: nat, n: nat)
    requires n <= |leads|
    ensures ZipsOf(RowsOfFirst(leads, posts, state, n)) == LeadZips(leads[..n], state)
  {
    if n > 0 {
      ZipsKept(leads, posts, state, n - 1);
      var row := OneRowPerLead(leads, posts, state, n - 1);
      assert leads[..n][..n - 1] == leads[..n - 1];
    }
  }

  lemma GroupIsPlain(leads: seq<Lead>, posts: seq<Post>, state: nat, z: nat)
    ensures ZipGroup(RowsOf(leads, posts, state), z) == PlainGroup(leads, posts, state, z)
  {
    var n := |leads|;
    assert leads[..n] == leads;
    assert RowsOf(leads, posts, state) == RowsOfFirst(leads, posts, state, n);
    ScoresKept(leads, posts, state, z, n);
    forall m: Measure ensures Sum(RowsOf(leads, posts, state), OfZip(m, z)) == Sum(posts, InZip(leads, state, z, m)) {
      ZipSum(leads, posts, state, z, m, n);
      SumSame(posts, InZipOfFirst(leads, state, z, m, n), InZip(leads, state, z, m));
    }
  }

  /** The two-stage query returns exactly the plain per-zip sums, ranked and cut the same way: pre-aggregating
      the posts per lead and then left-joining counts each lead once and each post once. */
  lemma QueryIsPlain(leads: seq<Lead>, posts: seq<Post>, state: nat)
    ensures RoiByZip(leads, posts, state) == PlainRoiByZip(leads, posts, state)
  {
    var rows := RowsOf(leads, posts, state);
    assert leads[..|leads|] == leads;
    ZipsKept(leads, posts, state, |leads|);
    var zips := Distinct<nat>(LeadZips(leads, state));
    assert zips == Distinct<nat>(ZipsOf(rows));
    forall i | 0 <= i < |zips| ensures ZipGroup(rows, zips[i]) == PlainGroup(leads, posts, state, zips[i]) {
      GroupIsPlain(leads, posts, state, zips[i]);
    }
    assert seq(|zips|, i requires 0 <= i < |zips| => ZipGroup(rows, zips[i]))
        == seq(|zips|, i requires 0 <= i < |zips| => PlainGroup(leads, posts, state, zips[i]));
  }

  lemma {:induction false} ZipsHaveLeads(leads: seq<Lead>, state: nat)
    ensures forall z :: z in LeadZips(leads, state) <==>
              exists i :: 0 <= i < |leads| && leads[i].state == state && leads[i].zip == z
  {
    if |leads| > 0 {
      var n := |leads| - 1;
      ZipsHaveLeads(leads[..n], state);
      forall z
        ensures z in LeadZips(leads, state) <==>
                  exists i :: 0 <= i < |leads| && leads[i].state == state && leads[i].zip == z
      {
        if z in LeadZips(leads[..n], state) {
          var i :| 0 <= i < n && leads[..n][i].state == state && leads[..n][i].zip == z;
          assert leads[i].state == state && leads[i].zip == z;
        }
        if i :| 0 <= i < |leads| && leads[i].state == state && leads[i].zip == z {
          assert i < n ==> leads[..n][i] == leads[i];
        }
      }
    }
  }

  lemma RicherIsTotalPreorder()
    ensures TotalPreorder(Richer)
  {
  }

  /** a earned more, or as much from at least as many leads. */
  predicate EarnsAtLeast(a: ZipRoi, b: ZipRoi) {
    a.revenue > b.revenue || (a.revenue == b.revenue && a.leads >= b.leads)
  }

  /** kept and rest are all groups, kept is in order, and none of rest earns more than one of kept. */
  ghost predicate KeepsRichest(groups: seq<ZipRoi>, kept: seq<ZipRoi>, rest: seq<ZipRoi>) {
    && multiset(kept) + multiset(rest) == multiset(groups)
    && (forall i, j :: 0 <= i < j < |kept| ==> EarnsAtLeast(kept[i], kept[j]))
    && (forall i, j :: 0 <= i < |kept| && 0 <= j < |rest| ==> EarnsAtLeast(kept[i], rest[j]))
  }

  lemma CutKeepsRichest(groups: seq<ZipRoi>, sorted: seq<ZipRoi>, n: nat)
    requires n <= |sorted| && multiset(sorted) == multiset(groups) && SortedBy(sorted, Richer)
    ensures KeepsRichest(groups, sorted[..n], sorted[n..])
  {
    assert sorted == sorted[..n] + sorted[n..];
    assert forall i, j :: 0 <= i < j < |sorted| ==> EarnsAtLeast(sorted[i], sorted[j]);
  }

  /** Fifty zips are kept, or all if there are no more, and they are the richest. */
  lemma RichestZipsAreKept(leads: seq<Lead>, posts: seq<Post>, state: nat) returns (rest: seq<ZipRoi>)
    ensures KeepsRichest(AllGroups(leads, posts, state), PlainRoiByZip(leads, posts, state), rest)
    ensures var zips := |AllGroups(leads, posts, state)|;
            |PlainRoiByZip(leads, posts, state)| == if zips > 50 then 50 else zips
  {
    var groups := AllGroups(leads, posts, state);
    RicherIsTotalPreorder();
    SortKeeps(groups, Richer);
    SortSorts(groups, Richer);
    hide StableSort, KeepsRichest, SortedBy;
    var sorted, n := StableSort(groups, Richer), |PlainRoiByZip(leads, posts, state)|;
    assert PlainRoiByZip(leads, posts, state) == sorted[..n];
    rest := sorted[n..];
    CutKeepsRichest(groups, sorted, n);
  }

  datatype ZipOutput = ZipOutput(row: ZipRoi, net: int)

  /** The report endpoint's loop: at most fifty zips, richest first, each with its net revenue. */
  method GetRoiByZip(leads: seq<Lead>, posts: seq<Post>, state: nat) returns (output: seq<ZipOutput>)
    ensures |output| == |PlainRoiByZip(leads, posts, state)| <= 50
    ensures forall i :: 0 <= i < |output| ==>
              && output[i].row == PlainRoiByZip(leads, posts, state)[i]
              && output[i].net == output[i].row.revenue - output[i].row.returnedCents
    ensures forall i, j :: 0 <= i < j < |output| ==> EarnsAtLeast(output[i].row, output[j].row)
  {
    var rows := RoiByZip(leads, posts, state);
    QueryIsPlain(leads, posts, state);
    ghost var rest := RichestZipsAreKept(leads, posts, state);
    hide PlainRoiByZip;
    output := [];
    for k := 0 to |rows|
      invariant |output| == k
      invariant forall i :: 0 <= i < k ==> output[i] == ZipOutput(rows[i], rows[i].revenue - rows[i].returnedCents)
    {
      output := output + [ZipOutput(rows[k], rows[k].revenue - rows[k].returnedCents)];
    }
  }
}
