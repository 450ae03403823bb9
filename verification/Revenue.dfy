/** Net revenue by campaign and by zip: when the groups of a report earn what their leads earned. */
module Revenue {
  import Attribution
  import Lists
  import opened Market
  import opened Saga
  import opened Links
  import opened Reports
  import opened Sums

  // ---------------------------------------------------------------- groups of leads

  /** The column a report groups leads by. */
  type Key = Lead -> Option<nat>

  /** f over the posts whose lead belongs to group g. */
  function InGroup(leads: seq<Lead>, key: Key, g: nat, f: Post -> int): Post -> int {
    (p: Post) => if p.lead < |leads| && key(leads[p.lead]) == Some(g) then f(p) else 0
  }

  /** Delivered bids, less the absolute value of the returned ones. */
  function GroupNet(db: Db, key: Key): nat -> int {
    (g: nat) => Sum(db.posts, InGroup(db.leads, key, g, DeliveredBid())) - Abs(GroupReturns(db, key, g))
  }

  function GroupReturns(db: Db, key: Key, g: nat): int {
    Sum(db.posts, InGroup(db.leads, key, g, ReturnedBid()))
  }

  function GroupKept(db: Db, key: Key, g: nat): int {
    Sum(db.posts, InGroup(db.leads, key, g, KeptBid()))
  }

  /** The net revenue of a group never exceeds the bids of its kept posts, and equals them exactly when its
      returned bids do not sum below zero. */
  lemma GroupNetIsKept(steps: seq<Step>, key: Key, g: nat)
    ensures var db := Exec(START, steps).db;
            var net, kept := GroupNet(db, key)(g), GroupKept(db, key, g);
            net <= kept && (net == kept <==> GroupReturns(db, key, g) >= 0)
  {
    var db := Exec(START, steps).db;
    AlwaysLinked(steps);
    var kept, gross, back := InGroup(db.leads, key, g, KeptBid()), InGroup(db.leads, key, g, DeliveredBid()),
      InGroup(db.leads, key, g, ReturnedBid());
    forall i | 0 <= i < |db.posts| ensures kept(db.posts[i]) == 1 * gross(db.posts[i]) + -1 * back(db.posts[i]) {
      assert PostLinked(db, db.posts[i]);
    }
    SumLinear(db.posts, kept, 1, gross, -1, back);
  }

  /** Kept bids of the posts whose lead belongs to one of the listed groups. */
  function KeptIn(leads: seq<Lead>, key: Key, groups: seq<nat>): Post -> int {
    (p: Post) =>
      if p.lead < |leads| && key(leads[p.lead]).Some? && key(leads[p.lead]).value in groups && p.delivered &&
        !p.returned
      then p.bid else 0
  }

  lemma KeptInGrows(leads: seq<Lead>, key: Key, groups: seq<nat>, g: nat)
    requires g !in groups
    ensures forall p :: KeptIn(leads, key, groups + [g])(p) == KeptIn(leads, key, groups)(p) +
              InGroup(leads, key, g, KeptBid())(p)
  {
  }

  predicate AllDifferent(groups: seq<nat>) {
    forall i, j :: 0 <= i < j < |groups| ==> groups[i] != groups[j]
  }

  /** Different groups never add up to more than the kept revenue of their leads, and to exactly that revenue,
      nothing counted twice, if and only if no group's returns sum below zero. */
  lemma {:induction false} GroupsAddUp(steps: seq<Step>, key: Key, groups: seq<nat>)
    requires AllDifferent(groups)
    ensures var db := Exec(START, steps).db;
            var total, kept := Sum(groups, GroupNet(db, key)), Sum(db.posts, KeptIn(db.leads, key, groups));
            total <= kept && (total == kept <==>
              forall i :: 0 <= i < |groups| ==> GroupReturns(db, key, groups[i]) >= 0)
  {
    var db := Exec(START, steps).db;
    if |groups| == 0 {
      SumZero(db.posts, KeptIn(db.leads, key, groups));
    } else {
      var n := |groups| - 1;
      hide Exec, GroupNet, GroupReturns;
      GroupsAddUp(steps, key, groups[..n]);
      GroupNetIsKept(steps, key, groups[n]);
      KeptInGrows(db.leads, key, groups[..n], groups[n]);
      assert groups == groups[..n] + [groups[n]];
      SumAppend(groups[..n], groups[n], GroupNet(db, key));
      SumLinear(db.posts, KeptIn(db.leads, key, groups), 1, KeptIn(db.leads, key, groups[..n]),
                1, InGroup(db.leads, key, groups[n], KeptBid()));
      assert forall i :: 0 <= i < n ==> groups[..n][i] == groups[i];
    }
  }

  /** Kept bids of the posts whose lead belongs to a group at all. */
  function KeptGrouped(leads: seq<Lead>, key: Key): Post -> int {
    (p: Post) => if p.lead < |leads| && key(leads[p.lead]).Some? && p.delivered && !p.returned then p.bid else 0
  }

  /** Every group that a lead belongs to is listed. */
  predicate ListsAll(leads: seq<Lead>, key: Key, groups: seq<nat>) {
    forall l :: 0 <= l < |leads| && key(leads[l]).Some? ==> key(leads[l]).value in groups
  }

  /** With every group of a lead listed once, that is all kept revenue with a group. */
  lemma AllGroupsAddUp(steps: seq<Step>, key: Key, groups: seq<nat>)
    requires AllDifferent(groups) && ListsAll(Exec(START, steps).db.leads, key, groups)
    ensures var db := Exec(START, steps).db;
            var total, kept := Sum(groups, GroupNet(db, key)), Sum(db.posts, KeptGrouped(db.leads, key));
            total <= kept && (total == kept <==>
              forall i :: 0 <= i < |groups| ==> GroupReturns(db, key, groups[i]) >= 0)
  {
    var db := Exec(START, steps).db;
    GroupsAddUp(steps, key, groups);
    AlwaysLinked(steps);
    hide Exec, GroupNet, GroupReturns;
    forall i | 0 <= i < |db.posts|
      ensures KeptIn(db.leads, key, groups)(db.posts[i]) == KeptGrouped(db.leads, key)(db.posts[i])
    {
      assert PostLinked(db, db.posts[i]);
      var lead := db.leads[db.posts[i].lead];
      assert key(lead).Some? ==> key(lead).value in groups;
    }
    SumSame(db.posts, KeptIn(db.leads, key, groups), KeptGrouped(db.leads, key));
  }

  // ---------------------------------------------------------------- campaigns

  datatype CampaignRoi = CampaignRoi(leads: int, sold: int, returned: int, revenue: int, returnedCents: int, net: int,
        average: Option<real>)

  function Campaign(): Key {
    (row: Lead) => row.campaign
  }

  function LeadsOfCampaign(c: nat): Lead -> int {
    (row: Lead) => if row.campaign == Some(c) then 1 else 0
  }

  /** The qualification scores of the campaign's leads. */
  function CampaignScores(leads: seq<Lead>, c: nat): seq<Option<real>> {
    if |leads| == 0 then []
    else
      var last := leads[|leads| - 1];
      CampaignScores(leads[..|leads| - 1], c) + if last.campaign == Some(c) then [last.qualification] else []
  }

  /** Each score is averaged as often as a lead of the campaign has it. */
  lemma {:induction false} ScoreIsCounted(leads: seq<Lead>, c: nat, score: Option<real>)
    ensures multiset(CampaignScores(leads, c))[score] ==
              Count(leads, (row: Lead) => row.campaign == Some(c) && row.qualification == score)
  {
    var there := (row: Lead) => row.campaign == Some(c) && row.qualification == score;
    if |leads| > 0 {
      var front, last := leads[..|leads| - 1], leads[|leads| - 1];
      ScoreIsCounted(front, c, score);
      CountAppend(front, last, there);
      assert front + [last] == leads;
      hide Count;
    }
  }

  /** The average is taken over as many rows as the report counts leads. */
  lemma {:induction false} ScoresAreLeads(leads: seq<Lead>, c: nat)
    ensures |CampaignScores(leads, c)| == Sum(leads, LeadsOfCampaign(c))
  {
    if |leads| > 0 {
      ScoresAreLeads(leads[..|leads| - 1], c);
      SumPrefix(leads, |leads| - 1, LeadsOfCampaign(c));
    }
  }

  function GetCampaignRoi(db: Db, c: nat): Option<CampaignRoi> {
    var leads := Sum(db.leads, LeadsOfCampaign(c));
    if leads == 0 then None
    else
      var revenue := Sum(db.posts, InGroup(db.leads, Campaign(), c, DeliveredBid()));
      var returnedCents := Abs(Sum(db.posts, InGroup(db.leads, Campaign(), c, ReturnedBid())));
      Some(CampaignRoi(
             leads,
             Sum(db.posts, InGroup(db.leads, Campaign(), c, (p: Post) => if p.delivered then 1 else 0)),
             Sum(db.posts, InGroup(db.leads, Campaign(), c, (p: Post) => if p.returned then 1 else 0)),
             revenue, returnedCents, revenue - returnedCents, Attribution.Average(CampaignScores(db.leads, c))))
  }

  /** What each column of a campaign's report counts or adds up; a campaign without leads has none. */
  lemma RoiIsExact(db: Db, c: nat)
    ensures var leads := Count(db.leads, (row: Lead) => row.campaign == Some(c));
            var roi := GetCampaignRoi(db, c);
            && (roi.None? <==> leads == 0)
            && (roi.Some? ==>
                 && roi.value.leads == leads
                 && roi.value.sold == Count(db.posts, (p: Post) =>
                      p.lead < |db.leads| && db.leads[p.lead].campaign == Some(c) && p.delivered)
                 && roi.value.returned == Count(db.posts, (p: Post) =>
                      p.lead < |db.leads| && db.leads[p.lead].campaign == Some(c) && p.returned)
                 && roi.value.revenue == Sum(db.posts, (p: Post) =>
                      if p.lead < |db.leads| && db.leads[p.lead].campaign == Some(c) && p.delivered then p.bid else 0)
                 && roi.value.returnedCents == Abs(Sum(db.posts, (p: Post) =>
                      if p.lead < |db.leads| && db.leads[p.lead].campaign == Some(c) && p.returned then p.bid else 0))
                 && roi.value.net == roi.value.revenue - roi.value.returnedCents
                 && Attribution.MeanOf(roi.value.average, CampaignScores(db.leads, c)))
  {
    var here := (p: Post) => p.lead < |db.leads| && db.leads[p.lead].campaign == Some(c);
    Attribution.AverageIsMean(CampaignScores(db.leads, c));
    SumIsCount(db.leads, LeadsOfCampaign(c), (row: Lead) => row.campaign == Some(c));
    SumIsCount(db.posts, InGroup(db.leads, Campaign(), c, (p: Post) => if p.delivered then 1 else 0),
      (p: Post) => p.lead < |db.leads| && db.leads[p.lead].campaign == Some(c) && p.delivered);
    SumIsCount(db.posts, InGroup(db.leads, Campaign(), c, (p: Post) => if p.returned then 1 else 0),
      (p: Post) => p.lead < |db.leads| && db.leads[p.lead].campaign == Some(c) && p.returned);
    SumSame(db.posts, InGroup(db.leads, Campaign(), c, DeliveredBid()), (p: Post) =>
      if p.lead < |db.leads| && db.leads[p.lead].campaign == Some(c) && p.delivered then p.bid else 0);
    SumSame(db.posts, InGroup(db.leads, Campaign(), c, ReturnedBid()), (p: Post) =>
      if p.lead < |db.leads| && db.leads[p.lead].campaign == Some(c) && p.returned then p.bid else 0);
  }

  function NetOf(roi: Option<CampaignRoi>): int {
    if roi.Some? then roi.value.net else 0
  }

  /** The net revenue a campaign's report shows. */
  function CampaignNet(db: Db): nat -> int {
    (c: nat) => NetOf(GetCampaignRoi(db, c))
  }

  lemma CampaignIsGroup(db: Db, c: nat)
    ensures CampaignNet(db)(c) == GroupNet(db, Campaign())(c)
  {
    if GetCampaignRoi(db, c).None? {
      var gross, back := InGroup(db.leads, Campaign(), c, DeliveredBid()),
        InGroup(db.leads, Campaign(), c, ReturnedBid());
      forall i | 0 <= i < |db.posts| ensures gross(db.posts[i]) == 0 && back(db.posts[i]) == 0 {
        if db.posts[i].lead < |db.leads| && db.leads[db.posts[i].lead].campaign == Some(c) {
          SumAtLeastTerms(db.leads, LeadsOfCampaign(c), db.posts[i].lead, db.posts[i].lead);
        }
      }
      SumZero(db.posts, gross);
      SumZero(db.posts, back);
    }
  }

  lemma CampaignTotal(db: Db, campaigns: seq<nat>)
    ensures Sum(campaigns, CampaignNet(db)) == Sum(campaigns, GroupNet(db, Campaign()))
  {
    hide CampaignNet, GroupNet;
    forall i | 0 <= i < |campaigns| ensures CampaignNet(db)(campaigns[i]) == GroupNet(db, Campaign())(campaigns[i]) {
      CampaignIsGroup(db, campaigns[i]);
    }
    SumSame(campaigns, CampaignNet(db), GroupNet(db, Campaign()));
  }

  /** A campaign's net revenue never exceeds the bids of its kept posts, and equals them exactly when its
      returned bids do not sum below zero. */
  lemma CampaignNetIsKept(steps: seq<Step>, c: nat)
    ensures var db := Exec(START, steps).db;
            var net, kept := NetOf(GetCampaignRoi(db, c)), GroupKept(db, Campaign(), c);
            net <= kept && (net == kept <==> GroupReturns(db, Campaign(), c) >= 0)
  {
    CampaignIsGroup(Exec(START, steps).db, c);
    GroupNetIsKept(steps, Campaign(), c);
  }

  /** The reports of different campaigns add up to the kept revenue of their leads if and only if no campaign's
      returns sum below zero, and to less otherwise. */
  lemma CampaignsAddUp(steps: seq<Step>, campaigns: seq<nat>)
    requires AllDifferent(campaigns)
    ensures var db := Exec(START, steps).db;
            var total, kept := Sum(campaigns, CampaignNet(db)), Sum(db.posts, KeptIn(db.leads, Campaign(), campaigns));
            && total <= kept
            && (total == kept <==>
                  forall i :: 0 <= i < |campaigns| ==> GroupReturns(db, Campaign(), campaigns[i]) >= 0)
  {
    CampaignTotal(Exec(START, steps).db, campaigns);
    GroupsAddUp(steps, Campaign(), campaigns);
  }

  /** With every campaign of a lead listed once, that is all kept revenue with a campaign. */
  lemma AllCampaignsAddUp(steps: seq<Step>, campaigns: seq<nat>)
    requires AllDifferent(campaigns) && ListsAll(Exec(START, steps).db.leads, Campaign(), campaigns)
    ensures var db := Exec(START, steps).db;
            var total, kept := Sum(campaigns, CampaignNet(db)), Sum(db.posts, KeptGrouped(db.leads, Campaign()));
            && total <= kept
            && (total == kept <==>
                  forall i :: 0 <= i < |campaigns| ==> GroupReturns(db, Campaign(), campaigns[i]) >= 0)
  {
    CampaignTotal(Exec(START, steps).db, campaigns);
    AllGroupsAddUp(steps, Campaign(), campaigns);
  }

  // ---------------------------------------------------------------- zips

  /** The zip of a lead of the given state. */
  function ZipIn(state: nat): Key {
    (row: Lead) => if row.state == state then Some(row.zip) else None
  }

  /** The net revenue the by-zip report shows for a zip. */
  function ZipNet(db: Db, state: nat): nat -> int {
    (z: nat) =>
      var group := Attribution.PlainGroup(db.leads, db.posts, state, z);
      group.revenue - group.returnedCents
  }

  lemma ZipIsGroup(db: Db, state: nat, z: nat)
    ensures ZipNet(db, state)(z) == GroupNet(db, ZipIn(state))(z)
  {
    SumSame(db.posts, InGroup(db.leads, ZipIn(state), z, DeliveredBid()),
      Attribution.InZip(db.leads, state, z, Attribution.Revenue));
    SumSame(db.posts, InGroup(db.leads, ZipIn(state), z, ReturnedBid()),
      Attribution.InZip(db.leads, state, z, Attribution.ReturnedCents));
  }

  /** The net revenue of a zip never exceeds the bids of its kept posts, and equals them exactly when its
      returned bids do not sum below zero. */
  lemma ZipNetIsKept(steps: seq<Step>, state: nat, z: nat)
    ensures var db := Exec(START, steps).db;
            var net, kept := ZipNet(db, state)(z), GroupKept(db, ZipIn(state), z);
            net <= kept && (net == kept <==> GroupReturns(db, ZipIn(state), z) >= 0)
  {
    ZipIsGroup(Exec(START, steps).db, state, z);
    GroupNetIsKept(steps, ZipIn(state), z);
  }

  /** The zips the report has before it keeps the first fifty. */
  function ReportedZips(leads: seq<Lead>, state: nat): seq<nat> {
    Lists.Distinct<nat>(Attribution.LeadZips(leads, state))
  }

  /** The zips of a state together earn its kept revenue if and only if no zip's returns sum below zero, and less
      otherwise. */
  lemma ZipsAddUp(steps: seq<Step>, state: nat)
    ensures var db := Exec(START, steps).db;
            var zips := ReportedZips(db.leads, state);
            var total, kept := Sum(zips, ZipNet(db, state)), Sum(db.posts, KeptGrouped(db.leads, ZipIn(state)));
            && total <= kept
            && (total == kept <==> forall i :: 0 <= i < |zips| ==> GroupReturns(db, ZipIn(state), zips[i]) >= 0)
  {
    var db := Exec(START, steps).db;
    var zips := ReportedZips(db.leads, state);
    Lists.DistinctIsExact<nat>(Attribution.LeadZips(db.leads, state));
    Attribution.ZipsHaveLeads(db.leads, state);
    hide Exec, ZipNet, GroupNet, GroupReturns;
    AllGroupsAddUp(steps, ZipIn(state), zips);
    forall i | 0 <= i < |zips| ensures ZipNet(db, state)(zips[i]) == GroupNet(db, ZipIn(state))(zips[i]) {
      ZipIsGroup(db, state, zips[i]);
    }
    SumSame(zips, ZipNet(db, state), GroupNet(db, ZipIn(state)));
  }
}
