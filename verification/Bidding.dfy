/** Winner selection among the replies to a ping fan-out. */
module Bidding {
  import opened Market
  import opened Sorting

  /** A buyer's reply; bid is absent when the buyer declined or sent no bid. */
  datatype PingResponse = PingResponse(buyer: nat, accepted: bool, bid: Option<int>, ms: nat)

  function BidOf(r: PingResponse): int {
    if r.bid.Some? then r.bid.value else 0
  }

  /** The sort key order: higher bids first, then faster replies. */
  predicate Ahead(a: PingResponse, b: PingResponse) {
    BidOf(a) > BidOf(b) || (BidOf(a) == BidOf(b) && a.ms <= b.ms)
  }

  predicate FromPinged(rs: seq<PingResponse>, buyers: map<nat, Buyer>) {
    forall i :: 0 <= i < |rs| ==> rs[i].buyer in buyers
  }

  /** An accepted, non-zero bid that the buyer's balance, as loaded before the pings, covers. */
  predicate Acceptable(r: PingResponse, buyers: map<nat, Buyer>)
    requires r.buyer in buyers
  {
    r.accepted && BidOf(r) != 0 && buyers[r.buyer].balance >= BidOf(r)
  }

  function Accepting(rs: seq<PingResponse>, buyers: map<nat, Buyer>): seq<PingResponse>
    requires FromPinged(rs, buyers)
  {
    if |rs| == 0 then []
    else
      var front := Accepting(rs[..|rs| - 1], buyers);
      if Acceptable(rs[|rs| - 1], buyers) then front + [rs[|rs| - 1]] else front
  }

  function PickWinner(rs: seq<PingResponse>, buyers: map<nat, Buyer>): Option<PingResponse>
    requires FromPinged(rs, buyers)
  {
    var accepting := Accepting(rs, buyers);
    if |accepting| == 0 then None else SortedHead(accepting)
  }

  function SortedHead(accepting: seq<PingResponse>): Option<PingResponse> {
    var sorted := StableSort(accepting, Ahead);
    if |sorted| == 0 then None else Some(sorted[0])
  }

  /** Reply w is acceptable and comes before every other acceptable reply in the
      order (-bid, response time, list position). */
  predicate IsWinner(rs: seq<PingResponse>, buyers: map<nat, Buyer>, w: int)
    requires FromPinged(rs, buyers)
  {
    && 0 <= w < |rs| && Acceptable(rs[w], buyers)
    && (forall j :: 0 <= j < |rs| && Acceptable(rs[j], buyers) ==> Ahead(rs[w], rs[j]))
    && (forall j :: 0 <= j < w && Acceptable(rs[j], buyers) ==> !Ahead(rs[j], rs[w]))
  }

  lemma {:induction false} AcceptingHasAll(rs: seq<PingResponse>, buyers: map<nat, Buyer>)
    requires FromPinged(rs, buyers)
    ensures forall r :: r in Accepting(rs, buyers) <==> r in rs && Acceptable(r, buyers)
  {
    if |rs| > 0 {
      AcceptingHasAll(rs[..|rs| - 1], buyers);
      assert rs == rs[..|rs| - 1] + [rs[|rs| - 1]];
    }
  }

  /** The first of the best accepting replies is the winner in the full list. */
  lemma {:induction false} FirstLeastIsWinner(rs: seq<PingResponse>, buyers: map<nat, Buyer>, i: nat) returns (w: nat)
    requires FromPinged(rs, buyers) && IsFirstLeast(Accepting(rs, buyers), Ahead, i)
    ensures IsWinner(rs, buyers, w) && rs[w] == Accepting(rs, buyers)[i]
  {
    var n := |rs| - 1;
    var front := Accepting(rs[..n], buyers);
    AcceptingHasAll(rs[..n], buyers);
    if !Acceptable(rs[n], buyers) {
      w := FirstLeastIsWinner(rs[..n], buyers, i);
    } else if i == |front| {
      w := n;
      forall j | 0 <= j < n && Acceptable(rs[j], buyers)
        ensures Ahead(rs[n], rs[j]) && !Ahead(rs[j], rs[n])
      {
        assert rs[..n][j] in front;
        var k :| 0 <= k < |front| && front[k] == rs[j];
        assert Accepting(rs, buyers)[k] == rs[j];
      }
    } else {
      assert forall k :: 0 <= k < |front| ==> front[k] == Accepting(rs, buyers)[k];
      w := FirstLeastIsWinner(rs[..n], buyers, i);
      assert Accepting(rs, buyers)[|front|] == rs[n];
    }
  }

  lemma PickedIsWinner(rs: seq<PingResponse>, buyers: map<nat, Buyer>) returns (w: int)
    requires FromPinged(rs, buyers)
    ensures if PickWinner(rs, buyers) == None then forall i :: 0 <= i < |rs| ==> !Acceptable(rs[i], buyers)
            else IsWinner(rs, buyers, w) && PickWinner(rs, buyers) == Some(rs[w])
  {
    var accepting := Accepting(rs, buyers);
    AcceptingHasAll(rs, buyers);
    SortKeeps(accepting, Ahead);
    w := 0;
    if |accepting| > 0 {
      var i := SortHead(accepting, Ahead);
      w := FirstLeastIsWinner(rs, buyers, i);
    } else {
      forall i | 0 <= i < |rs| ensures !Acceptable(rs[i], buyers) {
        assert rs[i] in rs;
      }
    }
  }

  lemma WinnerIsPicked(rs: seq<PingResponse>, buyers: map<nat, Buyer>, w: nat)
    requires FromPinged(rs, buyers) && IsWinner(rs, buyers, w)
    ensures PickWinner(rs, buyers) == Some(rs[w])
  {
    var v := PickedIsWinner(rs, buyers);
    assert v == w || v < w || w < v;
  }

  /** PickWinner chooses exactly the lexicographic minimum, and nothing exactly when nobody qualifies. */
  lemma PickWinnerIsLexicographicMinimum(rs: seq<PingResponse>, buyers: map<nat, Buyer>)
    requires FromPinged(rs, buyers)
    ensures PickWinner(rs, buyers) == None <==> forall i :: 0 <= i < |rs| ==> !Acceptable(rs[i], buyers)
    ensures forall w :: IsWinner(rs, buyers, w) ==> PickWinner(rs, buyers) == Some(rs[w])
    ensures PickWinner(rs, buyers).Some? ==> exists w :: IsWinner(rs, buyers, w)
  {
    var v := PickedIsWinner(rs, buyers);
    forall w | IsWinner(rs, buyers, w) ensures PickWinner(rs, buyers) == Some(rs[w]) {
      WinnerIsPicked(rs, buyers, w);
    }
  }

  /** Reply i is accepted, with a non-zero bid that its buyer's balance covers. */
  predicate Qualifies(rs: seq<PingResponse>, buyers: map<nat, Buyer>, i: int) {
    && 0 <= i < |rs| && rs[i].accepted && rs[i].bid.Some? && rs[i].bid.value != 0
    && rs[i].buyer in buyers && rs[i].bid.value <= buyers[rs[i].buyer].balance
  }

  /** A qualifying reply with the highest bid, the fastest of those, and the first in the list of those. */
  predicate HighestBid(rs: seq<PingResponse>, buyers: map<nat, Buyer>, w: int) {
    && Qualifies(rs, buyers, w)
    && forall j :: 0 <= j < |rs| && j != w && Qualifies(rs, buyers, j) ==>
         || rs[j].bid.value < rs[w].bid.value
         || (rs[j].bid.value == rs[w].bid.value && rs[j].ms > rs[w].ms)
         || (rs[j].bid.value == rs[w].bid.value && rs[j].ms == rs[w].ms && j > w)
  }

  /** The winner is the highest qualifying bid, and among equal ones the fastest, then the first; without a qualifying
      reply there is none. */
  lemma HighestBidWins(rs: seq<PingResponse>, buyers: map<nat, Buyer>)
    requires FromPinged(rs, buyers)
    ensures PickWinner(rs, buyers).None? <==> forall i :: 0 <= i < |rs| ==> !Qualifies(rs, buyers, i)
    ensures forall w :: HighestBid(rs, buyers, w) ==> PickWinner(rs, buyers) == Some(rs[w])
    ensures PickWinner(rs, buyers).Some? ==> exists w :: HighestBid(rs, buyers, w)
  {
    var v := PickedIsWinner(rs, buyers);
    assert forall i :: 0 <= i < |rs| ==> (Acceptable(rs[i], buyers) <==> Qualifies(rs, buyers, i));
    assert PickWinner(rs, buyers).Some? ==> HighestBid(rs, buyers, v);
    assert forall w :: HighestBid(rs, buyers, w) ==> w == v;
  }

  function Without(rs: seq<PingResponse>, i: nat): (less: seq<PingResponse>)
    requires i < |rs|
    ensures |less| == |rs| - 1
    ensures forall j :: 0 <= j < |less| ==> less[j] == rs[if j < i then j else j + 1]
  {
    rs[..i] + rs[i + 1..]
  }

  lemma WinnerSurvives(rs: seq<PingResponse>, buyers: map<nat, Buyer>, i: nat, w: nat)
    requires i < |rs| && FromPinged(rs, buyers) && FromPinged(Without(rs, i), buyers)
    requires i != w && IsWinner(rs, buyers, w)
    ensures IsWinner(Without(rs, i), buyers, if w < i then w else w - 1)
  {
  }

  /** Independence: dropping a reply that did not win leaves the outcome unchanged. */
  lemma LoserDoesNotMatter(rs: seq<PingResponse>, buyers: map<nat, Buyer>, i: nat)
    requires FromPinged(rs, buyers) && i < |rs| && !IsWinner(rs, buyers, i)
    ensures FromPinged(Without(rs, i), buyers)
    ensures PickWinner(Without(rs, i), buyers) == PickWinner(rs, buyers)
  {
    var w := PickedIsWinner(rs, buyers);
    if PickWinner(rs, buyers).Some? {
      WinnerSurvives(rs, buyers, i, w);
      WinnerIsPicked(Without(rs, i), buyers, if w < i then w else w - 1);
    } else {
      var v := PickedIsWinner(Without(rs, i), buyers);
    }
  }

  /** Order independence: when no two qualifying replies tie on bid and time, arrival order is irrelevant. */
  lemma ArrivalOrderDoesNotMatter(rs: seq<PingResponse>, permuted: seq<PingResponse>, buyers: map<nat, Buyer>)
    requires FromPinged(rs, buyers) && FromPinged(permuted, buyers)
    requires multiset(rs) == multiset(permuted)
    requires forall i, j :: 0 <= i < j < |rs| && Acceptable(rs[i], buyers) && Acceptable(rs[j], buyers)
               ==> BidOf(rs[i]) != BidOf(rs[j]) || rs[i].ms != rs[j].ms
    ensures PickWinner(permuted, buyers) == PickWinner(rs, buyers)
  {
    var w := PickedIsWinner(rs, buyers);
    var v := PickedIsWinner(permuted, buyers);
    assert forall r :: r in rs <==> r in permuted by {
      assert forall r :: r in rs <==> r in multiset(rs);
      assert forall r :: r in permuted <==> r in multiset(permuted);
    }
    if PickWinner(rs, buyers).Some? {
      assert rs[w] in permuted;
      assert permuted[v] in rs;
      var u :| 0 <= u < |rs| && rs[u] == permuted[v];
      assert Ahead(rs[w], rs[u]) && Ahead(permuted[v], rs[w]);
    } else {
      forall j | 0 <= j < |permuted| ensures !Acceptable(permuted[j], buyers) {
        assert permuted[j] in rs;
      }
    }
  }
}
