/** The graph of legal lead states. */
module Pipeline {

  datatype PipelineState = Captured | Enriched | Qualified | Auctioned | Sold | Unsold | Rejected | Nurtured

  function NextStates(state: PipelineState): set<PipelineState> {
    match state
    case Captured => {Enriched}
    case Enriched => {Qualified, Rejected}
    case Qualified => {Auctioned}
    case Auctioned => {PipelineState.Sold, PipelineState.Unsold}
    case Sold => {}
    case Unsold => {Nurtured}
    case Rejected => {Nurtured}
    case Nurtured => {}
  }

  predicate CanTransition(a: PipelineState, b: PipelineState) {
    b in NextStates(a)
  }

  predicate IsTerminal(state: PipelineState) {
    NextStates(state) == {}
  }

  /** The most steps a lead in this state can still take. */
  function Rank(state: PipelineState): nat {
    match state
    case Captured => 5
    case Enriched => 4
    case Qualified => 3
    case Auctioned => 2
    case Unsold => 1
    case Rejected => 1
    case Sold => 0
    case Nurtured => 0
  }

  /** A walk along edges, given by the states it visits. */
  predicate IsWalk(walk: seq<PipelineState>) {
    |walk| > 0 && forall i :: 0 < i < |walk| ==> CanTransition(walk[i - 1], walk[i])
  }

  lemma {:induction false} WalkDescends(walk: seq<PipelineState>)
    requires IsWalk(walk)
    ensures Rank(walk[|walk| - 1]) + |walk| - 1 <= Rank(walk[0])
  {
    if |walk| > 1 {
      WalkDescends(walk[..|walk| - 1]);
      assert CanTransition(walk[|walk| - 2], walk[|walk| - 1]);
    }
  }

  /** A longest continuation from a state to a terminal one. */
  function LongestWalk(state: PipelineState): (walk: seq<PipelineState>)
    ensures IsWalk(walk) && walk[0] == state && IsTerminal(walk[|walk| - 1]) && |walk| == Rank(state) + 1
    decreases Rank(state)
  {
    match state
    case Captured => [state] + LongestWalk(Enriched)
    case Enriched => [state] + LongestWalk(Qualified)
    case Qualified => [state] + LongestWalk(Auctioned)
    case Auctioned => [state] + LongestWalk(PipelineState.Unsold)
    case Unsold => [state] + LongestWalk(Nurtured)
    case Rejected => [state] + LongestWalk(Nurtured)
    case _ => [state]
  }

  /** Rank is exactly the length of the longest walk from a state, which ends sold or nurtured; no walk
      from captured or from anywhere else takes more than five steps, and none leaves sold or nurtured. */
  lemma RankIsLongestWalk(state: PipelineState)
    ensures forall walk :: IsWalk(walk) && walk[0] == state ==> |walk| - 1 <= Rank(state) <= 5
    ensures exists walk :: IsWalk(walk) && walk[0] == state && |walk| - 1 == Rank(state)
                        && walk[|walk| - 1] in {PipelineState.Sold, Nurtured}
    ensures state in {PipelineState.Sold, Nurtured} <==> forall walk :: IsWalk(walk) && walk[0] == state ==> |walk| == 1
  {
    forall walk | IsWalk(walk) && walk[0] == state ensures |walk| - 1 <= Rank(state) {
      WalkDescends(walk);
    }
    var longest := LongestWalk(state);
    assert IsWalk(longest);
  }

  // ---------------------------------------------------------------- names

  function Name(state: PipelineState): string {
    match state
    case Captured => "captured"
    case Enriched => "enriched"
    case Qualified => "qualified"
    case Auctioned => "auctioned"
    case Sold => "sold"
    case Unsold => "unsold"
    case Rejected => "rejected"
    case Nurtured => "nurtured"
  }

  datatype Parsed = Known(state: PipelineState) | Unknown

  function Normalize(name: string): (parsed: Parsed)
    ensures parsed.Known? ==> name == Name(parsed.state)
  {
    if name == "captured" then Known(Captured)
    else if name == "enriched" then Known(Enriched)
    else if name == "qualified" then Known(Qualified)
    else if name == "auctioned" then Known(Auctioned)
    else if name == "sold" then Known(PipelineState.Sold)
    else if name == "unsold" then Known(PipelineState.Unsold)
    else if name == "rejected" then Known(Rejected)
    else if name == "nurtured" then Known(Nurtured)
    else Unknown
  }

  lemma NormalizeName(state: PipelineState)
    ensures Normalize(Name(state)) == Known(state)
  {
    match state
    case Captured =>
    case Enriched =>
    case Qualified => assert Name(state)[0] == 'q';
    case Auctioned => assert Name(state)[0] == 'a';
    case Sold => assert Name(state)[0] == 's';
    case Unsold => assert Name(state)[0] == 'u';
    case Rejected => assert Name(state)[0] == 'r';
    case Nurtured => assert Name(state)[0] == 'n';
  }
}
