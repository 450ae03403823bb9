/** The score a captured lead starts with. */
module Quality {
  import opened Market

  datatype Reason = DuplicateWindowMatch | ShortDwell | MissingEmail

  datatype QualityScore = QualityScore(score: real, reasons: seq<Reason>, hold: bool, blocked: bool)

  predicate ShortVisit(dwellMs: Option<nat>) {
    dwellMs.None? || dwellMs.value < 2000
  }

  /** The scoring rule: three possible deductions, clamped to the unit interval. */
  method InitialQualityScore(dwellMs: Option<nat>, hasEmail: bool, duplicate: bool) returns (q: QualityScore)
    ensures 0.0 <= q.score <= 1.0
    ensures var points := 1.0 - (if duplicate then 0.7 else 0.0) -
              (if dwellMs.None? || dwellMs.value < 2000 then 0.25 else 0.0) - (if hasEmail then 0.0 else 0.1);
            q.score == if points < 0.0 then 0.0 else points
    ensures q.blocked == duplicate
    ensures q.hold == duplicate
    ensures q.score >= 0.6 <==> !duplicate
    ensures q.reasons == (if duplicate then [DuplicateWindowMatch] else []) +
              (if ShortVisit(dwellMs) then [ShortDwell] else [])
                       + (if hasEmail then [] else [MissingEmail])
    ensures q.score == 1.0 <==> q.reasons == []
    ensures q.score == 0.0 <==> duplicate && ShortVisit(dwellMs) && !hasEmail
  {
    var score, reasons := 1.0, [];
    if duplicate {
      score := score - 0.7;
      reasons := reasons + [DuplicateWindowMatch];
    }
    if dwellMs.None? || dwellMs.value < 2000 {
      score := score - 0.25;
      reasons := reasons + [ShortDwell];
    }
    if !hasEmail {
      score := score - 0.1;
      reasons := reasons + [MissingEmail];
    }
    score := if score > 1.0 then 1.0 else score;
    score := if score < 0.0 then 0.0 else score;
    q := QualityScore(score, reasons, score < 0.6 || duplicate, duplicate);
  }
}
