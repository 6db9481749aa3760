/**
 * The evaluator: compares one prediction (one market, one decision) with
 * the final score and reports HIT, MISS or N/A, and what it would persist.
 */
module Evaluator {
  import MarketResolver

  /** `OUTCOME_HIT`, `OUTCOME_MISS`, `OUTCOME_NA`. */
  datatype Outcome = Hit | Miss | NA

  /** `_compute_final_result_1x2`: `1` for a home win, `2` for an away win, `X` for a draw. */
  function FinalResult1X2(home: int, away: int): (r: string)
    ensures r == "1" <==> home > away
    ensures r == "2" <==> home < away
    ensures r == "X" <==> home == away
  {
    if home > away then "1" else if home < away then "2" else "X"
  }

  /** `_compute_final_result_ou25`. */
  function FinalResultOu25(home: int, away: int): (r: string)
    ensures r == "OVER" <==> home + away >= 3
    ensures r == "UNDER" <==> home + away < 3
  {
    if home + away >= 3 then "OVER" else "UNDER"
  }

  /** `_compute_final_result_ggng`: `GG` when both teams scored at least once. */
  function FinalResultGgNg(home: int, away: int): (r: string)
    ensures r == "GG" <==> home >= 1 && away >= 1
    ensures r == "NG" <==> !(home >= 1 && away >= 1)
  {
    if home >= 1 && away >= 1 then "GG" else "NG"
  }

  /** `_decision_to_1x2`: `None` for `NO_BET` or anything unknown. */
  function DecisionTo1X2(decision: string): (r: Option1X2)
    ensures decision == "HOME" <==> r == Code("1")
    ensures decision == "AWAY" <==> r == Code("2")
    ensures decision == "DRAW" <==> r == Code("X")
    ensures decision !in {"HOME", "AWAY", "DRAW"} <==> r == NoCode
  {
    if decision == "HOME" then Code("1")
    else if decision == "AWAY" then Code("2")
    else if decision == "DRAW" then Code("X")
    else NoCode
  }

  datatype Option1X2 = NoCode | Code(code: string)

  /** `_evaluate_market`. */
  function EvaluateMarket(market: string, decision: string, actual1X2: string, actualOu25: string, actualGgNg: string): (o: Outcome)
    ensures decision == "NO_BET" ==> o == NA
    ensures market !in {"1X2", "OU25", "GGNG"} ==> o == NA
    ensures market == "1X2" && decision != "NO_BET" ==>
              (decision !in {"HOME", "AWAY", "DRAW"} ==> o == NA) &&
              (decision in {"HOME", "AWAY", "DRAW"} ==> (o == Hit <==> DecisionTo1X2(decision) == Code(actual1X2)) && o != NA)
    ensures market == "OU25" && decision != "NO_BET" ==>
              (decision !in {"OVER", "UNDER"} ==> o == NA) &&
              (decision in {"OVER", "UNDER"} ==> (o == Hit <==> decision == actualOu25) && o != NA)
    ensures market == "GGNG" && decision != "NO_BET" ==>
              (decision !in {"GG", "NG"} ==> o == NA) &&
              (decision in {"GG", "NG"} ==> (o == Hit <==> decision == actualGgNg) && o != NA)
  {
    if decision == "NO_BET" then NA
    else if market == "1X2" then
      match DecisionTo1X2(decision)
      case NoCode => NA
      case Code(expected) => if actual1X2 == expected then Hit else Miss
    else if market == "OU25" then
      if decision !in {"OVER", "UNDER"} then NA
      else if decision == actualOu25 then Hit else Miss
    else if market == "GGNG" then
      if decision !in {"GG", "NG"} then NA
      else if decision == actualGgNg then Hit else Miss
    else NA
  }

  /** What `evaluate_prediction` returns, and the outcome row it persists when there is one. */
  datatype Evaluation = Evaluation(status: string, marketResults: map<string, Outcome>, persisted: PersistedRow)

  datatype PersistedRow = NotPersisted | Persisted(hit: bool)

  /**
   * `evaluate_prediction` once the prediction is loaded: only the
   * prediction's market is evaluated; an N/A result is `PENDING` and
   * persists nothing.
   */
  function Evaluate(market: string, decision: string, home: int, away: int): (e: Evaluation)
    ensures e.marketResults.Keys == {"1X2", "OU25", "GGNG", market}
    ensures forall m :: m in e.marketResults && m != market ==> e.marketResults[m] == NA
    ensures e.marketResults[market] ==
              EvaluateMarket(market, decision, FinalResult1X2(home, away), FinalResultOu25(home, away), FinalResultGgNg(home, away))
    ensures e.status in {"PENDING", "EVALUATED"}
    ensures (e.status == "PENDING") <==> e.marketResults[market] == NA
    ensures e.status == "PENDING" <==> e.persisted == NotPersisted
    ensures e.persisted.Persisted? ==> (e.persisted.hit <==> e.marketResults[market] == Hit)
  {
    var outcome := EvaluateMarket(market, decision, FinalResult1X2(home, away), FinalResultOu25(home, away), FinalResultGgNg(home, away));
    var results := map["1X2" := NA, "OU25" := NA, "GGNG" := NA][market := outcome];
    if outcome == NA then Evaluation("PENDING", results, NotPersisted)
    else Evaluation("EVALUATED", results, Persisted(outcome == Hit))
  }

  /** The evaluator and the market resolver agree on every final score: a 1X2 hit is a resolved success. */
  lemma AgreesWithResolver1X2(decision: string, home: int, away: int)
    requires decision in {"HOME", "AWAY", "DRAW"}
    ensures var picks := MarketResolver.SnapshotPicks(decision, "NO_PREDICTION", "NO_PREDICTION");
            var resolved := MarketResolver.ResolveMarkets(picks, MarketResolver.FinalResult(home, away, "FINAL"));
            (Evaluate("1X2", decision, home, away).marketResults["1X2"] == Hit) <==> resolved.oneXTwo == MarketResolver.Success
  {
  }

  /** The same agreement for the goal markets, where both use the same vocabulary. */
  lemma AgreesWithResolverGoals(ou: string, gg: string, home: int, away: int)
    requires ou in {"OVER", "UNDER"} && gg in {"GG", "NG"}
    ensures var picks := MarketResolver.SnapshotPicks("NO_PREDICTION", ou, gg);
            var resolved := MarketResolver.ResolveMarkets(picks, MarketResolver.FinalResult(home, away, "FINAL"));
            (Evaluate("OU25", ou, home, away).marketResults["OU25"] == Hit <==> resolved.overUnder25 == MarketResolver.Success) &&
            (Evaluate("GGNG", gg, home, away).marketResults["GGNG"] == Hit <==> resolved.ggNg == MarketResolver.Success)
  {
  }

  /** A `NO_BET` decision is pending in every market and persists nothing. */
  lemma NoBetPending(market: string, home: int, away: int)
    ensures Evaluate(market, "NO_BET", home, away).status == "PENDING"
    ensures forall m :: m in Evaluate(market, "NO_BET", home, away).marketResults ==> Evaluate(market, "NO_BET", home, away).marketResults[m] == NA
  {
  }
}
