/**
 * Resolution of a snapshot's predicted picks against the final score, one
 * outcome per market: 1X2, over/under 2.5 goals, both teams to score.
 */
module MarketResolver {

  const StatusFinal: string := "FINAL"

  /** Outcome of one market; `UNRESOLVED` is declared by the code but never produced. */
  datatype Outcome = Success | Failure | Neutral

  /** The predicted pick per market, as the analyzer wrote it. */
  datatype SnapshotPicks = SnapshotPicks(oneXTwo: string, overUnder25: string, ggNg: string)

  datatype FinalResult = FinalResult(homeGoals: int, awayGoals: int, status: string)

  datatype MarketOutcomes = MarketOutcomes(oneXTwo: Outcome, overUnder25: Outcome, ggNg: Outcome)

  /** `_result_1x2`: the side that scored more, or a draw. */
  function Result1X2(home: int, away: int): (r: string)
    ensures r == "HOME" <==> home > away
    ensures r == "AWAY" <==> home < away
    ensures r == "DRAW" <==> home == away
  {
    if home > away then "HOME" else if home < away then "AWAY" else "DRAW"
  }

  /** `_result_over_under_25`: over when at least three goals were scored. */
  function ResultOverUnder25(home: int, away: int): (r: string)
    ensures r == "OVER" <==> home + away >= 3
    ensures r == "UNDER" <==> home + away < 3
  {
    if home + away >= 3 then "OVER" else "UNDER"
  }

  /** `_result_gg_ng`: both teams scored, or not. */
  function ResultGgNg(home: int, away: int): (r: string)
    ensures r == "GG" <==> home > 0 && away > 0
    ensures r == "NG" <==> !(home > 0 && away > 0)
  {
    if home > 0 && away > 0 then "GG" else "NG"
  }

  /** `_is_no_pick`. */
  predicate IsNoPick(pick: string) {
    pick == "NO_PREDICTION" || pick == "NO_BET"
  }

  /** One market: no pick is neutral, otherwise success exactly when the pick is the actual result. */
  function MarketOutcome(pick: string, actual: string): (o: Outcome)
    ensures IsNoPick(pick) ==> o == Neutral
    ensures !IsNoPick(pick) ==> (o == Success <==> pick == actual) && o != Neutral
  {
    if IsNoPick(pick) then Neutral else if pick == actual then Success else Failure
  }

  /** `resolve_markets`: a match that is not final resolves every market as neutral. */
  function ResolveMarkets(picks: SnapshotPicks, final: FinalResult): (m: MarketOutcomes)
    ensures final.status != StatusFinal ==> m == MarketOutcomes(Neutral, Neutral, Neutral)
    ensures final.status == StatusFinal ==>
              m.oneXTwo == MarketOutcome(picks.oneXTwo, Result1X2(final.homeGoals, final.awayGoals)) &&
              m.overUnder25 == MarketOutcome(picks.overUnder25, ResultOverUnder25(final.homeGoals, final.awayGoals)) &&
              m.ggNg == MarketOutcome(picks.ggNg, ResultGgNg(final.homeGoals, final.awayGoals))
  {
    if final.status != StatusFinal then MarketOutcomes(Neutral, Neutral, Neutral)
    else
      MarketOutcomes(
        MarketOutcome(picks.oneXTwo, Result1X2(final.homeGoals, final.awayGoals)),
        MarketOutcome(picks.overUnder25, ResultOverUnder25(final.homeGoals, final.awayGoals)),
        MarketOutcome(picks.ggNg, ResultGgNg(final.homeGoals, final.awayGoals)))
  }

  /** On a final score, exactly one of the three 1X2 picks succeeds. */
  lemma ExactlyOne1X2PickSucceeds(final: FinalResult, picks: SnapshotPicks)
    requires final.status == StatusFinal
    ensures var won := set p | p in {"HOME", "DRAW", "AWAY"} && ResolveMarkets(picks.(oneXTwo := p), final).oneXTwo == Success;
            |won| == 1
  {
    var actual := Result1X2(final.homeGoals, final.awayGoals);
    var won := set p | p in {"HOME", "DRAW", "AWAY"} && ResolveMarkets(picks.(oneXTwo := p), final).oneXTwo == Success;
    forall p | p in {"HOME", "DRAW", "AWAY"} ensures p in won <==> p == actual {
      assert !IsNoPick(p);
    }
    assert won == {actual};
  }

  /** A pick outside the market's vocabulary, other than the no-pick markers, always fails on a final score. */
  lemma UnknownPickFails(picks: SnapshotPicks, final: FinalResult)
    requires final.status == StatusFinal
    requires picks.oneXTwo !in {"HOME", "DRAW", "AWAY"} && !IsNoPick(picks.oneXTwo)
    ensures ResolveMarkets(picks, final).oneXTwo == Failure
  {
  }
}
