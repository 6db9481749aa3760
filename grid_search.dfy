/**
 * Shadow-only grid search for refusal thresholds. A decision is refused
 * when its age band is at least as stale as the band threshold and its
 * effective confidence is below the confidence threshold. Every pair of
 * thresholds is scored by `accuracy_on_non_refused - alpha * refusal_rate`;
 * the best pair is the first of the candidates sorted by the tie-break key.
 * The stale bands and `alpha` come from the refusal-shadow model, which is
 * not part of this model: they are parameters here.
 */
module GridSearch {
  import opened Wrappers
  import opened Sorting
  import opened Rounding

  datatype ShadowDecision = ShadowDecision(effectiveConfidence: real, ageBand: string, outcome: string, market: Option<string>)

  datatype BestThresholds = BestThresholds(
    effectiveConfidenceThreshold: real,
    staleBandThreshold: string,
    refusalRate: real,
    accuracyOnNonRefused: real,
    safetyScore: real,
    supportTotal: nat,
    supportRefused: nat,
    supportNonRefused: int,
    successNonRefused: nat,
    failureNonRefused: nat)

  /** `effective_confidence_grid`: 0.10 to 0.90 in steps of 0.05. */
  function EffGrid(): (g: seq<real>)
    ensures |g| == 17 && g[0] == 0.10 && g[16] == 0.90
    ensures forall i :: 0 <= i < |g| - 1 ==> g[i + 1] - g[i] == 0.05
  {
    seq(17, i => 0.10 + 0.05 * i as real)
  }

  /**
   * `_band_order`: the position of `band` in `bands` (the last one, as the
   * dictionary comprehension keeps it); an unknown band is `|bands|`.
   */
  function BandOrder(bands: seq<string>, band: string): (r: nat)
    ensures band in bands ==> r < |bands| && bands[r] == band && forall j :: r < j < |bands| ==> bands[j] != band
    ensures band !in bands ==> r == |bands|
  {
    if bands == [] then 0
    else if bands[|bands| - 1] == band then |bands| - 1
    else
      var r := BandOrder(bands[..|bands| - 1], band);
      assert band in bands[..|bands| - 1] ==> band in bands;
      if band in bands[..|bands| - 1] then r else |bands|
  }

  /** An unknown band is staler than every band of the list. */
  lemma UnknownBandStalest(bands: seq<string>, unknown: string, known: string)
    requires unknown !in bands && known in bands
    ensures BandOrder(bands, unknown) > BandOrder(bands, known)
  {
  }

  /** `would_refuse`. */
  predicate WouldRefuse(bands: seq<string>, d: ShadowDecision, eff: real, stale: string) {
    BandOrder(bands, d.ageBand) >= BandOrder(bands, stale) && d.effectiveConfidence < eff
  }

  /** Raising the confidence threshold or lowering the band threshold never lets a refused decision through. */
  lemma RefusalMonotone(bands: seq<string>, d: ShadowDecision, eff1: real, eff2: real, stale1: string, stale2: string)
    requires eff1 <= eff2 && BandOrder(bands, stale2) <= BandOrder(bands, stale1)
    requires WouldRefuse(bands, d, eff1, stale1)
    ensures WouldRefuse(bands, d, eff2, stale2)
  {
  }

  /** The refused mask, one flag per decision. */
  function RefusedMask(bands: seq<string>, decisions: seq<ShadowDecision>, eff: real, stale: string): (m: seq<bool>)
    ensures |m| == |decisions|
    ensures forall i :: 0 <= i < |m| ==> (m[i] <==> WouldRefuse(bands, decisions[i], eff, stale))
  {
    seq(|decisions|, i requires 0 <= i < |decisions| => WouldRefuse(bands, decisions[i], eff, stale))
  }

  /** `sum(mask)`. */
  function CountTrue(mask: seq<bool>): (n: nat)
    ensures n <= |mask|
  {
    if mask == [] then 0 else CountTrue(mask[..|mask| - 1]) + (if mask[|mask| - 1] then 1 else 0)
  }

  /** How many of the non-refused decisions (over `zip`, the shorter length) have the outcome `outcome`. */
  function CountOutcome(decisions: seq<ShadowDecision>, mask: seq<bool>, outcome: string, k: nat): (n: nat)
    requires k <= |decisions| && k <= |mask|
    ensures n <= k
  {
    if k == 0 then 0
    else CountOutcome(decisions, mask, outcome, k - 1) + (if !mask[k - 1] && decisions[k - 1].outcome == outcome then 1 else 0)
  }

  function ZipLength(decisions: seq<ShadowDecision>, mask: seq<bool>): nat {
    if |decisions| < |mask| then |decisions| else |mask|
  }

  /** `round(success / (success + failure), 4)`, or 0 with neither. */
  function Ratio(success: nat, failure: nat): (r: real)
    ensures 0.0 <= r <= 1.0
    ensures success + failure == 0 ==> r == 0.0
    ensures success + failure > 0 ==>
              var exact := success as real / (success + failure) as real;
              exact - 0.00005 <= r <= exact + 0.00005
  {
    if success + failure > 0 then
      var exact := success as real / (success + failure) as real;
      Round4Between(exact, 0, 1);
      Round4(exact)
    else 0.0
  }

  /** `round(ref_count / n, 4)`. */
  function Rate(count: nat, n: nat): (r: real)
    requires 0 < n && count <= n
    ensures 0.0 <= r <= 1.0
    ensures count as real / n as real - 0.00005 <= r <= count as real / n as real + 0.00005
  {
    assert count as real <= n as real;
    Round4Between(count as real / n as real, 0, 1);
    Round4(count as real / n as real)
  }

  /** `round(acc - ALPHA * refusal_rate, 4)`. */
  function Safety(acc: real, alpha: real, rr: real): (r: real)
    ensures acc - alpha * rr - 0.00005 <= r <= acc - alpha * rr + 0.00005
  {
    Round4(acc - alpha * rr)
  }

  /** `_accuracy_on_non_refused`: the success and failure counts of the loop, neutrals ignored. */
  method AccuracyOnNonRefused(decisions: seq<ShadowDecision>, mask: seq<bool>)
    returns (acc: real, success: nat, failure: nat, nonRefused: int)
    ensures success == CountOutcome(decisions, mask, "SUCCESS", ZipLength(decisions, mask))
    ensures failure == CountOutcome(decisions, mask, "FAILURE", ZipLength(decisions, mask))
    ensures acc == Ratio(success, failure)
    ensures nonRefused == |decisions| - CountTrue(mask)
  {
    success, failure := 0, 0;
    var k := 0;
    var n := ZipLength(decisions, mask);
    while k < n
      invariant 0 <= k <= n
      invariant success == CountOutcome(decisions, mask, "SUCCESS", k)
      invariant failure == CountOutcome(decisions, mask, "FAILURE", k)
    {
      if !mask[k] {
        if decisions[k].outcome == "SUCCESS" {
          success := success + 1;
        } else if decisions[k].outcome == "FAILURE" {
          failure := failure + 1;
        }
      }
      k := k + 1;
    }
    acc := Ratio(success, failure);
    nonRefused := |decisions| - CountTrue(mask);
  }

  /** What `_evaluate_thresholds` computes for one pair of thresholds, as a candidate. */
  function Evaluation(bands: seq<string>, alpha: real, decisions: seq<ShadowDecision>, eff: real, stale: string): (b: BestThresholds)
    ensures decisions == [] ==> b.supportRefused == 0 && b.successNonRefused == 0 && b.failureNonRefused == 0
    ensures decisions == [] ==> b.refusalRate == 0.0 && b.accuracyOnNonRefused == 0.0
    ensures decisions != [] ==> b.supportRefused == CountTrue(RefusedMask(bands, decisions, eff, stale))
    ensures decisions != [] ==> b.successNonRefused == CountOutcome(decisions, RefusedMask(bands, decisions, eff, stale), "SUCCESS", |decisions|)
    ensures decisions != [] ==> b.failureNonRefused == CountOutcome(decisions, RefusedMask(bands, decisions, eff, stale), "FAILURE", |decisions|)
    ensures b.effectiveConfidenceThreshold == eff && b.staleBandThreshold == stale
    ensures b.supportTotal == |decisions|
    ensures b.supportRefused + b.supportNonRefused == b.supportTotal
    ensures 0.0 <= b.refusalRate <= 1.0 && 0.0 <= b.accuracyOnNonRefused <= 1.0
    ensures b.successNonRefused + b.failureNonRefused <= b.supportNonRefused
    ensures decisions != [] ==> b.refusalRate == Rate(b.supportRefused, b.supportTotal)
    ensures decisions != [] ==> b.accuracyOnNonRefused == Ratio(b.successNonRefused, b.failureNonRefused)
    ensures b.safetyScore == if decisions == [] then 0.0 else Safety(b.accuracyOnNonRefused, alpha, b.refusalRate)
  {
    var n := |decisions|;
    if n == 0 then BestThresholds(eff, stale, 0.0, 0.0, 0.0, 0, 0, 0, 0, 0)
    else
      var mask := RefusedMask(bands, decisions, eff, stale);
      var refused := CountTrue(mask);
      var success := CountOutcome(decisions, mask, "SUCCESS", n);
      var failure := CountOutcome(decisions, mask, "FAILURE", n);
      OutcomesAmongNonRefused(decisions, mask, n);
      var rr := Rate(refused, n);
      var acc := Ratio(success, failure);
      BestThresholds(eff, stale, rr, acc, Safety(acc, alpha, rr), n, refused, n - refused, success, failure)
  }

  /** Successes and failures are counted among the non-refused decisions only. */
  lemma {:induction false} OutcomesAmongNonRefused(decisions: seq<ShadowDecision>, mask: seq<bool>, k: nat)
    requires k <= |decisions| && k == |mask|
    ensures CountOutcome(decisions, mask, "SUCCESS", k) + CountOutcome(decisions, mask, "FAILURE", k) <= k - CountTrue(mask)
  {
    if k > 0 {
      var m := mask[..k - 1];
      OutcomesAmongNonRefused(decisions, m, k - 1);
      CountPrefix(decisions, mask, "SUCCESS", k - 1);
      CountPrefix(decisions, mask, "FAILURE", k - 1);
    }
  }

  /** The count up to `k` only reads the first `k` flags. */
  lemma {:induction false} CountPrefix(decisions: seq<ShadowDecision>, mask: seq<bool>, outcome: string, k: nat)
    requires k < |mask| && k <= |decisions|
    ensures CountOutcome(decisions, mask[..k], outcome, k) == CountOutcome(decisions, mask, outcome, k)
  {
    if k > 0 {
      assert mask[..k][..k - 1] == mask[..k - 1];
      CountPrefix(decisions, mask, outcome, k - 1);
      CountPrefix(decisions, mask[..k], outcome, k - 1);
    }
  }

  /** `_evaluate_thresholds`. */
  method EvaluateThresholds(bands: seq<string>, alpha: real, decisions: seq<ShadowDecision>, eff: real, stale: string)
    returns (b: BestThresholds)
    ensures b == Evaluation(bands, alpha, decisions, eff, stale)
  {
    var n := |decisions|;
    if n == 0 {
      return BestThresholds(eff, stale, 0.0, 0.0, 0.0, 0, 0, 0, 0, 0);
    }
    var refused := RefusedMask(bands, decisions, eff, stale);
    var refCount := CountTrue(refused);
    var rr := Round4(refCount as real / n as real);
    assert rr == Rate(refCount, n);
    var acc, successNr, failureNr, nonRef := AccuracyOnNonRefused(decisions, refused);
    b := BestThresholds(eff, stale, rr, acc, Safety(acc, alpha, rr), n, refCount, nonRef, successNr, failureNr);
  }

  /** `_tie_break_key`: higher safety, then lower refusal, then higher accuracy, then lower thresholds. */
  function TieKey(bands: seq<string>, b: BestThresholds): Key {
    [Num(-b.safetyScore), Num(b.refusalRate), Num(-b.accuracyOnNonRefused),
     Num(b.effectiveConfidenceThreshold), Num(BandOrder(bands, b.staleBandThreshold) as real)]
  }

  /** The candidates of one confidence threshold, one per stale band, in order. */
  function Row(bands: seq<string>, alpha: real, decisions: seq<ShadowDecision>, eff: real, stales: seq<string>): (r: seq<BestThresholds>)
    ensures |r| == |stales|
  {
    if stales == [] then []
    else Row(bands, alpha, decisions, eff, stales[..|stales| - 1]) + [Evaluation(bands, alpha, decisions, eff, stales[|stales| - 1])]
  }

  /** The candidates of `_run_grid`, in the order of its nested loops. */
  function Candidates(bands: seq<string>, alpha: real, decisions: seq<ShadowDecision>, grid: seq<real>): (r: seq<BestThresholds>)
    ensures grid != [] && bands != [] ==> r != []
    ensures grid == [] || bands == [] ==> r == []
  {
    if grid == [] then []
    else Candidates(bands, alpha, decisions, grid[..|grid| - 1]) + Row(bands, alpha, decisions, grid[|grid| - 1], bands)
  }

  /** One candidate per (confidence threshold, stale band) pair. */
  lemma {:induction false} CandidatesLength(bands: seq<string>, alpha: real, decisions: seq<ShadowDecision>, grid: seq<real>)
    ensures |Candidates(bands, alpha, decisions, grid)| == |grid| * |bands|
    decreases |grid|
  {
    if grid != [] {
      var n := |grid| - 1;
      CandidatesLength(bands, alpha, decisions, grid[..n]);
      var row := Row(bands, alpha, decisions, grid[n], bands);
      assert Candidates(bands, alpha, decisions, grid) == Candidates(bands, alpha, decisions, grid[..n]) + row;
      MulStep(n, |bands|);
    }
  }

  lemma MulStep(n: nat, b: nat)
    ensures n * b + b == (n + 1) * b
  {
  }

  /** The first of the candidates in tie-break order. */
  function Best(bands: seq<string>, candidates: seq<BestThresholds>): BestThresholds
    requires candidates != []
  {
    SortBy(candidates, c => TieKey(bands, c))[0]
  }

  /** The best candidate is one of the candidates, and no candidate has a smaller key. */
  lemma BestIsMinimal(bands: seq<string>, candidates: seq<BestThresholds>)
    requires candidates != []
    ensures Best(bands, candidates) in candidates
    ensures forall c :: c in candidates ==> KeyLe(TieKey(bands, Best(bands, candidates)), TieKey(bands, c))
  {
    var key := c => TieKey(bands, c);
    var sorted := SortBy(candidates, key);
    SortBySorted(candidates, key);
    assert sorted[0] in multiset(sorted);
    forall c | c in candidates ensures KeyLe(key(sorted[0]), key(c)) {
      assert c in multiset(sorted);
      var j :| 0 <= j < |sorted| && sorted[j] == c;
      if j > 0 {
        assert KeyLe(key(sorted[0]), key(sorted[j]));
      } else {
        KeyLtIrreflexive(key(c));
      }
    }
  }

  /** The candidates of `_run_grid`, built by its nested loops. */
  method GridCandidates(bands: seq<string>, alpha: real, decisions: seq<ShadowDecision>, grid: seq<real>)
    returns (candidates: seq<BestThresholds>)
    ensures candidates == Candidates(bands, alpha, decisions, grid)
  {
    candidates := [];
    var i := 0;
    while i < |grid|
      invariant 0 <= i <= |grid|
      invariant candidates == Candidates(bands, alpha, decisions, grid[..i])
    {
      CandidatesStep(bands, alpha, decisions, grid, i);
      candidates := RowCandidates(bands, alpha, decisions, grid[i], candidates);
      i := i + 1;
    }
    assert grid[..i] == grid;
  }

  lemma CandidatesStep(bands: seq<string>, alpha: real, decisions: seq<ShadowDecision>, grid: seq<real>, i: nat)
    requires i < |grid|
    ensures Candidates(bands, alpha, decisions, grid[..i + 1]) ==
            Candidates(bands, alpha, decisions, grid[..i]) + Row(bands, alpha, decisions, grid[i], bands)
  {
    assert grid[..i + 1][..i] == grid[..i];
  }

  /** The inner loop of `_run_grid`: one candidate per stale band, for one confidence threshold. */
  method RowCandidates(bands: seq<string>, alpha: real, decisions: seq<ShadowDecision>, eff: real,
                       candidates: seq<BestThresholds>)
    returns (candidates': seq<BestThresholds>)
    ensures candidates' == candidates + Row(bands, alpha, decisions, eff, bands)
  {
    candidates' := candidates;
    var j := 0;
    while j < |bands|
      invariant 0 <= j <= |bands|
      invariant candidates' == candidates + Row(bands, alpha, decisions, eff, bands[..j])
    {
      assert bands[..j + 1][..j] == bands[..j];
      var b := EvaluateThresholds(bands, alpha, decisions, eff, bands[j]);
      candidates' := candidates' + [b];
      j := j + 1;
    }
    assert bands[..j] == bands;
  }

  /** `_run_grid`: with at least one candidate, the best one is stored under `marketKey`. */
  method RunGrid(bands: seq<string>, alpha: real, decisions: seq<ShadowDecision>, marketKey: Option<string>, grid: seq<real>,
                 results: map<Option<string>, BestThresholds>)
    returns (out: map<Option<string>, BestThresholds>)
    ensures grid == [] || bands == [] ==> out == results
    ensures grid != [] && bands != [] ==> out == results[marketKey := Best(bands, Candidates(bands, alpha, decisions, grid))]
  {
    var candidates := GridCandidates(bands, alpha, decisions, grid);
    if candidates == [] {
      return results;
    }
    var sorted := SortBy(candidates, c => TieKey(bands, c));
    out := results[marketKey := sorted[0]];
  }

  /** `[d for d in decisions if d.market == m]`. */
  function OfMarket(decisions: seq<ShadowDecision>, m: string): (r: seq<ShadowDecision>)
    ensures forall i :: 0 <= i < |r| ==> r[i].market == Some(m)
    ensures forall d :: d in r <==> d in decisions && d.market == Some(m)
    ensures |r| <= |decisions|
  {
    if decisions == [] then []
    else OfMarket(decisions[..|decisions| - 1], m) + (if decisions[|decisions| - 1].market == Some(m) then [decisions[|decisions| - 1]] else [])
  }

  /** The filter keeps the input order: filtering a concatenation is concatenating the filtered parts. */
  lemma {:induction false} OfMarketAppend(a: seq<ShadowDecision>, b: seq<ShadowDecision>, m: string)
    ensures OfMarket(a + b, m) == OfMarket(a, m) + OfMarket(b, m)
    decreases |b|
  {
    if b == [] {
      assert a + b == a;
    } else {
      var b' := b[..|b| - 1];
      assert (a + b)[..|a + b| - 1] == a + b';
      assert (a + b)[|a + b| - 1] == b[|b| - 1];
      OfMarketAppend(a, b', m);
    }
  }

  /** The result for the key `None` (all decisions) or `Some(m)` (the decisions of market `m`). */
  function BestFor(bands: seq<string>, alpha: real, decisions: seq<ShadowDecision>, grid: seq<real>, key: Option<string>): BestThresholds
    requires bands != [] && grid != []
  {
    var subset := if key.None? then decisions else OfMarket(decisions, key.value);
    Best(bands, Candidates(bands, alpha, subset, grid))
  }

  /** A key of the result: `None` for all decisions, or one of the listed markets. */
  predicate IsResultKey(k: Option<string>, markets: seq<string>) {
    k.None? || k.value in markets
  }

  /**
   * The result of the search over `markets` when there are stale bands:
   * exactly the result keys, each holding the best of its decisions.
   */
  ghost predicate Complete(results: map<Option<string>, BestThresholds>, bands: seq<string>, alpha: real,
                           decisions: seq<ShadowDecision>, grid: seq<real>, markets: seq<string>)
    requires bands != [] && grid != []
  {
    (forall k :: k in results <==> IsResultKey(k, markets)) &&
    forall k :: k in results ==> results[k] == BestFor(bands, alpha, decisions, grid, k)
  }

  /**
   * `grid_search_best_thresholds`: the overall best under `None`, and with a
   * list of markets the best over each market's own decisions; no stale
   * bands give no candidates and so no results.
   */
  method GridSearchBestThresholds(bands: seq<string>, alpha: real, decisions: seq<ShadowDecision>, markets: Option<seq<string>>)
    returns (results: map<Option<string>, BestThresholds>)
    ensures bands == [] ==> results == map[]
    ensures bands != [] ==> Complete(results, bands, alpha, decisions, EffGrid(), markets.GetOr([]))
  {
    results := SearchGrid(bands, alpha, decisions, EffGrid(), markets);
  }

  /** `grid_search_best_thresholds` over any non-empty confidence grid. */
  method SearchGrid(bands: seq<string>, alpha: real, decisions: seq<ShadowDecision>, grid: seq<real>, markets: Option<seq<string>>)
    returns (results: map<Option<string>, BestThresholds>)
    requires grid != []
    ensures bands == [] ==> results == map[]
    ensures bands != [] ==> Complete(results, bands, alpha, decisions, grid, markets.GetOr([]))
  {
    results := RunGrid(bands, alpha, decisions, None, grid, map[]);
    if bands != [] {
      OverallComplete(results, bands, alpha, decisions, grid);
    }
    if markets.Some? {
      results := PerMarket(bands, alpha, decisions, grid, markets.value, results);
    }
  }

  /** After the overall run, the result is complete for no markets. */
  lemma OverallComplete(results: map<Option<string>, BestThresholds>, bands: seq<string>, alpha: real,
                        decisions: seq<ShadowDecision>, grid: seq<real>)
    requires bands != [] && grid != []
    requires results == map[][None := Best(bands, Candidates(bands, alpha, decisions, grid))]
    ensures Complete(results, bands, alpha, decisions, grid, [])
  {
  }

  /** Storing the best of one more market keeps the result complete for the markets so far. */
  lemma StepComplete(results: map<Option<string>, BestThresholds>, bands: seq<string>, alpha: real,
                     decisions: seq<ShadowDecision>, grid: seq<real>, ms: seq<string>, i: nat)
    requires bands != [] && grid != [] && i < |ms|
    requires Complete(results, bands, alpha, decisions, grid, ms[..i])
    ensures Complete(results[Some(ms[i]) := BestFor(bands, alpha, decisions, grid, Some(ms[i]))],
                     bands, alpha, decisions, grid, ms[..i + 1])
  {
    var key := Some(ms[i]);
    var updated := results[key := BestFor(bands, alpha, decisions, grid, key)];
    KeysStep(results, updated, ms, i, updated[key]);
    forall k | k in updated ensures updated[k] == BestFor(bands, alpha, decisions, grid, k) {
      if k != key {
        assert updated[k] == results[k];
      }
    }
  }

  /** The result for a market's key is the best of that market's candidates. */
  lemma BestForMarket(bands: seq<string>, alpha: real, decisions: seq<ShadowDecision>, grid: seq<real>, m: string)
    requires bands != [] && grid != []
    ensures BestFor(bands, alpha, decisions, grid, Some(m)) == Best(bands, Candidates(bands, alpha, OfMarket(decisions, m), grid))
  {
  }

  /** Storing under the next market's key extends the keys by that market. */
  lemma KeysStep<V>(results: map<Option<string>, V>, updated: map<Option<string>, V>, ms: seq<string>, i: nat, v: V)
    requires i < |ms| && updated == results[Some(ms[i]) := v]
    requires forall k :: k in results <==> IsResultKey(k, ms[..i])
    ensures forall k :: k in updated <==> IsResultKey(k, ms[..i + 1])
  {
    assert ms[..i + 1] == ms[..i] + [ms[i]];
  }

  /** The loop of `grid_search_best_thresholds` over the markets. */
  method PerMarket(bands: seq<string>, alpha: real, decisions: seq<ShadowDecision>, grid: seq<real>, ms: seq<string>,
                   overall: map<Option<string>, BestThresholds>)
    returns (results: map<Option<string>, BestThresholds>)
    requires grid != []
    requires bands == [] ==> overall == map[]
    requires bands != [] ==> Complete(overall, bands, alpha, decisions, grid, [])
    ensures bands == [] ==> results == map[]
    ensures bands != [] ==> Complete(results, bands, alpha, decisions, grid, ms)
  {
    results := overall;
    var i := 0;
    assert ms[..0] == [];
    while i < |ms|
      invariant 0 <= i <= |ms|
      invariant bands == [] ==> results == map[]
      invariant bands != [] ==> Complete(results, bands, alpha, decisions, grid, ms[..i])
    {
      if bands != [] {
        StepComplete(results, bands, alpha, decisions, grid, ms, i);
        BestForMarket(bands, alpha, decisions, grid, ms[i]);
      }
      var subset := OfMarket(decisions, ms[i]);
      results := RunGrid(bands, alpha, subset, Some(ms[i]), grid, results);
      i := i + 1;
    }
    assert ms[..i] == ms;
  }
}
