# Verified model of the betting-assistant backend helpers and desktop shell

This project models, in Dafny, the deterministic core of a football prediction
assistant: the Python backend's decision and reporting helpers and the Rust
glue of its desktop shell. It proves properties of that model. The modules
follow the program's files:

- `MarketResolver`, `Evaluator`: judging predicted picks against a final score.
  The resolver gives SUCCESS, FAILURE or NEUTRAL per market; the evaluator
  gives HIT, MISS or N/A.
- `Tiers`, `BurnIn`, `Gate`, `ActivationEnv`: the activation gate.
  - the kill switch and the enabling switches;
  - connector and market whitelists, confidence floors and match caps per tier;
  - burn-in mode and the deterministic rollout subset;
  - the daily activation cap counted from the reports index;
  - the live-shadow guardrails taken from recent runs.
- `GridSearch`: the refusal-threshold grid search of the refusal shadow.
  It covers the refuse rule, the rates and the tie-break order.
- `ReasonDecay`: the piecewise reason-decay fit. It produces a penalty per age
  band that is clamped, carried forward over thin bands and made non-increasing.
- `Uncertainty`: the uncertainty signals of a decision and the two-of-three
  refusal rule.
- `TunerConstraints`: the constraint passes over the tuner's proposals.
  - freeze, step cap and total cap;
  - market and parameter-group budgets;
  - the top deltas.
- `InjuryResolver`, `InjuryFeatures`: injury claims are filtered, grouped per
  (team, player) and resolved with conflict detection; the features are then
  counted over the resolutions.
- `IndexStore`, `Retention`: the reports index and its retention.
  - `load_index` normalisation and the `append_*` operations on a mutable index;
  - retention pruning and the safe deletion of artifacts.
- `GoNoGo`: the Go/No-Go decision derived from a graduation result.
- `LiveShadowGuardrails`: live and recorded analyses compared market by market,
  and the alerts raised on those comparisons.
- `StalenessAggregate`: staleness metrics counted per (market, reason code,
  age band).
- `AnalyzerGates`: the hard gates of analyzer v2 and its downgrade to NO_BET.
- `DesktopShell`: the desktop shell.
  - the single-instance lock file with its 60-second window;
  - the application log;
  - the commands offered to the UI.
  The file system is a map from path to node.
- Shared helpers:
  - `Wrappers`: `Option` and `Result`;
  - `Json`: the JSON values the code reads and Python's `dict.get`;
  - `Text`: the Python string operations the code uses: `strip` over Python's
    whitespace, `upper` and `lower` for every character whose Python case
    mapping is ASCII, `split` and string order;
  - `Rounding`: Python's `round`, to an integer or to four or six places;
  - `Sorting`: Python's stable `sorted` by a key, proved sorted and a permutation.

Modelling conventions:

- **Inputs become parameters.** Environment variables are fields of a
  configuration value. The clock, the process id and helpers whose code lies
  outside these files are parameters. Those helpers are the age-band lookup,
  the evidence-age resolver, the evidence-quality score and the consensus
  quality.
- **Numbers.** Confidences and rates are `real`. A Python exception is an
  `Err` of a `Result`.
- **Set iteration.** Where Python iterates over a set, the model picks the next
  element with `:|`, so the proofs cover every iteration order.

The desktop shell does not spawn, poll or restart the backend.
`is_backend_ready` is a constant `true` (app/frontend/src-tauri/src/lib.rs:1-2,
85-88). The model therefore has no supervisor state.

Where the code and its own comments disagree, the model follows the code. The
docstring of `cleanup_reports` (backend/limits/retention.py:85) gives the
dry-run default as true, but `_dry_run_default` (lines 26-27) is false when
REPORT_RETENTION_DRY_RUN is unset, and `Retention.DryRunDefault` is too.

## Model

| member | source | states |
|---|---|---|
| MarketResolver.Result1X2 | backend/evaluation/market_resolver.py:62-68 | HOME exactly when the home side scored more, AWAY exactly when it scored fewer, DRAW exactly on equal scores |
| MarketResolver.ResultOverUnder25 | backend/evaluation/market_resolver.py:71-74 | OVER exactly when at least three goals were scored, UNDER otherwise |
| MarketResolver.ResultGgNg | backend/evaluation/market_resolver.py:77-81 | GG exactly when both sides scored |
| MarketResolver.MarketOutcome | backend/evaluation/market_resolver.py:106-130 | NO_PREDICTION and NO_BET are neutral; any other pick succeeds exactly when it equals the actual result and is never neutral |
| MarketResolver.ResolveMarkets | backend/evaluation/market_resolver.py:84-136 | a status other than FINAL makes all three markets neutral; on FINAL each market is judged against its own computed result |
| MarketResolver.ExactlyOne1X2PickSucceeds | backend/evaluation/market_resolver.py:102-112 | on a final score exactly one of HOME, DRAW, AWAY succeeds |
| MarketResolver.UnknownPickFails | backend/evaluation/market_resolver.py:109-112 | a 1X2 pick outside the vocabulary that is not a no-pick marker fails on a final score |
| Evaluator.FinalResult1X2 | backend/evaluation/evaluator.py:23-29 | "1" exactly for a home win, "2" for an away win, "X" for a draw |
| Evaluator.FinalResultOu25 | backend/evaluation/evaluator.py:32-35 | OVER exactly when the total is at least three |
| Evaluator.FinalResultGgNg | backend/evaluation/evaluator.py:38-42 | GG exactly when both scores are at least one |
| Evaluator.DecisionTo1X2 | backend/evaluation/evaluator.py:45-53 | HOME, AWAY, DRAW map to "1", "2", "X" and each code comes only from its decision; anything else has no code |
| Evaluator.EvaluateMarket | backend/evaluation/evaluator.py:56-83 | NO_BET and unknown markets are N/A; for each market a decision outside its vocabulary is N/A, and an in-vocabulary one is a hit exactly when it matches the actual result |
| Evaluator.Evaluate | backend/evaluation/evaluator.py:116-155 | the results cover the three markets plus the prediction's own; only that market is evaluated, against the final 1X2, over/under 2.5 and both-teams-score results of the score, the others are N/A; the status is PENDING or EVALUATED, PENDING exactly when it is N/A, which is exactly when nothing is persisted; the persisted hit flag is the hit |
| Evaluator.AgreesWithResolver1X2 | backend/evaluation/evaluator.py:23-71 | on a final score a 1X2 hit of the evaluator is exactly a success of the market resolver |
| Evaluator.AgreesWithResolverGoals | backend/evaluation/evaluator.py:32-81 | the same agreement for over/under 2.5 and GG/NG |
| Evaluator.NoBetPending | backend/evaluation/evaluator.py:64-65 | a NO_BET decision is PENDING with every market N/A |
| GoNoGo.ComputeGoNoGo | backend/graduation/go_no_go/compute.py:59-89 | schema version 1; GO exactly when graduation passed, then no failed criteria and the boundary warnings; NO_GO with the failed criteria and no warnings; a missing decision time is now |
| GoNoGo.FirstPresent | backend/graduation/go_no_go/compute.py:36-55 | the branch taken is a field of the chain present in the details; none only when no field of the chain is present |
| GoNoGo.FailedCriteriaAppend | backend/graduation/go_no_go/compute.py:16-22 | the failed list of a concatenation is the concatenation of the failed lists, so the criteria order is kept |
| GoNoGo.FailedCriteriaMembers | backend/graduation/go_no_go/compute.py:19-21 | an entry is in the failed list exactly when some criterion did not pass and the entry is its name and details |
| GoNoGo.FailedCriteriaEmpty | backend/graduation/go_no_go/compute.py:16-22 | the failed list is empty exactly when every criterion passed |
| GoNoGo.WarningOfFacts | backend/graduation/go_no_go/compute.py:31-55 | a criterion warns exactly when it passed, has min_required and a chain field, and that field equals min_required; the warning names the criterion and quotes min_required |
| GoNoGo.FixturesFieldDecides | backend/graduation/go_no_go/compute.py:36-40 | with the fixtures count present, only that count is compared (the chain is an elif), and the noun is "fixtures" |
| GoNoGo.WarningsFacts | backend/graduation/go_no_go/compute.py:25-56 | at most one warning per criterion; every warning comes from a criterion and every warning-producing criterion contributes one |
| GoNoGo.FailedGiveNoWarnings | backend/graduation/go_no_go/compute.py:32-33 | criteria that failed never produce warnings |
| Uncertainty.AgeBand | backend/modeling/uncertainty/compute.py:45 | a missing or empty age band is the youngest, "0-30m"; any other is kept |
| Uncertainty.RowsForRun | backend/modeling/uncertainty/compute.py:26-28 | exactly the rows of the decision's run |
| Uncertainty.ShadowIndexIsLastRow | backend/modeling/uncertainty/compute.py:64-68 | a (market, reason code) is indexed exactly when some row has it, and it maps to the last such row |
| Uncertainty.IndexShadowRows | backend/modeling/uncertainty/compute.py:64-68 | the loop builds exactly the last-row index |
| Uncertainty.ComputeUncertaintyProfile | backend/modeling/uncertainty/compute.py:31-106 | the run id is kept; three signals in order: stale exactly when the band is a stale band, low confidence exactly when some code's shadow row has a numeric penalised confidence below the threshold, low support exactly when some code's stored fit has no supported band |
| Uncertainty.ScanReasonCodes | backend/modeling/uncertainty/compute.py:70-93 | the nested loop over the sorted markets and their codes sets each flag exactly when some code of the decision meets its condition |
| Uncertainty.MarketStep | backend/modeling/uncertainty/compute.py:72-73 | one more market adds exactly the facts of its reason codes |
| Uncertainty.Triggered | backend/modeling/uncertainty/compute.py:116 | exactly the triggered signals, never more than the signals |
| Uncertainty.WouldRefuse | backend/modeling/uncertainty/compute.py:109-124 | refusal exactly when at least two signals fired (the stale-and-low-confidence rule is subsumed) |
| Uncertainty.TwoKindsTwoSignals | backend/modeling/uncertainty/compute.py:118-121 | a stale and a low-confidence signal together are at least two signals, which makes the first rule redundant |
| Uncertainty.RefuseOnTwoOfThree | backend/modeling/uncertainty/compute.py:109-124 | on a three-signal profile, refusal exactly when two of the three fired |
| Uncertainty.NoShadowNoLowConfidence | backend/modeling/uncertainty/compute.py:79-88 | without shadow rows for the run the low-confidence signal never fires |
| Uncertainty.FittedLowSupport | backend/modeling/uncertainty/compute.py:91-93 | a fit produced by the reason-decay fit is low support exactly when no band reached the minimum support |
| ReasonDecay.Clamp | backend/modeling/reason_decay/fit_piecewise.py:24-30 | below the range gives the low end, above gives the high end, inside is unchanged; on a proper range the result lies in it |
| ReasonDecay.IndexOf | backend/modeling/reason_decay/fit_piecewise.py:36 | the first position of the element, or the length exactly when it is absent |
| ReasonDecay.BandIndex | backend/modeling/reason_decay/fit_piecewise.py:33-38 | always a valid band position; a known band's own position, an unknown band the youngest (0) |
| ReasonDecay.GroupsPartitionRows | backend/modeling/reason_decay/fit_piecewise.py:48-55 | a group holds exactly the rows with its (market, reason code), and the keys are exactly the rows' keys |
| ReasonDecay.GroupRows | backend/modeling/reason_decay/fit_piecewise.py:41-58 | distinct keys, exactly those of the rows; each group is that key's rows stably sorted by band |
| ReasonDecay.Buckets | backend/modeling/reason_decay/fit_piecewise.py:49-55 | the first loop puts every row, in input order, in its key's list |
| ReasonDecay.BucketStep | backend/modeling/reason_decay/fit_piecewise.py:53-55 | one more row extends its own group and the key set and no other group |
| ReasonDecay.SortBuckets | backend/modeling/reason_decay/fit_piecewise.py:56-57 | the second loop replaces each list by its sort by band |
| ReasonDecay.LastAt | backend/modeling/reason_decay/fit_piecewise.py:83-89 | the row whose values band b keeps is a row of that band; none exactly when no row has that band |
| ReasonDecay.BandTables | backend/modeling/reason_decay/fit_piecewise.py:80-89 | the arrays are the per-band totals and accuracies of the last row in each band |
| ReasonDecay.FirstSupported | backend/modeling/reason_decay/fit_piecewise.py:93-96 | the first band from a position on with support at least MIN_SUPPORT and a known accuracy; no earlier band qualifies |
| ReasonDecay.BaselineIsYoungestSupported | backend/modeling/reason_decay/fit_piecewise.py:91-98 | the baseline is the youngest supported band's accuracy, or 1.0 when no band is supported |
| ReasonDecay.FirstSupportedAt | backend/modeling/reason_decay/fit_piecewise.py:93-96 | the band before which none qualifies and which qualifies is the first supported one |
| ReasonDecay.BaselineAccuracy | backend/modeling/reason_decay/fit_piecewise.py:91-98 | the loop with its early exit computes the baseline |
| ReasonDecay.RawPenalties | backend/modeling/reason_decay/fit_piecewise.py:100-111 | one raw penalty per band |
| ReasonDecay.RawAt | backend/modeling/reason_decay/fit_piecewise.py:102-111 | an unsupported band carries the previous penalty, or 1.0 as the youngest; a supported band has its ideal penalty |
| ReasonDecay.RawInUnit | backend/modeling/reason_decay/fit_piecewise.py:108-110 | every raw penalty lies in [0, 1] |
| ReasonDecay.RawPenaltyArray | backend/modeling/reason_decay/fit_piecewise.py:100-111 | the loop appends exactly the raw penalties |
| ReasonDecay.RunningMin | backend/modeling/reason_decay/fit_piecewise.py:113-116 | one entry per band |
| ReasonDecay.RunningMinNonIncreasing | backend/modeling/reason_decay/fit_piecewise.py:113-116 | the enforced penalties never increase with age, never exceed the raw ones, and keep the youngest |
| ReasonDecay.RunningMinFrom | backend/modeling/reason_decay/fit_piecewise.py:113-116 | the enforcement keeps every penalty inside the bounds of the raw ones |
| ReasonDecay.RunningMinKeepsNonIncreasing | backend/modeling/reason_decay/fit_piecewise.py:113-116 | penalties that already never increase are left unchanged |
| ReasonDecay.RunningMinIdempotent | backend/modeling/reason_decay/fit_piecewise.py:113-116 | the enforcement is idempotent |
| ReasonDecay.RunningMinAt | backend/modeling/reason_decay/fit_piecewise.py:115-116 | each enforced entry is the smaller of its raw value and the enforced entry before it |
| ReasonDecay.EnforceNonIncreasing | backend/modeling/reason_decay/fit_piecewise.py:113-116 | the in-place pass leaves the running minimum of the old array |
| ReasonDecay.CountSupported | backend/modeling/reason_decay/fit_piecewise.py:119 | at most the number of bands; zero exactly when every band is below MIN_SUPPORT |
| ReasonDecay.SquaredSum | backend/modeling/reason_decay/fit_piecewise.py:122-133 | the sum of squared distances is never negative |
| ReasonDecay.Mse | backend/modeling/reason_decay/fit_piecewise.py:134-135 | no error exactly when no band is supported; otherwise a non-negative mean |
| ReasonDecay.ReportedMse | backend/modeling/reason_decay/fit_piecewise.py:141 | `round(mse, 6)`: None exactly when there is no error, otherwise within half of the sixth place of it and never negative for a non-negative error |
| ReasonDecay.MseVsBaseline | backend/modeling/reason_decay/fit_piecewise.py:122-135 | the loop over the supported bands computes that mean |
| ReasonDecay.FitGroup | backend/modeling/reason_decay/fit_piecewise.py:80-153 | the body of the per-group loop builds the group's parameters |
| ReasonDecay.GroupFit | backend/modeling/reason_decay/fit_piecewise.py:100-153 | seven bands and penalties, each penalty in [0, 1] and never increasing with age, coverage counts equal to the band totals, an error present exactly when some band is supported, and never negative |
| ReasonDecay.UnsupportedCarries | backend/modeling/reason_decay/fit_piecewise.py:71-116 | after enforcement, an unsupported band has the penalty of the band before it (1.0 as the youngest) and a supported band is at most its ideal penalty |
| ReasonDecay.Fitted | backend/modeling/reason_decay/fit_piecewise.py:144-153 | the parameters fitted for a group carry its market and reason code |
| ReasonDecay.FitPiecewiseDecay | backend/modeling/reason_decay/fit_piecewise.py:61-157 | one parameter set per (market, reason code) of the rows, no other, each fitted from that group's rows, strictly ordered by (market, reason code) |
| ReasonDecay.GroupsInOrder | backend/modeling/reason_decay/fit_piecewise.py:155-156 | parameter sets listed in the strict order of their groups are strictly sorted by (market, reason code), so the final sort changes nothing |
| ReasonDecay.FittedCoversKeys | backend/modeling/reason_decay/fit_piecewise.py:144-153 | every key of the rows has its set and no other set is produced |
| ReasonDecay.KeyOrder | backend/modeling/reason_decay/fit_piecewise.py:79 | sorting the distinct group keys orders them strictly and keeps them all |
| ReasonDecay.FitEach | backend/modeling/reason_decay/fit_piecewise.py:79-153 | the loop over the sorted groups fits each group in turn, each parameter set carrying its own group |
| GridSearch.EffGrid | backend/tests/unit/test_refusal_shadow_i3.py:109-116 | seventeen thresholds from 0.10 to 0.90, 0.05 apart, as the unit test of the grid states |
| GridSearch.BandOrder | backend/optimization/refusal_shadow/grid_search.py:21-26 | a known band's position (its last occurrence, as the dict comprehension keeps); an unknown band is past every known one |
| GridSearch.UnknownBandStalest | backend/optimization/refusal_shadow/grid_search.py:25-26 | an unknown band counts as staler than every listed band |
| GridSearch.RefusalMonotone | backend/optimization/refusal_shadow/grid_search.py:29-40 | a decision refused at some thresholds is still refused with a higher confidence threshold and a less stale band threshold |
| GridSearch.RefusedMask | backend/optimization/refusal_shadow/grid_search.py:75 | one flag per decision, set exactly when the refuse rule holds for it |
| GridSearch.CountTrue | backend/optimization/refusal_shadow/grid_search.py:59-76 | the refused count is at most the number of flags |
| GridSearch.CountOutcome | backend/optimization/refusal_shadow/grid_search.py:50-56 | at most one count per position visited |
| GridSearch.Ratio | backend/optimization/refusal_shadow/grid_search.py:57-58 | `round(s / (s + f), 4)`: in [0, 1], within half of the fourth place of the exact ratio, 0 with neither success nor failure |
| GridSearch.Rate | backend/optimization/refusal_shadow/grid_search.py:77 | the refusal rate `round(count / n, 4)` lies in [0, 1] and within half of the fourth place of the exact rate |
| GridSearch.Safety | backend/optimization/refusal_shadow/grid_search.py:79 | the safety score lies within half of the fourth place of accuracy minus alpha times the refusal rate |
| GridSearch.AccuracyOnNonRefused | backend/optimization/refusal_shadow/grid_search.py:43-59 | successes and failures counted over the zipped non-refused pairs, their ratio, and the non-refused count all decisions minus refused flags |
| GridSearch.Evaluation | backend/optimization/refusal_shadow/grid_search.py:62-80 | the candidate keeps its thresholds; support total is every decision, split into refused and non-refused; the refused count is the number of decisions `would_refuse` flags, the success and failure counts are the SUCCESS and FAILURE outcomes among the unflagged ones, and together they stay within the non-refused; the refusal rate and the accuracy are the rounded rates of those counts; safety is accuracy minus alpha times the refusal rate, rounded to four places; with no decisions every count and rate is zero |
| GridSearch.OutcomesAmongNonRefused | backend/optimization/refusal_shadow/grid_search.py:50-56 | successes and failures come from non-refused decisions only |
| GridSearch.EvaluateThresholds | backend/optimization/refusal_shadow/grid_search.py:62-80 | the method computes that candidate |
| GridSearch.Row | backend/optimization/refusal_shadow/grid_search.py:140-157 | one candidate per stale band |
| GridSearch.Candidates | backend/optimization/refusal_shadow/grid_search.py:138-157 | no candidate exactly when either the confidence grid or the stale bands are empty |
| GridSearch.CandidatesLength | backend/optimization/refusal_shadow/grid_search.py:138-157 | one candidate per (confidence threshold, stale band) pair |
| GridSearch.BestIsMinimal | backend/optimization/refusal_shadow/grid_search.py:159-163 | the best is a candidate and no candidate has a smaller tie-break key, the key being built from the rounded scores |
| GridSearch.GridCandidates | backend/optimization/refusal_shadow/grid_search.py:138-157 | the nested loops build exactly the candidates, in order |
| GridSearch.RowCandidates | backend/optimization/refusal_shadow/grid_search.py:140-157 | the inner loop appends exactly one threshold's row of candidates, in band order |
| GridSearch.RunGrid | backend/optimization/refusal_shadow/grid_search.py:132-164 | without candidates the results are unchanged; otherwise only the market key is set, to the best candidate |
| GridSearch.OfMarket | backend/optimization/refusal_shadow/grid_search.py:126 | a decision is kept exactly when it is in the input and belongs to that market; never more than the input |
| GridSearch.OfMarketAppend | backend/optimization/refusal_shadow/grid_search.py:126 | the filter keeps the input order: filtering a concatenation concatenates the filtered parts |
| GridSearch.GridSearchBestThresholds | backend/optimization/refusal_shadow/grid_search.py:107-129 | with stale bands, exactly the key None and each listed market, each holding the best over its decisions; without stale bands, no result |
| GridSearch.SearchGrid | backend/optimization/refusal_shadow/grid_search.py:117-129 | the same over any non-empty confidence grid |
| GridSearch.OverallComplete | backend/optimization/refusal_shadow/grid_search.py:121 | after the overall run the result is complete for no markets |
| GridSearch.StepComplete | backend/optimization/refusal_shadow/grid_search.py:125-127 | storing one more market's best keeps the result complete for the markets so far |
| GridSearch.PerMarket | backend/optimization/refusal_shadow/grid_search.py:124-127 | the market loop leaves the result complete for all listed markets |
| TunerConstraints.DefaultsNonNegative | backend/policy/tuner_constraints.py:11-38 | the default caps and budgets are all non-negative |
| TunerConstraints.PathMarket | backend/policy/tuner_constraints.py:41-48 | a market is found only for a path starting with "markets." |
| TunerConstraints.PathParamGroup | backend/policy/tuner_constraints.py:51-57 | always one of thresholds, dampening, other |
| TunerConstraints.InitialItem | backend/policy/tuner_constraints.py:79-90 | path, old value and reason are kept; a frozen path is reset to its old value with no delta; a numeric proposal gets new minus old as its delta |
| TunerConstraints.BuildItems | backend/policy/tuner_constraints.py:78-90 | the loop makes one item per proposal, in order |
| TunerConstraints.SortedItemsFacts | backend/policy/tuner_constraints.py:93 | the sort by path is ordered and a permutation of the built items, which stay settled |
| TunerConstraints.Cap | backend/policy/tuner_constraints.py:105 | with a non-negative cap the capped delta is within the cap and no larger than the delta, and a delta within the cap is unchanged |
| TunerConstraints.CountClamped | backend/policy/tuner_constraints.py:96-107 | at most one clamp per item visited |
| TunerConstraints.ClampedMeansOverCap | backend/policy/tuner_constraints.py:98-107 | an item is counted as clamped exactly when it is live and its delta exceeds the cap |
| TunerConstraints.StepCap | backend/policy/tuner_constraints.py:95-109 | the in-place pass leaves the step-capped items and counts the clamped ones |
| TunerConstraints.StepCapFacts | backend/policy/tuner_constraints.py:95-109 | after pass 1 every live value is its old value plus its delta, and with a non-negative cap every delta is within it and none grew |
| TunerConstraints.AbsSum | backend/policy/tuner_constraints.py:112 | the total change is never negative |
| TunerConstraints.TotalCap | backend/policy/tuner_constraints.py:111-126 | scaled down exactly when the total change exceeds the cap and is positive |
| TunerConstraints.TotalCapInPlace | backend/policy/tuner_constraints.py:111-126 | the in-place pass leaves those items and that flag |
| TunerConstraints.TotalCapFacts | backend/policy/tuner_constraints.py:114-126 | pass 2 keeps every value consistent with its delta and, with a non-negative cap, shrinks deltas and leaves the total within the cap |
| TunerConstraints.AbsSumScaled | backend/policy/tuner_constraints.py:115-124 | scaling every live delta by a non-negative factor scales the total change by it |
| TunerConstraints.MarketIndices | backend/policy/tuner_constraints.py:145-150 | the increasing positions whose path names market m, and only those |
| TunerConstraints.GroupIndices | backend/policy/tuner_constraints.py:145-152 | the increasing positions whose path is in parameter group g, and only those |
| TunerConstraints.ScaleGroup | backend/policy/tuner_constraints.py:129-143 | the item list keeps its length |
| TunerConstraints.ScaleGroupInPlace | backend/policy/tuner_constraints.py:129-143 | the in-place helper leaves the group-scaled items |
| TunerConstraints.ScaleGroupFacts | backend/policy/tuner_constraints.py:129-143 | scaling a group keeps values consistent and, with a non-negative budget, shrinks deltas and brings the group within its budget |
| TunerConstraints.GroupAbsScaled | backend/policy/tuner_constraints.py:130-141 | scaling the group's items by a non-negative factor scales any sub-group's change by it |
| TunerConstraints.IndexGroups | backend/policy/tuner_constraints.py:145-152 | the loop builds exactly the market and parameter-group index tables |
| TunerConstraints.ApplyMarketBudgets | backend/policy/tuner_constraints.py:154-157 | the loop over the markets in order applies each market budget |
| TunerConstraints.ApplyGroupBudgets | backend/policy/tuner_constraints.py:158-161 | the loop over thresholds then dampening applies each group budget |
| TunerConstraints.MarketBudgetsFacts | backend/policy/tuner_constraints.py:154-157 | after the market budgets, every applied budget holds, including earlier ones, and no delta grew |
| TunerConstraints.GroupBudgetsFacts | backend/policy/tuner_constraints.py:158-161 | after the group budgets, every applied budget holds and no delta grew |
| TunerConstraints.NonZeroDeltas | backend/policy/tuner_constraints.py:166 | exactly the (path, delta) pairs of the items with a non-zero delta |
| TunerConstraints.TopDeltas | backend/policy/tuner_constraints.py:166-168 | at most five entries, each the path of one of the largest changes with its delta rounded to within half of the fourth place |
| TunerConstraints.TopDeltasOrdered | backend/policy/tuner_constraints.py:166-168 | the first five (or all) non-zero changes, largest first, each reported with its delta rounded to four places |
| TunerConstraints.ApplyConstraints | backend/policy/tuner_constraints.py:60-177 | the constrained diffs are the items after the three passes; the summary carries the scaled-down flag of pass 2, the clamp count of pass 1 and the top deltas |
| TunerConstraints.ConstrainedShape | backend/policy/tuner_constraints.py:93-163 | the passes keep every proposal in path order, and each live value equals old value plus delta |
| TunerConstraints.FrozenKeepOldValue | backend/policy/tuner_constraints.py:80-137 | a frozen path keeps its old value with no delta; every other numeric proposal moves by exactly its delta |
| TunerConstraints.CapsHold | backend/policy/tuner_constraints.py:95-161 | with non-negative limits every final delta is within the step cap and the total change within the run cap |
| TunerConstraints.BudgetsHold | backend/policy/tuner_constraints.py:154-161 | with non-negative limits every budgeted market and parameter group ends within its budget |
| InjuryFeatures.WeightValues | backend/injury_shadow/features.py:14-33 | weights lie in [0, 1]; a status outside the table weighs 0.25; weight 1 exactly for OUT and SUSPENDED, 0 exactly for AVAILABLE (after strip and upper-casing) |
| InjuryFeatures.Clamp | backend/injury_shadow/features.py:63 | the clamped confidence lies in [0, 1] and a confidence already in range is unchanged |
| InjuryFeatures.BucketStatuses | backend/injury_shadow/features.py:66-74 | each counter takes exactly its own statuses (UNKNOWN also the empty status); AVAILABLE is counted nowhere |
| InjuryFeatures.WeightOfRecord | backend/injury_shadow/features.py:33-64 | normalising an already normalised status again changes no weight |
| InjuryFeatures.Prefix | backend/injury_shadow/features.py:92 | Python's slice `[:k]`: a non-negative k keeps the first k, a negative one drops that many from the end |
| InjuryFeatures.StatusWeight | backend/injury_shadow/features.py:64 | the weight of the record's status |
| InjuryFeatures.Classify | backend/injury_shadow/features.py:66-73 | the if/elif chain picks the bucket of the status |
| InjuryFeatures.Tally | backend/injury_shadow/features.py:61-73 | one record adds one to its own counter and its weighted uncertainty to the sum |
| InjuryFeatures.Accumulate | backend/injury_shadow/features.py:54-74 | the loop leaves each counter at its number of records and the sum at the total uncertainty |
| InjuryFeatures.BuildKeyItems | backend/injury_shadow/features.py:91-98 | one key item per ranked record, in rank order |
| InjuryFeatures.ComputeFeatures | backend/injury_shadow/features.py:36-107 | the four counts, the uncertainty sum rounded to four places, and the key items of the top-k ranked records |
| InjuryFeatures.CountsPartition | backend/injury_shadow/features.py:66-74 | the four counters and the uncounted records add up to the number of records: no record is counted twice |
| InjuryFeatures.TableWeightValues | backend/injury_shadow/features.py:14-21 | a table weight is 0, 0.25, 0.5 or 1 |
| InjuryFeatures.ContributionBounds | backend/injury_shadow/features.py:65 | a weight discounted by a confidence in [0, 1] stays between 0 and the weight |
| InjuryFeatures.UncertaintyOfBounds | backend/injury_shadow/features.py:62-65 | one record adds between 0 and 1 |
| InjuryFeatures.UncertaintyBounds | backend/injury_shadow/features.py:58-65 | the uncertainty sum is between 0 and the number of records |
| InjuryFeatures.UncertaintyIndexBounds | backend/injury_shadow/features.py:76 | the rounded uncertainty index stays between 0 and the number of records |
| InjuryFeatures.KeyItemFields | backend/injury_shadow/features.py:93-98 | a key item has a non-blank status, the record's player and id, and its raw confidence rounded to within half of the fourth place |
| InjuryFeatures.TopRecordsLength | backend/injury_shadow/features.py:92 | the number of key items is min(top_k, n) for a non-negative top_k, or n + top_k (at least 0) for a negative one |
| InjuryFeatures.TopRecordsRanked | backend/injury_shadow/features.py:79-92 | the key items are a prefix of the records stably sorted by weight descending, confidence, player, id, and none ranks after a record left out |
| InjuryResolver.ClaimStatusMapping | backend/ingestion/injury_news_resolver.py:39-42 | every claim status lands on a resolved status; OUT, SUSPENDED, UNKNOWN keep their name; QUESTIONABLE comes exactly from DOUBTFUL and AVAILABLE exactly from FIT; anything else is UNKNOWN |
| InjuryResolver.IsStale | backend/ingestion/injury_news_resolver.py:74-79 | a claim is stale exactly when the seconds since its publication (its recording time without one) exceed 3600 times the maximum age of its claim type, 168 hours for a type the policy does not list |
| InjuryResolver.StaleStaysStale | backend/ingestion/injury_news_resolver.py:74-79 | a claim stale at one instant is stale at every later instant |
| InjuryResolver.ScoreClaim | backend/ingestion/injury_news_resolver.py:82-90 | a claim of zero confidence scores zero; with a half-life of 0 there is no recency discount and the score is the source weight (0.1 for an unlisted source) times the confidence |
| InjuryResolver.MaxWeight | backend/ingestion/injury_news_resolver.py:95-96 | the largest source weight is one of the weights and none exceeds it; 1.0 without weights |
| InjuryResolver.NormalizeConfidence | backend/ingestion/injury_news_resolver.py:93-100 | the normalised confidence lies in [0, 1]; 0 without a positive weight; the plain ratio when the score is between 0 and the largest weight, 0 below, 1 above |
| InjuryResolver.ConflictBehaviorFallback | backend/ingestion/injury_news_resolver.py:115-117 | the conflict behaviour is always a resolved status; an unknown one falls back to QUESTIONABLE |
| InjuryResolver.GroupResolution | backend/ingestion/injury_news_resolver.py:103-165 | the resolution fails exactly on an empty candidate list |
| InjuryResolver.SplitByStatus | backend/ingestion/injury_news_resolver.py:143-147 | the loop collects, in order, the ids with the winner's status and those without |
| InjuryResolver.TopTwoConflict | backend/ingestion/injury_news_resolver.py:129-133 | the test on the two best-ranked candidates is true exactly when there are two, their resolved statuses differ and their scores are within the epsilon |
| InjuryResolver.ResolveGroup | backend/ingestion/injury_news_resolver.py:103-165 | the method with its early error and its two branches computes the group resolution |
| InjuryResolver.IdsByStatusPartition | backend/ingestion/injury_news_resolver.py:143-147 | the same-status and different-status ids together are exactly the ids |
| InjuryResolver.GroupResolutionIds | backend/ingestion/injury_news_resolver.py:122-162 | the winner is the top claim's id and supports; supporting and conflicting ids are sorted and together are exactly the candidates' ids |
| InjuryResolver.ConflictIds | backend/ingestion/injury_news_resolver.py:133-138 | on a conflict only the winner supports, and every other candidate conflicts |
| InjuryResolver.LatestWinsIds | backend/ingestion/injury_news_resolver.py:139-147 | without a conflict the winner supports and the others split between supporting and conflicting |
| InjuryResolver.GroupResolutionStatus | backend/ingestion/injury_news_resolver.py:129-157 | team and player are the top claim's; UNRESOLVED_CONFLICT exactly on a conflict between the top two, with the policy's conflict behaviour; otherwise the top claim's status |
| InjuryResolver.GroupResolutionMembers | backend/ingestion/injury_news_resolver.py:143-147 | without a conflict a lower claim supports exactly when it has the winner's status, and conflicts otherwise |
| InjuryResolver.MinConfidence | backend/ingestion/injury_news_resolver.py:226-227 | the threshold is the policy value (0.5 by default) clamped to [0, 1]: kept in range, 1 above it, 0 below it |
| InjuryResolver.FilterClaims | backend/ingestion/injury_news_resolver.py:228-238 | the loop keeps the confident, fresh claims in order and counts the low-confidence and stale drops |
| InjuryResolver.FilterCounts | backend/ingestion/injury_news_resolver.py:231-238 | every claim is kept or in exactly one drop counter |
| InjuryResolver.KeptMembers | backend/ingestion/injury_news_resolver.py:231-238 | a claim is kept exactly when it is confident enough and not stale |
| InjuryResolver.GroupClaims | backend/ingestion/injury_news_resolver.py:240-246 | the grouping loop builds one list per key, in insertion order, holding that key's claims |
| InjuryResolver.GroupKeysDistinct | backend/ingestion/injury_news_resolver.py:241-246 | each group key occurs once |
| InjuryResolver.GroupKeysCover | backend/ingestion/injury_news_resolver.py:241-246 | a key is a group key exactly when it has a claim |
| InjuryResolver.MembersOf | backend/ingestion/injury_news_resolver.py:242-246 | a group holds exactly the claims with its key |
| InjuryResolver.CollectOk | backend/ingestion/injury_news_resolver.py:248-262 | when every group resolves, there is one resolution per group, in order |
| InjuryResolver.ResolveKey | backend/ingestion/injury_news_resolver.py:251-259 | one step ranks a group's candidates and resolves them |
| InjuryResolver.ResolveGroups | backend/ingestion/injury_news_resolver.py:248-262 | the loop resolves the groups in order and counts the conflicts |
| InjuryResolver.ConflictCountBound | backend/ingestion/injury_news_resolver.py:260-261 | there are never more conflicts than resolutions |
| InjuryResolver.RunKeysFacts | backend/ingestion/injury_news_resolver.py:250 | the groups are resolved in strict (team, player) order, exactly the groups of kept claims |
| InjuryResolver.RunResolver | backend/ingestion/injury_news_resolver.py:217-271 | a successful run counts every claim once, as dropped for low confidence, dropped as stale or kept; the resolution count is the number of resolutions and bounds the conflict count |
| InjuryResolver.RunResolverPure | backend/ingestion/injury_news_resolver.py:217-271 | the method computes the run's resolutions and summary |
| InjuryResolver.RunResolverFacts | backend/ingestion/injury_news_resolver.py:217-271 | a run always succeeds; the drop counts and the kept count add up to the claims; one resolution per group, each the resolution of that group's ranked candidates; conflicts at most resolutions |
| InjuryResolver.RankedGroup | backend/ingestion/injury_news_resolver.py:251-259 | the ranked candidates are sorted by score, recency and id and are a permutation of the group; the resolution's team and player are the group's |
| InjuryResolver.SortedRawKeys | backend/ingestion/injury_news_resolver.py:241-250 | sorting the keys as written fails exactly when one team has a group without a player and one with; otherwise a permutation of the keys |
| InjuryResolver.RawGroupKeysHas | backend/ingestion/injury_news_resolver.py:242-246 | every kept claim's (team, player) is a key of the dict as written |
| InjuryResolver.AsWrittenRaises | backend/ingestion/injury_news_resolver.py:240-250 | two kept claims of one team, one without a player, make the run as written fail, while the run with the group key succeeds |
| LiveShadowGuardrails.ExtractDecisions | backend/reports/live_shadow_analyze_guardrails.py:19-46 | the two loops compute the extracted decisions: one per pick entry, then each named decision entry adds its market and sets its reasons |
| LiveShadowGuardrails.FromPicksKeys | backend/reports/live_shadow_analyze_guardrails.py:27-32 | the first loop makes exactly the pick markets, each with no reasons |
| LiveShadowGuardrails.FromEntriesKeys | backend/reports/live_shadow_analyze_guardrails.py:35-43 | the second loop adds exactly the markets that decision entries name |
| LiveShadowGuardrails.FromEntriesLastReasons | backend/reports/live_shadow_analyze_guardrails.py:44 | the last entry naming a market sets its reasons (`or []`) |
| LiveShadowGuardrails.FromEntriesUntouched | backend/reports/live_shadow_analyze_guardrails.py:35-44 | a market no entry names keeps what the picks gave it |
| LiveShadowGuardrails.ExtractFacts | backend/reports/live_shadow_analyze_guardrails.py:19-46 | the extracted markets are the pick markets and the markets entries name; reasons come from the last entry naming the market, and are empty when none does |
| LiveShadowGuardrails.CountWhere | backend/reports/live_shadow_analyze_guardrails.py:57-62 | a counting loop over the set, walked in any order, counts exactly the markets that satisfy the condition |
| LiveShadowGuardrails.PickChangeRate | backend/reports/live_shadow_analyze_guardrails.py:49-63 | the method computes the share of all markets whose pick differs, 0 without markets |
| LiveShadowGuardrails.ReasonChurnRate | backend/reports/live_shadow_analyze_guardrails.py:93-107 | the method computes the share of common markets whose reason sets differ, 0 without common markets |
| LiveShadowGuardrails.ConfidenceDeltas | backend/reports/live_shadow_analyze_guardrails.py:66-77 | the set is walked in some order covering every market once, with one absolute confidence delta per market in that order |
| LiveShadowGuardrails.PickChangeRateFacts | backend/reports/live_shadow_analyze_guardrails.py:49-63 | the pick change rate lies in [0, 1] and is 0 exactly when no market's pick changed |
| LiveShadowGuardrails.CoverageDropFacts | backend/reports/live_shadow_analyze_guardrails.py:80-90 | the coverage drop lies in [0, 100] and is 0 exactly when every recorded market is live |
| LiveShadowGuardrails.ReasonChurnFacts | backend/reports/live_shadow_analyze_guardrails.py:93-107 | the reason churn lies in [0, 1], is 0 without common markets, and is 0 exactly when every common market keeps its reason set |
| LiveShadowGuardrails.P95Index | backend/reports/live_shadow_analyze_guardrails.py:125 | `int(n * 0.95)` is the floor of 19n/20 and lies inside a non-empty list |
| LiveShadowGuardrails.P95Rank | backend/reports/live_shadow_analyze_guardrails.py:125 | the p95 is one of the deltas; the sorted deltas up to its index are at most it and those from it on at least it |
| LiveShadowGuardrails.P95Permutation | backend/reports/live_shadow_analyze_guardrails.py:125 | the p95 depends only on the multiset of the deltas |
| LiveShadowGuardrails.P95OrderFree | backend/reports/live_shadow_analyze_guardrails.py:72-77 | the p95 of the deltas is the same whichever order the market set is walked in |
| LiveShadowGuardrails.AlertsFacts | backend/reports/live_shadow_analyze_guardrails.py:135-158 | an alert is raised for a metric exactly when it is strictly above its threshold; at most four, all WARN, each quoting its metric and threshold, in the fixed order |
| LiveShadowGuardrails.AlertsOverShape | backend/reports/live_shadow_analyze_guardrails.py:135-158 | each alert comes from a checked code, warns, and quotes a metric above its threshold |
| LiveShadowGuardrails.AlertsOverHas | backend/reports/live_shadow_analyze_guardrails.py:135-158 | a code has an alert exactly when it is checked and its metric exceeds its threshold |
| LiveShadowGuardrails.AlertsOverOrder | backend/reports/live_shadow_analyze_guardrails.py:135-158 | checking codes in a fixed order gives alerts in that order |
| LiveShadowGuardrails.BuildAlerts | backend/reports/live_shadow_analyze_guardrails.py:129-160 | the four checks give the alerts of the metrics and thresholds |
| LiveShadowGuardrails.Evaluate | backend/reports/live_shadow_analyze_guardrails.py:110-160 | the alerts are those of the metrics of the two extracted decision sets and the policy's thresholds (defaults for missing keys), for every order the market set can be walked in |
| LiveShadowGuardrails.CompareDecisions | backend/reports/live_shadow_analyze_guardrails.py:173-211 | every market of either side appears once in each of the three maps with its parity, signed delta and reasons diff; the coverage lists are the sorted key sets and their differences |
| LiveShadowGuardrails.CompareMarkets | backend/reports/live_shadow_analyze_guardrails.py:185-204 | the loop over the sorted markets fills the three maps for exactly those markets |
| LiveShadowGuardrails.CompareStep | backend/reports/live_shadow_analyze_guardrails.py:193-204 | one turn adds the market to all three maps and keeps the others |
| LiveShadowGuardrails.ComparedStep | backend/reports/live_shadow_analyze_guardrails.py:193-204 | storing one market's entries extends the filled maps by that market |
| LiveShadowGuardrails.CompareMarket | backend/reports/live_shadow_analyze_guardrails.py:186-204 | the parity is pick equality with both picks; the delta is live minus recorded confidence rounded to four places; added and removed are the sorted one-sided reasons |
| LiveShadowGuardrails.CompareAnalysis | backend/reports/live_shadow_analyze_guardrails.py:163-211 | the comparison of the two extracted decision sets: the three per-market maps over every market of either side, and all four coverage lists sorted, being the live market set, the recorded market set and the two differences |
| StalenessAggregate.AddCodes | backend/evaluation/staleness_metrics/aggregate.py:49-59 | the innermost loop counts every reason code of a market under its (market, code, band) key, in order |
| StalenessAggregate.CountHit | backend/evaluation/staleness_metrics/aggregate.py:51-59 | a new key starts from zero counters; total, correct and neutral grow by the hit's increments, the confidence sum and count only when a confidence is present |
| StalenessAggregate.AddRecord | backend/evaluation/staleness_metrics/aggregate.py:37-59 | one record adds the hits of its three markets, all in the band of its age |
| StalenessAggregate.AddMarkets | backend/evaluation/staleness_metrics/aggregate.py:44-59 | the market loop adds the hits of each market in turn |
| StalenessAggregate.AddMarket | backend/evaluation/staleness_metrics/aggregate.py:45-59 | one market adds one hit per reason code, with SUCCESS counting as correct and anything but SUCCESS and FAILURE as neutral |
| StalenessAggregate.AggregateRecords | backend/evaluation/staleness_metrics/aggregate.py:35-59 | the outer loop builds the counters of all the hits of all records |
| StalenessAggregate.AddAllAppend | backend/evaluation/staleness_metrics/aggregate.py:36-59 | counting two runs of hits one after the other is counting their concatenation |
| StalenessAggregate.SortedKeys | backend/evaluation/staleness_metrics/aggregate.py:61 | the keys come once each, in strictly increasing (market, reason code, age band) |
| StalenessAggregate.KeyOfInjective | backend/evaluation/staleness_metrics/aggregate.py:61 | distinct keys have distinct sort keys, so sorting them is strict |
| StalenessAggregate.BuildRows | backend/evaluation/staleness_metrics/aggregate.py:60-72 | one row per sorted key, holding that key's counters and the mean confidence when there was any |
| StalenessAggregate.AggCounts | backend/evaluation/staleness_metrics/aggregate.py:52-59 | a key has counters exactly when some hit has it; its total counts those hits, its confidence count those with a confidence; correct and neutral together never exceed the total |
| StalenessAggregate.SumCountAll | backend/evaluation/staleness_metrics/aggregate.py:52-54 | the counts of distinct keys covering every hit add up to the number of hits |
| StalenessAggregate.SumTotalsOfRows | backend/evaluation/staleness_metrics/aggregate.py:60-72 | the row totals add up to the counts of the keys listed |
| StalenessAggregate.CodeHitsFacts | backend/evaluation/staleness_metrics/aggregate.py:49-51 | one hit per reason code, keyed by the market, that code and the band |
| StalenessAggregate.MarketsHitsFacts | backend/evaluation/staleness_metrics/aggregate.py:44-59 | a record gives one hit per (market, code) pair; its outcome decides correct (SUCCESS) and neutral (neither SUCCESS nor FAILURE, UNRESOLVED by default) |
| StalenessAggregate.AllHitsFacts | backend/evaluation/staleness_metrics/aggregate.py:36-59 | one hit per (record, market, reason code) triple, each from a record's market and code in the band of that record's age |
| StalenessAggregate.MissingAgeIsYoungest | backend/evaluation/staleness_metrics/aggregate.py:40-43 | a record without an evidence age is counted in the band of 0 ms |
| StalenessAggregate.ComputedAt | backend/evaluation/staleness_metrics/aggregate.py:34 | a given non-empty timestamp is kept; otherwise the clock's |
| StalenessAggregate.RowsFacts | backend/evaluation/staleness_metrics/aggregate.py:60-72 | the rows are strictly sorted, one per key seen, each counting its key's triples, with correct plus neutral at most the total, the mean confidence missing exactly when none was given, and totals adding up to the hits |
| StalenessAggregate.BuildReport | backend/evaluation/staleness_metrics/aggregate.py:60-73 | the report of the counters lists one row per key in strict key order, each with its key's counts, totals adding up to the hits |
| StalenessAggregate.ComputeStalenessMetrics | backend/evaluation/staleness_metrics/aggregate.py:23-73 | the report's rows are strictly sorted by (market, reason code, age band), one per key seen; each row counts its triples, correct plus neutral never exceed the total, the mean confidence is missing exactly when none was given; the totals add up to the number of triples |
| AnalyzerGates.FirstFailure | backend/analyzer/v2/gates.py:26-120 | the position of the first failing check: every check before it passes, and it fails unless it is the end |
| AnalyzerGates.ChainFacts | backend/analyzer/v2/gates.py:26-120 | the recorded results are a non-empty prefix of the checks; all but the last pass, and the last fails exactly when the chain stopped |
| AnalyzerGates.StopsAt | backend/analyzer/v2/gates.py:26-120 | the chain stops at the first failing check, having recorded the checks up to it |
| AnalyzerGates.RunsThrough | backend/analyzer/v2/gates.py:26-120 | when every check passes, nothing blocks and every check is recorded |
| AnalyzerGates.RunHardGates | backend/analyzer/v2/gates.py:26-120 | the early-return chain blocks exactly when a hard check fails, records every check up to the first failure, and raises that check's flag, or CONSENSUS_WEAK or nothing when all pass |
| AnalyzerGates.NotResolvedBlocks | backend/analyzer/v2/gates.py:39-48 | a status other than RESOLVED blocks at once with one failed result and AMBIGUOUS or NOT_FOUND |
| AnalyzerGates.MidGatesBlock | backend/analyzer/v2/gates.py:50-93 | past the resolver: an unsupported market, missing stats, or evidence quality below 0.5 each block at their own gate with exactly their flag, in that order |
| AnalyzerGates.ConsensusGate | backend/analyzer/v2/gates.py:95-120 | consensus quality below 0.4 blocks with SOURCE_CONFLICT; in [0.4, 0.65) the market passes with CONSENSUS_WEAK; from 0.65 it passes with no flag |
| AnalyzerGates.HardGatesShape | backend/analyzer/v2/gates.py:26-120 | blocked exactly when the last recorded gate failed; a blocked market has one flag; one not blocked passed all five gates with at most CONSENSUS_WEAK |
| AnalyzerGates.ShouldDowngradeToNoBet | backend/analyzer/v2/gates.py:130-181 | the early-return chain of the two soft gates: the downgrade and the recorded results are those of the chain |
| AnalyzerGates.DowngradeRule | backend/analyzer/v2/gates.py:144-179 | NO_BET exactly when the confidence is below the minimum, or the consensus is below 0.65 with confidence below 0.78, or there are at least two minor flags; a confidence failure stops before the minor-flags gate |
| DesktopShell.LockAndLogDiffer | app/frontend/src-tauri/src/lib.rs:13-48 | the lock file and the app log are different files, under whichever base directory the environment gives |
| Text.NatToString | app/frontend/src-tauri/src/lib.rs:67 | the rendering of a process id is a non-empty string of decimal digits |
| DesktopShell.DecimalRoundTrip | app/frontend/src-tauri/src/lib.rs:67 | reading the rendered process id back gives the id |
| DesktopShell.DecimalInjective | app/frontend/src-tauri/src/lib.rs:67 | distinct process ids leave distinct lock contents |
| DesktopShell.FutureLockIsStale | app/frontend/src-tauri/src/lib.rs:55-59 | a lock modified in the future counts as 999 s old and does not hold |
| DesktopShell.UnreadableLockIsFree | app/frontend/src-tauri/src/lib.rs:52-54 | a missing lock, a directory in its place, or one without a readable modification time does not hold |
| DesktopShell.FreshLockWindow | app/frontend/src-tauri/src/lib.rs:52-62 | a lock file modified at t holds exactly from t up to, not including, t + 60 s |
| DesktopShell.MutualExclusion | app/frontend/src-tauri/src/lib.rs:50-69 | after an instance writes the lock, a later start within 60 s is refused and one from 60 s on is not |
| DesktopShell.Shell.constructor | app/frontend/src-tauri/src/lib.rs:106 | the shell starts from the given file system and environment |
| DesktopShell.Shell.TrySingleInstance | app/frontend/src-tauri/src/lib.rs:50-69 | a held lock gives "Another instance is already running" and changes nothing; otherwise the lock is overwritten with the process id and the clock, or, when it cannot be written, a different error with nothing changed |
| DesktopShell.Shell.WriteFile | app/frontend/src-tauri/src/lib.rs:67 | a writable path gets the content and the clock as its modification time; an unwritable one gives an error and changes nothing |
| DesktopShell.Shell.RemoveLock | app/frontend/src-tauri/src/lib.rs:71-73 | the lock file is removed when it is a removable file; every error is ignored and leaves the files as they were |
| DesktopShell.Shell.AppLog | app/frontend/src-tauri/src/lib.rs:31-44 | a writable log gets one line "[secs] msg" appended and the clock as its modification time; otherwise nothing changes |
| DesktopShell.Shell.LogAppMessage | app/frontend/src-tauri/src/lib.rs:75-78 | the message is appended to the app log as one line |
| DesktopShell.Shell.AppLogTwice | app/frontend/src-tauri/src/lib.rs:115-121 | two log calls append both lines in order |
| DesktopShell.Shell.LogStart | app/frontend/src-tauri/src/lib.rs:115-121 | the setup appends the BUILD_ID line and the APP_START line with the exe path and the fixed URL |
| DesktopShell.Shell.Start | app/frontend/src-tauri/src/lib.rs:106-121 | exit code 1, with nothing changed, exactly when the lock is held or cannot be written; otherwise the lock holds the process id and the log gets the two start lines |
| DesktopShell.Shell.OnCloseRequested | app/frontend/src-tauri/src/lib.rs:123-127 | closing the window removes the lock as remove_lock does |
| DesktopShell.LogLineShape | app/frontend/src-tauri/src/lib.rs:36-41 | a log line is "[", the seconds (0 before the epoch) in decimal, "] ", the message, and a newline |
| DesktopShell.GetBackendBaseUrl | app/frontend/src-tauri/src/lib.rs:80-83 | the base URL is always the fixed http://127.0.0.1:8000 |
| DesktopShell.IsBackendReady | app/frontend/src-tauri/src/lib.rs:85-88 | readiness is always reported, since the desktop app does not supervise the backend |
| DesktopShell.RunBackendTask | app/frontend/src-tauri/src/lib.rs:90-103 | off Windows the error "Windows only"; on Windows success exactly when the scheduler could be launched, whatever its exit status, and otherwise the launch error |
| ActivationEnv.FloatOr | backend/activation/burn_in.py:48-56 | a float setting gives its parsed value, and the default when unset or unparsable |
| ActivationEnv.IntEnv | backend/activation/burn_in.py:38-41 | an unset variable gives the default; the decimal digits of a number give that number; only a set variable can fail to parse |
| ActivationEnv.Setting | backend/activation/gate.py:26 | a setting read with `strip().lower()` is empty when unset, has no blanks at either end, holds no ASCII capital and is never longer than the raw text |
| ActivationEnv.Flag | backend/activation/gate.py:16 | an unset switch is off; a switch that is on reads as a word of one, three or four characters |
| ActivationEnv.FlagUnpadded | backend/activation/gate.py:16 | unpadded text turns a switch on exactly when its lower case is `1`, `true` or `yes`, so any case of those words turns it on |
| ActivationEnv.SettingOfWord | backend/activation/gate.py:26 | stripped lower-case text is read back as it is |
| ActivationEnv.WhitelistOfOne | backend/activation/gate.py:40-45 | a setting holding one trimmed name without commas whitelists exactly that name |
| ActivationEnv.NamesIn | backend/activation/gate.py:45 | the names of a comma list are the non-blank stripped pieces |
| ActivationEnv.Whitelist | backend/activation/gate.py:40-54 | a blank setting gives the default set; otherwise every listed name is non-blank |
| ActivationEnv.WhitelistOfNames | backend/activation/burn_in.py:59-64 | writing trimmed, comma-free names joined by commas into the setting gives exactly those names |
| ActivationEnv.FlagIgnoresPadding | backend/activation/gate.py:16 | blanks around a word do not matter: a padded word sets a switch exactly as the bare word |
| ActivationEnv.FlagIgnoresCase | backend/activation/gate.py:16 | example: a switch word is recognised after stripping blanks and folding case: `" TRUE "` turns the switch on |
| ActivationEnv.FlagRejectsOthers | backend/activation/gate.py:16 | examples: `false`, `on` and an unset variable leave a switch off |
| ActivationEnv.SwitchOffBySize | backend/activation/gate.py:16 | unpadded text whose length is not that of one of the three switch words leaves the switch off |
| BurnIn.MaxMatches | backend/activation/burn_in.py:31-45 | the burn-in batch size lies in [1, 3]; unset or unparsable gives 1; an in-range setting is kept |
| BurnIn.IsBurnInMode | backend/activation/burn_in.py:26-28 | an unset mode is not burn-in; the setting `burn_in` is; a burn-in setting strips to seven characters |
| BurnIn.MinConfidence | backend/activation/burn_in.py:48-56 | the burn-in floor is the parsed setting, 0.85 when unset or unparsable |
| BurnIn.Connectors | backend/activation/burn_in.py:59-64 | a blank setting whitelists real_provider only; every listed name is trimmed; a single trimmed name is the whole whitelist |
| BurnIn.Markets | backend/activation/burn_in.py:67-72 | a blank setting whitelists 1X2 only; every listed name is trimmed; a single trimmed name is the whole whitelist |
| BurnIn.AlertCount | backend/activation/burn_in.py:83 | the alert count is the length of the alert list, 0 when there is none |
| BurnIn.CheckLiveIoAlerts | backend/activation/burn_in.py:75-86 | passes exactly when the alert count (0 for a missing list) is at most the maximum; a refusal quotes both |
| BurnIn.NoLiveIoAlertAllowed | backend/activation/burn_in.py:75-86 | with the burn-in maximum of 0, only an empty or missing alert list passes |
| BurnIn.CheckVsRecorded | backend/activation/burn_in.py:89-120 | passes exactly when the index loads and its newest analyze run has no alerts (none at all also passes, with no latest run id); a failure to read or compare refuses; the state quotes both thresholds |
| BurnIn.AnalyzeRuns | backend/activation/burn_in.py:104 | the analyze runs are the index's list, or empty when it holds no list |
| BurnIn.GateKeysApart | backend/activation/burn_in.py:134-185 | merging the guardrail state keeps the gate's own state key |
| BurnIn.CheckGate | backend/activation/burn_in.py:123-159 | allowed exactly when connector and market are whitelisted, the confidence clears the policy and burn-in minimums and the recorded run is clean; each refusal is the first failing check's, in that order |
| BurnIn.CheckGateBatch | backend/activation/burn_in.py:162-189 | allowed exactly in burn-in mode with a whitelisted connector, at most the burn-in maximum of matches and a clean recorded run; each refusal is the first failing check's |
| BurnIn.BatchOverThreeDenied | backend/activation/burn_in.py:180-182 | more than three matches are never allowed, whatever the settings |
| BurnIn.AllowedClearsFloors | backend/activation/burn_in.py:137-151 | an allowed decision clears both confidence floors and, with a blank connector setting, comes from real_provider |
| Tiers.Tier | backend/activation/tiers.py:22-25 | the tier is always one of burn_in, limited, expanded; unset or unknown is burn_in; a known setting is kept |
| Tiers.RolloutPct | backend/activation/tiers.py:28-34 | the rollout percentage lies in [0, 100]; unset or unparsable is 0; an in-range setting is kept and above 100 is 100 |
| Tiers.DailyMaxActivations | backend/activation/tiers.py:37-42 | the daily cap is never negative; unparsable is 0; a non-negative setting is kept |
| Tiers.MaxMatchesSetting | backend/activation/tiers.py:83-87 | the match setting read by tier_max_matches lies in [0, 10], unparsable counting as 0 |
| Tiers.TierMaxMatches | backend/activation/tiers.py:80-91 | at most the hard cap of 10; burn-in lies in [1, 3], an unset or zero setting giving 3; other tiers take the clamped setting |
| Tiers.EffectiveTier | backend/activation/tiers.py:96 | no tier or an empty one falls back to the configured tier, which is always a known tier; any other given tier is used as it is |
| Tiers.TierMinConfidence | backend/activation/tiers.py:94-103 | burn-in uses the burn-in floor; other tiers the parsed setting, 0.80 when unset or unparsable |
| Rounding.RoundHalfEven | backend/activation/tiers.py:117 | Python's round: within one half of the value, and an exact half goes to the even neighbour |
| Rounding.RoundMonotone | backend/activation/tiers.py:117 | rounding keeps order |
| Rounding.RoundInteger | backend/activation/tiers.py:117 | a whole number rounds to itself |
| Rounding.Round4 | backend/optimization/refusal_shadow/grid_search.py:58 | `round(x, 4)` lies within half a unit of the fourth place of x |
| Rounding.Round6 | backend/modeling/reason_decay/fit_piecewise.py:141 | `round(x, 6)` lies within half a unit of the sixth place of x and keeps a non-negative value non-negative |
| Rounding.Round4Monotone | backend/optimization/refusal_shadow/grid_search.py:77-79 | rounding to four places never reverses an order |
| Rounding.Round4Integer | backend/optimization/refusal_shadow/grid_search.py:58 | a whole number is its own four-place rounding |
| Rounding.Round4Between | backend/optimization/refusal_shadow/grid_search.py:58 | a value between two whole numbers stays between them after rounding, so a rounded rate stays in [0, 1] |
| Rounding.Round4Idempotent | backend/optimization/refusal_shadow/grid_search.py:79 | rounding an already rounded value changes nothing |
| Rounding.NearValuesTie | backend/optimization/refusal_shadow/grid_search.py:79 | example: two different exact values can round to the same reported number, so a rounded score can tie where the exact ones would not |
| Json.ParseIntRoundTrip | backend/limits/retention.py:21 | `int()` of the decimal writing of a natural number gives that number back |
| Json.UnderscoreRules | backend/limits/retention.py:21 | examples: `int()` accepts single underscores between digits and refuses doubled, leading and trailing ones |
| Text.StripIdempotent | backend/activation/gate.py:16 | stripping twice is stripping once |
| Text.NormalizeIdempotent | backend/injury_shadow/features.py:61 | stripping and upper-casing a normalised name again changes nothing |
| Text.UpperIdempotent | backend/injury_shadow/features.py:33 | upper-casing twice is upper-casing once, including the characters whose upper case is several characters |
| Sorting.SortedSet | backend/limits/retention.py:108 | `sorted(set(...))`: a strictly increasing sequence holding exactly the set's elements |
| Sorting.StrictlySortedUnique | backend/limits/retention.py:108 | two strictly increasing sequences with the same elements are equal |
| Tiers.RolloutTake | backend/activation/tiers.py:116-117 | strictly between 0 and 100 percent the count taken never exceeds the number of ids |
| Tiers.RolloutTakeMonotone | backend/activation/tiers.py:117 | a larger percentage never takes fewer ids |
| Tiers.ScaledMonotone | backend/activation/tiers.py:117 | `n * pct / 100.0` never decreases as the percentage grows |
| Tiers.SelectRollout | backend/activation/tiers.py:106-118 | the rollout set is a subset of the ids; empty at 0 % or less; every id at 100 % or more |
| Tiers.RolloutTakesSmallest | backend/activation/tiers.py:115-118 | every selected id precedes, in string order, every id left out |
| Tiers.RolloutSize | backend/activation/tiers.py:115-118 | for distinct ids strictly between 0 and 100 percent exactly round(n·pct/100) ids are selected |
| Tiers.RolloutMonotone | backend/activation/tiers.py:111-118 | raising the percentage only adds ids |
| Tiers.RolloutOrderFree | backend/activation/tiers.py:115 | the selection depends on the ids given, not their order |
| Tiers.EntryActivations | backend/activation/tiers.py:144-152 | an entry not created today or not activated adds 0; a non-dictionary entry raises; a counted entry with a non-None activated_count adds its integer value or raises ValueError, otherwise it adds its numeric matches_count (1 when absent) or raises TypeError |
| Tiers.Plus | backend/activation/tiers.py:150-152 | the running count keeps the first error raised, and otherwise adds |
| Tiers.RunsOf | backend/activation/tiers.py:143 | a list is iterated as it is; a falsy value as an empty list |
| Tiers.UsedToday | backend/activation/tiers.py:121-153 | a missing file counts 0; a load error is the result; otherwise the count of the activation runs, then of the burn-in ops runs, added, the first error raised winning |
| Tiers.UsedInCounted | backend/activation/tiers.py:138-153 | counting over the two lists is the activation-run count plus the burn-in ops count, in that order |
| Tiers.DailyActivationsUsed | backend/activation/tiers.py:121-153 | the method computes the day's count over the activation and burn-in ops lists, 0 for a missing file |
| Tiers.SumLists | backend/activation/tiers.py:138-153 | the outer loop computes the count over the listed run lists, in order |
| Tiers.SumRuns | backend/activation/tiers.py:144-152 | the inner loop computes the running count over one list, stopping at the first error |
| Tiers.AddList | backend/activation/tiers.py:143-152 | one round of the outer loop adds one list's count to the count so far, or raises |
| Tiers.SumErrSticks | backend/activation/tiers.py:144-152 | once the running count raises, the whole count raises with that error |
| Tiers.UsedErrSticks | backend/activation/tiers.py:138-153 | an error in one list is the error of the whole count |
| Tiers.TodaysActivated | backend/activation/tiers.py:144-148 | an entry uses the cap exactly when it is among the entries and is a dictionary created today with a truthy activated flag; never more than the entries |
| Tiers.TodaysActivatedAppend | backend/activation/tiers.py:144-148 | the selection keeps the entries' order: selecting from a concatenation concatenates the selections |
| Tiers.OnlyTodaysActivatedCount | backend/activation/tiers.py:144-148 | daily usage counts only today's activated runs: dropping every other entry leaves the count unchanged |
| Tiers.CapRemaining | backend/activation/tiers.py:156-162 | 0 when the cap is 0; an error exactly when the cap is positive and counting the usage raised; otherwise max(0, cap − used), which is never negative and, for a non-negative usage, never above the cap |
| Tiers.DailyCapRemaining | backend/activation/tiers.py:156-162 | the method returns the remaining cap for the configured daily cap and today's usage of the index |
| Tiers.CapRemainingFor | backend/activation/tiers.py:158-162 | with the cap read, the index is counted only for a positive cap and the result is the remaining cap |
| Tiers.CapLeft | backend/activation/tiers.py:161-162 | for a positive cap, max(0, cap − used), or the counting error |
| Tiers.AsWrittenMissesOpsRuns | backend/activation/tiers.py:129-141 | with load_index as written, an index holding one of today's activated burn-in ops runs counts 0 where the corrected loader counts 1 |
| Tiers.AsWrittenCount | backend/activation/tiers.py:129-153 | with load_index as written and no activation list, the count is 0 whatever else the file holds |
| Tiers.CorrectedCount | backend/activation/tiers.py:139-153 | with the corrected loader the count is that of the burn-in ops list |
| Tiers.OpsRunCounts | backend/activation/tiers.py:144-150 | today's activated ops run with activated_count 1 adds 1 |
| Tiers.AsWrittenLoadsNoOpsRuns | backend/activation/tiers.py:129-143 | load_index as written gives an empty activation list and no burn-in ops list |
| Tiers.CorrectedLoadsOpsRuns | backend/activation/tiers.py:129-143 | the corrected loader keeps the burn-in ops list |
| Tiers.UsedOnTwoLists | backend/activation/tiers.py:139-153 | with an empty activation list the count is the ops list's count |
| Gate.Mode | backend/activation/gate.py:24-26 | the mode is empty when unset, and each of limited, burn_in and expanded written as it is reads as itself |
| Gate.Connectors | backend/activation/gate.py:40-45 | a blank setting gives the empty whitelist; every listed name is trimmed; a single trimmed name is the whole whitelist |
| Gate.Markets | backend/activation/gate.py:48-53 | a blank setting whitelists 1X2 only; every listed name is trimmed; a single trimmed name is the whole whitelist |
| Gate.ActivationMinConfidence | backend/activation/gate.py:63-66 | in burn-in mode the burn-in floor; in limited and expanded mode the parsed setting, 0.80 by default |
| Gate.ActivationMaxMatches | backend/activation/gate.py:56-60 | never above 10; between 1 and 3 in burn-in mode; the clamped setting in limited and expanded mode |
| Gate.Recent | backend/activation/gate.py:96 | Python's `runs[-m:]`: the last m runs for a positive m, and the slice `runs[-m:]` otherwise |
| Gate.RunPasses | backend/activation/gate.py:97-102 | a run that passes is a dictionary; without the alert requirement every dictionary passes; a dictionary without alerts_count passes |
| Gate.FirstFailure | backend/activation/gate.py:97-103 | nothing fails exactly when every recent run passes; a reported alert failure names an alerting run before which every run passed |
| Gate.CheckGuardrails | backend/activation/gate.py:80-106 | the guardrail passes exactly when the index loads and each of its last runs is a dictionary whose alert count is not above 0; an unreadable index fails |
| Gate.Preamble | backend/activation/gate.py:127-146 | the switches pass exactly with the kill switch off, activation enabled, a known mode, live writes on and, in burn-in, live IO allowed; the first failing switch gives the refusal |
| Gate.FromBurnIn | backend/activation/gate.py:149-158 | the burn-in gate's verdict is passed through |
| Gate.CheckGate | backend/activation/gate.py:109-188 | allowed exactly when the switches pass and either the burn-in gate allows, in burn-in mode, or connector, market, both confidence floors and the guardrail pass, in that order; each refusal is the first failing check's |
| Gate.CheckGateBatch | backend/activation/gate.py:191-258 | allowed exactly when the switches pass and either the burn-in batch gate allows or the connector passes, the tier cap is positive and not exceeded and the guardrail passes |
| Gate.KillSwitchWins | backend/activation/gate.py:127-207 | the kill switch denies both gates whatever else holds |
| Gate.AllowedDecisionOutsideBurnIn | backend/activation/gate.py:166-186 | an allowed decision outside burn-in has a whitelisted market (1X2 when the setting is blank), clears the policy floor, and the index loaded with a clean guardrail |
| Gate.AllowedNeedsSwitches | backend/activation/gate.py:127-224 | either gate allows only with the kill switch off, activation and live writes on and a known mode (with live IO in burn-in) |
| Gate.BlankMarkets | backend/activation/gate.py:48-54 | a blank market setting admits only 1X2 |
| Gate.BlankConnectorsAdmitAny | backend/activation/gate.py:40-45 | a blank connector setting gives the empty whitelist, so the whitelist tests of both gates (lines 166-168 and 237-239) never change a limited or expanded verdict |
| Gate.AllowedBatchWithinCap | backend/activation/gate.py:241-246 | an allowed batch never exceeds 10 matches, nor 3 in burn-in |
| Gate.OlderRunsIgnored | backend/activation/gate.py:96 | runs before the last five never affect the guardrail |
| Gate.NoRunsPass | backend/activation/gate.py:92-94 | no analyze runs means the guardrail passes |
| Gate.AlertingRecentRunFails | backend/activation/gate.py:96-102 | one alerting run among the last five fails the guardrail |
| IndexStore.IndexKeys | backend/reports/index_store.py:83-98 | a loaded index has exactly one key per run list and one per latest id |
| IndexStore.Normalize | backend/reports/index_store.py:62-98 | every run list is the file's list when it holds one and empty otherwise; each latest id is copied (None when missing); nothing else survives |
| IndexStore.EmptyIndex | backend/reports/index_store.py:25-41 | the empty index has every run list empty and every latest id None |
| IndexStore.LoadIndexWith | backend/reports/index_store.py:17-98 | a missing or unreadable file gives the empty index; a JSON object is normalised; any other JSON value raises |
| IndexStore.LoadIndex | backend/reports/index_store.py:17-98 | load_index as written: fails only on a JSON value that is not an object; a missing or unreadable file gives the empty index; a loaded index has exactly the keys of its seven run lists and their latest ids, every list a list, the file's list kept where it holds one |
| IndexStore.LoadIndexAll | backend/reports/index_store.py:17-98 | the corrected loader: every run list the reports code uses, burn_in_ops_runs and tuning_plan_runs included, is loaded as a list |
| IndexStore.LoadIndexDropsOpsRuns | backend/reports/index_store.py:83-98 | load_index as written drops burn_in_ops_runs and its latest id from any index object |
| IndexStore.LoadIndexAllKeepsOpsRuns | backend/reports/index_store.py:83-98 | the corrected loader keeps a burn_in_ops_runs list as it is |
| IndexStore.LoadIndexAllList | backend/reports/index_store.py:62-98 | each run list of the corrected loader is the file's list or empty |
| IndexStore.LoadIndexList | backend/reports/index_store.py:62-98 | each of the seven run lists of load_index as written is the file's list or empty |
| IndexStore.LoadNormalizedIsIdentity | backend/reports/index_store.py:17-98 | loading an index that load_index produced and save_index wrote gives it back |
| IndexStore.ExistingList | backend/reports/index_store.py:108 | `index.get(key) or []`: a list is appended to, a falsy value starts an empty list, anything else cannot be appended to |
| IndexStore.RunEntry | backend/reports/index_store.py:109-118 | the run entry copies the six fields and carries live_io_alerts_count exactly when it is given |
| IndexStore.LiveShadowEntry | backend/reports/index_store.py:132-160 | the live-shadow entry copies its six fields |
| IndexStore.ActivationEntry | backend/reports/index_store.py:174-182 | the activation entry copies its fields, with activated defaulting to False and the summary to {} |
| IndexStore.BurnInEntry | backend/reports/index_store.py:197-203 | the burn-in entry copies its fields, the summary defaulting to {} |
| IndexStore.ProviderParityEntry | backend/reports/index_store.py:217-225 | the provider-parity entry copies its seven fields |
| IndexStore.QualityAuditEntry | backend/reports/index_store.py:238-243 | the quality-audit entry copies its four fields |
| IndexStore.ReportIndex.constructor | backend/reports/index_store.py:101 | the index object holds the given dictionary |
| IndexStore.ReportIndex.AppendTo | backend/reports/index_store.py:108-122 | the entry is appended at the end of its list and the latest id set to the run id; nothing else changes; a value that cannot be appended to raises with nothing changed |
| IndexStore.ReportIndex.AppendRun | backend/reports/index_store.py:101-122 | append_run: one run entry at the end of runs, latest_run_id set, nothing else changed |
| IndexStore.ReportIndex.AppendLiveShadowRun | backend/reports/index_store.py:125-143 | the same for live_shadow_runs and its latest id |
| IndexStore.ReportIndex.AppendLiveShadowAnalyzeRun | backend/reports/index_store.py:146-164 | the same for live_shadow_analyze_runs and its latest id |
| IndexStore.ReportIndex.AppendActivationRun | backend/reports/index_store.py:167-186 | the same for activation_runs and its latest id |
| IndexStore.ReportIndex.AppendBurnInRun | backend/reports/index_store.py:189-207 | the same for burn_in_runs and its latest id |
| IndexStore.ReportIndex.AppendProviderParityRun | backend/reports/index_store.py:210-229 | the same for provider_parity_runs and its latest id |
| IndexStore.ReportIndex.AppendQualityAuditRun | backend/reports/index_store.py:232-247 | the same for quality_audit_runs and its latest id |
| IndexStore.AppendOnLoadedIndex | backend/reports/index_store.py:108-122 | on a loaded index an append always succeeds, adds exactly one entry at the end with the run's id, leaves earlier entries alone and keeps the index normalised |
| Retention.IdsOfMembers | backend/limits/retention.py:56-60 | the ids of a list are exactly the non-empty string run ids of its dictionary entries |
| Retention.IdsAcrossMembers | backend/limits/retention.py:53-60 | the ids across the lists are exactly those of some list |
| Retention.GatherIds | backend/limits/retention.py:52-60 | the outer loop collects exactly the ids across the lists |
| Retention.GatherList | backend/limits/retention.py:56-60 | the inner loop adds exactly the ids of one list to those seen |
| Retention.CollectRunIds | backend/limits/retention.py:50-61 | the collected ids are strictly sorted (no duplicates) and are exactly the ids of every run list |
| Retention.SiblingNotSafe | backend/limits/retention.py:64-71 | a path that merely shares a prefix with the root, such as a sibling directory, is not safe |
| Retention.SafeIsInside | backend/limits/retention.py:64-71 | a safe path resolves to the root or to a path one separator below it; a failed resolution is never safe |
| Retention.SplitPoint | backend/limits/retention.py:102-103 | the cut of Python's slices `[:-keep]` and `[-keep:]` lies inside the list |
| Retention.RankInSorted | backend/limits/retention.py:61-103 | in a sorted id list, the ids after a position are exactly those larger than its id |
| Retention.SplitMatchesRank | backend/limits/retention.py:102-103 | the removed and kept slices split the ids without overlap; an id is kept exactly when fewer than keep ids are larger (all for keep 0) |
| Retention.KeptByRank | backend/limits/retention.py:103 | the kept slice is the set of ids the rank rule keeps |
| Retention.Candidates | backend/limits/retention.py:108-113 | two candidate paths per removed id |
| Retention.Visit | backend/limits/retention.py:114-127 | one visit removes at most the visited path, only when it is safe and not a dry run, reporting it; errors only grow |
| Retention.SweepIsSafe | backend/limits/retention.py:107-127 | the deletion loop never removes a path outside the root, removes nothing on a dry run, and reports only safe existing candidates |
| Retention.SweepFromStart | backend/limits/retention.py:104-127 | from nothing deleted, every removed path was an existing safe candidate and reported |
| Retention.ReportsTree.constructor | backend/limits/retention.py:74 | the reports tree holds the given artifacts and index file |
| Retention.ReportsTree.DeleteArtifacts | backend/limits/retention.py:107-127 | the deletion loop over the removed ids is the sweep of their candidates; the index file is untouched and deletion is safe |
| Retention.ReportsTree.SaveIfAllowed | backend/limits/retention.py:153-154 | the index is saved exactly when not a dry run, the file exists and its path is safe |
| Retention.ReportsTree.VisitPath | backend/limits/retention.py:114-127 | one turn of the deletion loop is one visit |
| Retention.PruneList | backend/limits/retention.py:144 | a pruned list holds exactly the dictionary entries with a kept id, and is no longer than before |
| Retention.PruneListAppend | backend/limits/retention.py:144 | pruning keeps the original order: it distributes over concatenation |
| Retention.PruneIndex | backend/limits/retention.py:141-151 | the pruning loop computes the pruned index over every run list |
| Retention.PruneLists | backend/limits/retention.py:141-151 | the loop over any run lists prunes them one after the other, in order |
| Retention.PruneOne | backend/limits/retention.py:142-151 | one turn filters the list when it is one and then re-points its latest id |
| Retention.PruneFromUntouched | backend/limits/retention.py:141-151 | pruning leaves every key other than the run lists and their latest ids alone |
| Retention.PruneFromAt | backend/limits/retention.py:141-151 | after pruning each list holds its kept entries in order (a non-list is left alone) and its latest id names the last of them, None when empty |
| Retention.PruneSpecFor | backend/limits/retention.py:141-151 | for run lists with distinct names, each ends holding its kept entries in order with its latest id naming the last |
| Retention.PruneIndexSpec | backend/limits/retention.py:141-151 | the same for all nine run lists |
| Retention.CleanupReports | backend/limits/retention.py:74-156 | an absent keep_last_n or dry_run comes from the environment; then `Retention.Cleaned` holds: a load error changes nothing; with no more ids than keep nothing changes; otherwise the artifacts of the removed ids, in sorted order, are swept (outside a dry run exactly the safe candidates whose removal succeeds go), the index is pruned to the kept ids and saved exactly when not a dry run, the file exists and its path is safe |
| Retention.PruneAndDelete | backend/limits/retention.py:102-156 | past the early return: the sweep of the sorted removed ids' candidates, safe deletion, the index pruned to the kept ids, and the save rule |
| Retention.RunIdCount | backend/limits/retention.py:99 | the sorted id list has as many ids as the id set |
| Retention.RetentionCount | backend/limits/retention.py:19-23 | REPORT_RETENTION_COUNT unset, or text `int()` rejects, gives 200 |
| Retention.RetentionCountOfDecimal | backend/limits/retention.py:19-23 | a count written in decimal is read back as that count |
| Retention.DryRunDefault | backend/limits/retention.py:26-27 | REPORT_RETENTION_DRY_RUN is a switch like the activation switches; unset it gives false |
| Retention.KeepLastN | backend/limits/retention.py:89-90 | a given keep_last_n is used as is, and an absent one is the environment's retention count |
| Retention.DryRunOf | backend/limits/retention.py:91-92 | a given dry_run is used as is, and an absent one is the environment's default |
| Retention.CleanupResolved | backend/limits/retention.py:93-156 | with keep_last_n and dry_run resolved, `Retention.Cleaned` holds |
| Retention.RemovedSlice | backend/limits/retention.py:102-108 | the slice `all_run_ids[:-keep]` is already `sorted(to_remove_ids)` |
| Retention.SweepRemoves | backend/limits/retention.py:107-127 | outside a dry run the deletion loop removes exactly the candidates safely under the root whose removal does not fail |

## Left out

- Rounding: `round(x, 4)`, `round(x, 6)` and `round(n * pct / 100)` are
  modelled on exact reals, rounding half to even at the given place
  (`Rounding.Round4`, `Rounding.Round6`, `Rounding.RoundHalfEven`). The
  representation error of a binary float, which can move a value that looks
  like an exact half to one side, is not modelled.
- Text case mapping: `str.upper()` and `str.lower()` are modelled for the
  ASCII letters and for every other character whose Python case mapping is
  ASCII (sharp s, dotless i, long s and the ligatures U+FB00-U+FB06 upper-case
  to ASCII; the Kelvin sign lower-cases to `k`). Any other character keeps its
  case. Such a character's mapping is again non-ASCII, so it never changes the
  outcome of a comparison with the ASCII words below. `str.strip()` uses
  Python's exact whitespace set.
- InjuryFeatures.WeightValues: a status whose upper case is non-ASCII keeps its
  case; it misses the status table either way and weighs 0.25.
- InjuryResolver.ClaimStatusMapping: a non-ASCII status keeps its case; it is
  outside the mapping either way and becomes UNKNOWN.
- InjuryResolver.ConflictBehaviorFallback: a non-ASCII conflict behaviour keeps
  its case; it is not one of the known behaviours either way and falls back to
  QUESTIONABLE.
- ActivationEnv.NamesIn: names are stripped with Python's whitespace set;
  their case is not changed, as in the code.
- ActivationEnv.Whitelist: the setting and each name are stripped with
  Python's whitespace set; names are compared exactly, with no case folding,
  as in the code.
- ActivationEnv.WhitelistOfNames: the same whitespace set as `Whitelist`; a
  name is "trimmed" when it has no such whitespace at either end.
- Tiers.Tier: a non-ASCII tier setting keeps its case when lower-cased; it is
  not `limited` or `expanded` either way and gives burn_in.
- Json.ParseInt: the decimal digits of every script follow Python 3.12's
  Unicode tables (the zero of each run of 10 digits of general category Nd).
  A later Unicode version that adds digit runs is not covered.
- InjuryResolver.RunResolverPure: the runnable resolver groups claims under
  the key (team, player) with a missing player replaced by
  `"__UNKNOWN_PLAYER__"`, the key `group_key` computes. The code as written
  groups under a key that may hold `None` and can raise TypeError when sorting
  (see Findings).
- IndexStore.LoadIndexWith: an index file whose bytes are not UTF-8 makes
  Python raise UnicodeDecodeError (backend/reports/index_store.py:42-45). The
  model reads such a file as unreadable and returns the empty index.
- Retention.CleanupReports: a `run_id` that cannot be hashed, such as a list,
  makes `set(...)` raise TypeError (backend/limits/retention.py:144). The model
  drops such an entry instead.
- Retention.CleanupReports: the default index path (`reports_dir/index.json`)
  and the rule for a relative path (backend/limits/retention.py:93-95) are not
  modelled. The index path is a resolved parameter.
- LiveShadowGuardrails: `float()` of a confidence held as a string is not
  modelled. Confidences are numbers or absent by type.
- A key present with the value `None` is treated as absent. This covers
  `total` and `accuracy` in fit_piecewise and the claim confidence in the
  injury features. It also covers `market` and `reason_code` in
  fit_piecewise (`ReasonDecay.RowKey`), which read as "" there; in the code
  a `None` key makes `sorted(grouped.items())` at
  backend/modeling/reason_decay/fit_piecewise.py:79 raise `TypeError`, which the model
  does not reproduce.
- Floating point: NaN and infinities are not modelled. Every number is an
  exact real.
- The refusal-shadow model: optimization/refusal_shadow/model.py is not part of
  this model. Its stale bands and `ALPHA` are parameters. The
  effective-confidence grid is taken from its unit test (17 values, 0.10 to
  0.90 in steps of 0.05), and `SearchGrid` covers any non-empty grid.
- Opaque helpers: helpers whose code lies outside these files are parameters
  without properties of their own. They are the evidence-age resolver and
  `band_for_age_ms` of the staleness metrics. The values of
  `evidence_quality_score` and `consensus_quality_from_features` are passed to
  the analyzer gates. Python's `0.5 ** x` in `_score_claim` is the parameter
  `halfPower`.
- Message texts: reason strings and notes built with f-strings are represented
  by their codes, or by the values they quote, rather than by the rendered text.
  Python's `str(...)` of a value is not rendered either.
- Clock: `datetime.now` is the parameter `now`. Timestamps are numbers; their
  ISO text form is neither rendered nor parsed.
- Conversions: `float(...)` of a value that is not a number is an outcome,
  `NotFloat`; there is no model of which strings Python accepts.
- StalenessAggregate.ComputeStalenessMetrics: an entry that is present but
  `None` is treated as absent. Dictionary values of the wrong type are not
  distinguished beyond what the code tests.
- Persistence: evaluator.py's database row and every other I/O are left out.
  The evaluator model returns the values it would persist.
- `save_index`: the JSON file format is not modelled. Saving replaces the
  stored index value.
- IndexStore.LoadIndexAll: the rest of the model loads the index with this
  corrected loader, not with `load_index` as written (see Findings).
  Retention and the daily activation count are therefore stated over the
  corrected loader.
- The desktop shell's runtime:
  - the Tauri runtime, its plugins and its window events are not modelled;
    only the close request is, as a method;
  - `eprintln!` output and the process exit are reduced to the exit code.
- Directory creation: its results are ignored in lib.rs. A path that cannot be
  written is modelled by the file system's `failing` set.
- Paths: path separators, `OsString` conversions and the environment fallback
  chain beyond the variables the code reads are not modelled.
- DesktopShell.RunBackendTask: the `schtasks` launch is the parameter `launch`,
  whose process exit status is ignored, as in the code. A partial write of a
  file is not modelled; a write either succeeds or changes nothing.
- DesktopShell.Shell.LogStart: `BUILD_ID` and `current_exe` are parameters. The
  two start lines share one clock reading.
- Concurrency: two shell processes racing between the lock check and the lock
  write are not modelled. Each start is one atomic step on the file system.

## Findings

| source | as written | input that shows it | evidently intended | confidence | as-written member | corrected member |
|---|---|---|---|---|---|---|
| backend/reports/index_store.py:83-98 | `load_index` rebuilds the index from seven run lists only, dropping `burn_in_ops_runs` and `tuning_plan_runs` with their latest ids | an index file holding a `burn_in_ops_runs` list with one of today's activated runs | every run list written by the reports code survives a load, so the daily activation count sees burn-in ops runs | not executed | IndexStore.LoadIndexDropsOpsRuns | IndexStore.LoadIndexAllKeepsOpsRuns |
| backend/ingestion/injury_news_resolver.py:240-250 | claims are grouped under the key (team, player) with `player_ref` possibly `None`, then `sorted(groups.items())` compares the keys | two kept claims of one team, one with `player_ref` None and one with `player_ref` "p": comparing None with a string raises TypeError | group under the player key with `None` replaced by the unknown-player marker, as the unused `group_key` helper does, so the run always succeeds | not executed | InjuryResolver.AsWrittenRaises | InjuryResolver.RunResolverFacts |
