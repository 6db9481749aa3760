/**
 * Burn-in mode: real activation restricted to a whitelist of connectors and
 * markets, a stricter confidence floor, at most three matches per batch, and
 * a look at the newest live-shadow analyze run in the reports index.
 */
module BurnIn {
  import opened Wrappers
  import opened Text
  import opened Json
  import opened IndexStore
  import opened ActivationEnv

  const DefaultConnectors: set<string> := {"real_provider"}
  const DefaultMarkets: set<string> := {"1X2"}
  const MaxMatchesMin: int := 1
  const MaxMatchesMax: int := 3
  const MaxMatchesDefault: int := 1
  const MaxLiveIoAlerts: int := 0
  const MaxPickChangeRate: real := 0.1
  const MaxConfidenceDeltaP95: real := 0.05
  const DefaultMinConfidence: real := 0.85

  /** Why a burn-in check refuses; each case is one of the code's reason messages. */
  datatype Denial =
    | NotBurnInMode
    | ConnectorNotAllowed(connector: string)
    | MarketNotAllowed(market: string)
    | BelowPolicyMinimum(confidence: real, minimum: real)
    | BelowBurnInMinimum(confidence: real, minimum: real)
    | MatchCountOverMax(count: int, max: int)
    | LiveIoAlerts(alerts: nat, maxAlerts: int)
    | RecordedRunAlerts(alertsCount: real)
    | RecordedUnchecked   // the index could not be read or the run could not be inspected

  /** `(allowed, reason)`: `Allow` is `(True, None)`. */
  datatype Verdict = Allow | Deny(reason: Denial)

  /** `(allowed, reason, guardrail_state)`. */
  datatype Checked = Checked(verdict: Verdict, state: Dict)

  /** `ACTIVATION_MODE=burn_in`, ignoring case and surrounding blanks. */
  predicate IsBurnInMode(env: Env): (b: bool)
    ensures env.mode.None? ==> !b
    ensures env.mode == Some("burn_in") ==> b
    ensures b ==> |Strip(env.mode.GetOr(""))| == 7
  {
    SettingOfWord("burn_in");
    Setting(env.mode) == "burn_in"
  }

  /** `burn_in_max_matches`: the setting clamped to 1..3; unset or unparsable gives 1. */
  function MaxMatches(env: Env): (r: int)
    ensures MaxMatchesMin <= r <= MaxMatchesMax
    ensures IntEnv(env.maxMatches, MaxMatchesDefault).None? ==> r == MaxMatchesDefault
    ensures env.maxMatches.None? ==> r == MaxMatchesDefault
    ensures match IntEnv(env.maxMatches, MaxMatchesDefault)
            case Some(n) => MaxMatchesMin <= n <= MaxMatchesMax ==> r == n
            case None => true
  {
    match IntEnv(env.maxMatches, MaxMatchesDefault)
    case None => MaxMatchesDefault
    case Some(v) =>
      if v < MaxMatchesMin then MaxMatchesMin
      else if v > MaxMatchesMax then MaxMatchesMax
      else v
  }

  /** `burn_in_min_confidence`: the setting, or 0.85. */
  function MinConfidence(env: Env): (r: real)
    ensures env.minConfidenceBurnIn.Float? ==> r == env.minConfidenceBurnIn.x
    ensures !env.minConfidenceBurnIn.Float? ==> r == DefaultMinConfidence
  {
    FloatOr(env.minConfidenceBurnIn, DefaultMinConfidence)
  }

  /** `burn_in_connectors`: `real_provider` when the setting is blank, otherwise the listed names. */
  function Connectors(env: Env): (r: set<string>)
    ensures Strip(env.connectors.GetOr("")) == [] ==> r == DefaultConnectors
    ensures forall x :: x in r ==> Trimmed(x)
    ensures env.connectors.Some? && Trimmed(env.connectors.value) && ',' !in env.connectors.value ==> r == {env.connectors.value}
  {
    if env.connectors.Some? && Trimmed(env.connectors.value) && ',' !in env.connectors.value then
      WhitelistOfOne(env.connectors.value, DefaultConnectors);
      Whitelist(env.connectors, DefaultConnectors)
    else Whitelist(env.connectors, DefaultConnectors)
  }

  /** `burn_in_markets`: `1X2` when the setting is blank, otherwise the listed names. */
  function Markets(env: Env): (r: set<string>)
    ensures Strip(env.markets.GetOr("")) == [] ==> r == DefaultMarkets
    ensures forall x :: x in r ==> Trimmed(x)
    ensures env.markets.Some? && Trimmed(env.markets.value) && ',' !in env.markets.value ==> r == {env.markets.value}
  {
    if env.markets.Some? && Trimmed(env.markets.value) && ',' !in env.markets.value then
      WhitelistOfOne(env.markets.value, DefaultMarkets);
      Whitelist(env.markets, DefaultMarkets)
    else Whitelist(env.markets, DefaultMarkets)
  }

  /** `len(live_io_alerts) if live_io_alerts else 0`. */
  function AlertCount(alerts: Option<seq<Json>>): (n: nat)
    ensures alerts.None? ==> n == 0
    ensures alerts.Some? ==> n == |alerts.value|
  {
    if alerts.Some? then |alerts.value| else 0
  }

  /** `check_burn_in_live_io_alerts`: passes iff there are at most `maxAlerts` alerts. */
  function CheckLiveIoAlerts(alerts: Option<seq<Json>>, maxAlerts: int): (v: Verdict)
    ensures v.Allow? <==> AlertCount(alerts) <= maxAlerts
    ensures v.Deny? ==> v.reason == LiveIoAlerts(AlertCount(alerts), maxAlerts)
  {
    var count := AlertCount(alerts);
    if count > maxAlerts then Deny(LiveIoAlerts(count, maxAlerts)) else Allow
  }

  /** With the burn-in threshold of zero, a single live-IO alert blocks. */
  lemma NoLiveIoAlertAllowed(alerts: seq<Json>)
    ensures CheckLiveIoAlerts(Some(alerts), MaxLiveIoAlerts).Allow? <==> alerts == []
    ensures CheckLiveIoAlerts(None, MaxLiveIoAlerts).Allow?
  {
  }

  /** `index.get("live_shadow_analyze_runs") or []` on a loaded index. */
  function AnalyzeRuns(index: Dict): (r: seq<Json>)
    ensures Get(index, "live_shadow_analyze_runs").JArr? ==> r == Get(index, "live_shadow_analyze_runs").items
    ensures !Get(index, "live_shadow_analyze_runs").JArr? ==> r == []
  {
    if Get(index, "live_shadow_analyze_runs").JArr? then Get(index, "live_shadow_analyze_runs").items else []
  }

  /** The newest analyze run is a dictionary whose `alerts_count` (default 0) is a number ≤ 0. */
  predicate NewestRunClean(runs: seq<Json>) {
    runs == [] ||
    (runs[|runs| - 1].JObj? &&
     var alerts := PyNumber(GetOr(runs[|runs| - 1].fields, "alerts_count", JInt(0)));
     alerts.Some? && alerts.value <= 0.0)
  }

  /** The keys of the guardrail state the recorded-run check reports. */
  const GuardKeys: set<string> := {"max_pick_change_rate", "max_confidence_delta_p95", "latest_run_id"}

  /**
   * `check_burn_in_vs_recorded`: looks at the newest live-shadow analyze run
   * only. A failure to read the index or to compare its `alerts_count` (the
   * code catches every exception) is a refusal.
   */
  function CheckVsRecorded(loaded: Result<Dict, string>, maxPick: real, maxConf: real): (c: Checked)
    ensures c.verdict.Allow? <==> loaded.Ok? && NewestRunClean(AnalyzeRuns(loaded.value))
    ensures c.verdict.Deny? ==> c.verdict.reason.RecordedRunAlerts? || c.verdict.reason == RecordedUnchecked
    ensures c.state.Keys <= GuardKeys
    ensures "max_pick_change_rate" in c.state && c.state["max_pick_change_rate"] == JReal(maxPick)
    ensures "max_confidence_delta_p95" in c.state && c.state["max_confidence_delta_p95"] == JReal(maxConf)
    ensures loaded.Ok? && AnalyzeRuns(loaded.value) == [] ==>
              c.verdict.Allow? && "latest_run_id" in c.state && c.state["latest_run_id"] == JNull
    ensures "latest_run_id" in c.state ==> loaded.Ok?
  {
    var state := map["max_pick_change_rate" := JReal(maxPick), "max_confidence_delta_p95" := JReal(maxConf)];
    match loaded
    case Err(_) => Checked(Deny(RecordedUnchecked), state)
    case Ok(index) =>
      var runs := AnalyzeRuns(index);
      if runs == [] then Checked(Allow, state["latest_run_id" := JNull])
      else
        var latest := runs[|runs| - 1];
        if !latest.JObj? then Checked(Deny(RecordedUnchecked), state)
        else
          var state1 := state["latest_run_id" := Get(latest.fields, "run_id")];
          match PyNumber(GetOr(latest.fields, "alerts_count", JInt(0)))
          case None => Checked(Deny(RecordedUnchecked), state1)
          case Some(a) => if a > 0.0 then Checked(Deny(RecordedRunAlerts(a)), state1) else Checked(Allow, state1)
  }

  /** `state.update(guard_state)` leaves the gate's own key in place. */
  lemma GateKeysApart()
    ensures "burn_in_confidence_gate" !in GuardKeys && "burn_in_max_matches" !in GuardKeys
  {
  }

  ghost predicate RecordedAllows(index: Result<Dict, string>) {
    CheckVsRecorded(index, MaxPickChangeRate, MaxConfidenceDeltaP95).verdict.Allow?
  }

  /**
   * `check_burn_in_gate` for one decision: connector, then market, then the
   * policy minimum, then the burn-in minimum, then the recorded-run check.
   */
  function CheckGate(env: Env, connector: string, market: string, confidence: real, policyMin: real, index: Result<Dict, string>): (c: Checked)
    ensures c.verdict.Allow? <==>
              connector in Connectors(env) && market in Markets(env) &&
              confidence >= policyMin && confidence >= MinConfidence(env) && RecordedAllows(index)
    ensures connector !in Connectors(env) ==> c.verdict == Deny(ConnectorNotAllowed(connector))
    ensures connector in Connectors(env) && market !in Markets(env) ==> c.verdict == Deny(MarketNotAllowed(market))
    ensures connector in Connectors(env) && market in Markets(env) && confidence < policyMin ==>
              c.verdict == Deny(BelowPolicyMinimum(confidence, policyMin))
    ensures connector in Connectors(env) && market in Markets(env) && policyMin <= confidence < MinConfidence(env) ==>
              c.verdict == Deny(BelowBurnInMinimum(confidence, MinConfidence(env)))
    ensures "burn_in_confidence_gate" in c.state && c.state["burn_in_confidence_gate"] == JReal(MinConfidence(env))
  {
    var state := map["burn_in_confidence_gate" := JReal(MinConfidence(env))];
    if connector !in Connectors(env) then Checked(Deny(ConnectorNotAllowed(connector)), state)
    else if market !in Markets(env) then Checked(Deny(MarketNotAllowed(market)), state)
    else if confidence < policyMin then Checked(Deny(BelowPolicyMinimum(confidence, policyMin)), state)
    else if confidence < MinConfidence(env) then Checked(Deny(BelowBurnInMinimum(confidence, MinConfidence(env))), state)
    else
      var g := CheckVsRecorded(index, MaxPickChangeRate, MaxConfidenceDeltaP95);
      GateKeysApart();
      Checked(g.verdict, state + g.state)
  }

  /** `check_burn_in_gate_batch`: burn-in mode, connector, at most `MaxMatches` matches, recorded-run check. */
  function CheckGateBatch(env: Env, connector: string, matchCount: int, index: Result<Dict, string>): (c: Checked)
    ensures c.verdict.Allow? <==>
              IsBurnInMode(env) && connector in Connectors(env) && matchCount <= MaxMatches(env) && RecordedAllows(index)
    ensures !IsBurnInMode(env) ==> c.verdict == Deny(NotBurnInMode)
    ensures IsBurnInMode(env) && connector !in Connectors(env) ==> c.verdict == Deny(ConnectorNotAllowed(connector))
    ensures IsBurnInMode(env) && connector in Connectors(env) && matchCount > MaxMatches(env) ==>
              c.verdict == Deny(MatchCountOverMax(matchCount, MaxMatches(env)))
    ensures "burn_in_max_matches" in c.state && c.state["burn_in_max_matches"] == JInt(MaxMatches(env))
  {
    var state := map["burn_in_max_matches" := JInt(MaxMatches(env))];
    if !IsBurnInMode(env) then Checked(Deny(NotBurnInMode), state)
    else if connector !in Connectors(env) then Checked(Deny(ConnectorNotAllowed(connector)), state)
    else if matchCount > MaxMatches(env) then Checked(Deny(MatchCountOverMax(matchCount, MaxMatches(env))), state)
    else
      var g := CheckVsRecorded(index, MaxPickChangeRate, MaxConfidenceDeltaP95);
      GateKeysApart();
      Checked(g.verdict, state + g.state)
  }

  /** A batch of more than three matches is never allowed in burn-in mode, whatever the settings. */
  lemma BatchOverThreeDenied(env: Env, connector: string, matchCount: int, index: Result<Dict, string>)
    requires matchCount > MaxMatchesMax
    ensures CheckGateBatch(env, connector, matchCount, index).verdict.Deny?
  {
  }

  /** An allowed decision clears both confidence floors and, with the connector setting blank, comes from `real_provider`. */
  lemma AllowedClearsFloors(env: Env, connector: string, market: string, confidence: real, policyMin: real, index: Result<Dict, string>)
    requires CheckGate(env, connector, market, confidence, policyMin, index).verdict.Allow?
    ensures confidence >= policyMin && confidence >= MinConfidence(env)
    ensures Setting(env.connectors) == [] ==> connector == "real_provider"
  {
    assert connector in Connectors(env);
    if Setting(env.connectors) == [] {
      var s := Strip(env.connectors.GetOr(""));
      assert |Lower(s)| == |s|;
      assert Connectors(env) == DefaultConnectors;
    }
  }
}
