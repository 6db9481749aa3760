/**
 * The activation gate: the ordered checks that decide whether a decision,
 * or a batch of matches, may be activated for real. The kill switch comes
 * first, then the enabling switches and the mode; burn-in mode hands over to
 * the burn-in gate, the other modes check the connector and market
 * whitelists, the confidence floors or the match cap, and the recent
 * live-shadow runs of the reports index.
 */
module Gate {
  import opened Wrappers
  import opened Text
  import opened Json
  import opened IndexStore
  import opened ActivationEnv
  import BurnIn
  import Tiers

  /** The recognised activation modes. */
  const Modes: set<string> := {"limited", "burn_in", "expanded"}

  /** How many of the newest live-shadow analyze runs the guardrail looks at. */
  const GuardrailRuns: int := 5

  /** Why the live-shadow guardrail fails. */
  datatype GuardFailure =
    | RunAlerts(runId: Json, alerts: real)  // a recent run recorded alerts
    | Unable                                // the index or a run could not be inspected

  /** Why a gate refuses; each case is one of the code's reason messages. */
  datatype Denial =
    | KillSwitchOn
    | NotEnabled
    | UnknownMode(mode: string)
    | LiveWritesOff
    | LiveIoOff
    | BurnInDenied(why: BurnIn.Denial)
    | ConnectorNotWhitelisted(connector: string)
    | MarketNotWhitelisted(market: string)
    | BelowPolicyMinimum(confidence: real, minimum: real)
    | BelowActivationMinimum(confidence: real, minimum: real)
    | MaxMatchesUnset
    | MatchCountOverCap(count: int, cap: int)
    | GuardrailsFailed(failure: GuardFailure)

  /** `(allowed, reason)`: `Allow` is `(True, None)`. */
  datatype Verdict = Allow | Deny(reason: Denial)

  /** `_activation_mode`: the mode setting, stripped and lower-cased; empty when unset. */
  function Mode(env: Env): (m: string)
    ensures env.mode.None? ==> m == ""
    ensures env.mode == Some("limited") ==> m == "limited"
    ensures env.mode == Some("burn_in") ==> m == "burn_in"
    ensures env.mode == Some("expanded") ==> m == "expanded"
  {
    if env.mode == Some("limited") then
      SettingOfWord("limited");
      Setting(env.mode)
    else if env.mode == Some("burn_in") then
      SettingOfWord("burn_in");
      Setting(env.mode)
    else if env.mode == Some("expanded") then
      SettingOfWord("expanded");
      Setting(env.mode)
    else Setting(env.mode)
  }

  /** `_activation_connectors`: with the setting blank, the empty set, which admits every connector. */
  function Connectors(env: Env): (r: set<string>)
    ensures Strip(env.connectors.GetOr("")) == [] ==> r == {}
    ensures forall x :: x in r ==> Trimmed(x)
    ensures env.connectors.Some? && Trimmed(env.connectors.value) && ',' !in env.connectors.value ==> r == {env.connectors.value}
  {
    if env.connectors.Some? && Trimmed(env.connectors.value) && ',' !in env.connectors.value then
      WhitelistOfOne(env.connectors.value, {});
      Whitelist(env.connectors, {})
    else Whitelist(env.connectors, {})
  }

  /** `_activation_markets`: with the setting blank, `1X2` only. */
  function Markets(env: Env): (r: set<string>)
    ensures Strip(env.markets.GetOr("")) == [] ==> r == {"1X2"}
    ensures forall x :: x in r ==> Trimmed(x)
    ensures env.markets.Some? && Trimmed(env.markets.value) && ',' !in env.markets.value ==> r == {env.markets.value}
  {
    if env.markets.Some? && Trimmed(env.markets.value) && ',' !in env.markets.value then
      WhitelistOfOne(env.markets.value, BurnIn.DefaultMarkets);
      Whitelist(env.markets, BurnIn.DefaultMarkets)
    else Whitelist(env.markets, BurnIn.DefaultMarkets)
  }

  /**
   * `_activation_min_confidence`: the tier floor of the current mode; the
   * burn-in floor in burn-in mode, the parsed setting (0.80 by default) in
   * the other known modes.
   */
  function ActivationMinConfidence(env: Env): (r: real)
    ensures Mode(env) == "burn_in" ==> r == BurnIn.MinConfidence(env)
    ensures Mode(env) == "limited" || Mode(env) == "expanded" ==> r == FloatOr(env.minConfidence, Tiers.DefaultMinConfidence)
  {
    var m := Mode(env);
    assert m != "" ==> Tiers.EffectiveTier(Some(m), env) == m;
    Tiers.TierMinConfidence(Some(m), env)
  }

  /**
   * `_activation_max_matches`: the tier cap of the current mode; never above
   * 10, and in burn-in mode between 1 and 3.
   */
  function ActivationMaxMatches(env: Env): (r: int)
    ensures 0 <= r <= Tiers.HardCap
    ensures Mode(env) == "burn_in" ==> 1 <= r <= BurnIn.MaxMatchesMax
    ensures Mode(env) == "limited" || Mode(env) == "expanded" ==> r == Tiers.MaxMatchesSetting(env)
  {
    var m := Mode(env);
    assert m != "" ==> Tiers.EffectiveTier(Some(m), env) == m;
    Tiers.TierMaxMatches(Some(m), env)
  }

  /** `allowed_connectors and connector_name not in allowed_connectors`, negated. */
  predicate ConnectorAdmitted(env: Env, connector: string) {
    Connectors(env) == {} || connector in Connectors(env)
  }

  /** Python's `runs[-m:]`: the last `m` runs for a positive `m`; `runs[0:]`, all of them, for `m == 0`. */
  function Recent(runs: seq<Json>, m: int): (r: seq<Json>)
    ensures m > 0 ==> |r| == (if m < |runs| then m else |runs|) && r == runs[|runs| - |r|..]
    ensures m <= 0 ==> r == runs[(if -m < |runs| then -m else |runs|)..]
  {
    var start := if -m < 0 then (if |runs| - m < 0 then 0 else |runs| - m) else (if -m < |runs| then -m else |runs|);
    runs[start..]
  }

  /** A run the guardrail lets through: a dictionary whose `alerts_count` (default 0) is not above 0. */
  predicate RunPasses(run: Json, require: bool): (b: bool)
    ensures b ==> run.JObj?
    ensures !require ==> (b <==> run.JObj?)
    ensures require && run.JObj? && "alerts_count" !in run.fields ==> b
  {
    run.JObj? &&
    (require ==>
       var a := PyNumber(GetOr(run.fields, "alerts_count", JInt(0)));
       a.Some? && a.value <= 0.0)
  }

  /** The loop over the recent runs: the failure of the first run that does not pass. */
  function FirstFailure(runs: seq<Json>, require: bool): (r: Option<GuardFailure>)
    ensures r.None? <==> forall i :: 0 <= i < |runs| ==> RunPasses(runs[i], require)
    ensures r.Some? && r.value.RunAlerts? ==>
              exists i :: 0 <= i < |runs| && runs[i].JObj? && r.value.alerts > 0.0 &&
                          r.value.runId == Get(runs[i].fields, "run_id") &&
                          forall j :: 0 <= j < i ==> RunPasses(runs[j], require)
  {
    if runs == [] then None
    else
      var run := runs[0];
      if !run.JObj? then Some(Unable)
      else if !require then FirstFailure(runs[1..], require)
      else
        match PyNumber(GetOr(run.fields, "alerts_count", JInt(0)))
        case None => Some(Unable)
        case Some(a) =>
          if a > 0.0 then Some(RunAlerts(Get(run.fields, "run_id"), a))
          else FirstFailure(runs[1..], require)
  }

  /**
   * `_check_live_shadow_guardrails`: no runs passes; otherwise every run of
   * `runs[-maxRuns:]` must pass. An index that cannot be loaded, or a run the
   * code cannot inspect, fails (the code catches every exception).
   */
  function CheckGuardrails(loaded: Result<Dict, string>, maxRuns: int, require: bool): (r: Option<GuardFailure>)
    ensures r.None? <==>
              loaded.Ok? &&
              var recent := Recent(BurnIn.AnalyzeRuns(loaded.value), maxRuns);
              forall i :: 0 <= i < |recent| ==> RunPasses(recent[i], require)
    ensures loaded.Err? ==> r == Some(Unable)
  {
    match loaded
    case Err(_) => Some(Unable)
    case Ok(index) =>
      var runs := BurnIn.AnalyzeRuns(index);
      if runs == [] then None
      else FirstFailure(Recent(runs, maxRuns), require)
  }

  /** The guardrail as the gates call it: the last five runs, any alert counts. */
  function Guardrails(loaded: Result<Dict, string>): Option<GuardFailure> {
    CheckGuardrails(loaded, GuardrailRuns, true)
  }

  /** The switches every gate checks first, in order, with the mode they leave. */
  function Preamble(env: Env): (p: Option<Denial>)
    ensures p.None? <==> !Flag(env.killSwitch) && Flag(env.enabled) && Mode(env) in Modes && Flag(env.liveWrites) &&
                         (Mode(env) == "burn_in" ==> env.liveIoAllowed)
    ensures Flag(env.killSwitch) ==> p == Some(KillSwitchOn)
    ensures !Flag(env.killSwitch) && !Flag(env.enabled) ==> p == Some(NotEnabled)
    ensures !Flag(env.killSwitch) && Flag(env.enabled) && Mode(env) !in Modes ==> p == Some(UnknownMode(Mode(env)))
  {
    if Flag(env.killSwitch) then Some(KillSwitchOn)
    else if !Flag(env.enabled) then Some(NotEnabled)
    else if Mode(env) !in Modes then Some(UnknownMode(Mode(env)))
    else if !Flag(env.liveWrites) then Some(LiveWritesOff)
    else if Mode(env) == "burn_in" && !env.liveIoAllowed then Some(LiveIoOff)
    else None
  }

  /** The burn-in gate's verdict in the gate's terms. */
  function FromBurnIn(v: BurnIn.Verdict): (r: Verdict)
    ensures r.Allow? <==> v.Allow?
  {
    match v
    case Allow => Allow
    case Deny(why) => Deny(BurnInDenied(why))
  }

  /** The limited/expanded checks of `check_activation_gate`, after the switches. */
  predicate DecisionChecksPass(env: Env, connector: string, market: string, confidence: real, policyMin: real, loaded: Result<Dict, string>) {
    ConnectorAdmitted(env, connector) && market in Markets(env) && confidence >= policyMin &&
    (ActivationMinConfidence(env) > 0.0 ==> confidence >= ActivationMinConfidence(env)) &&
    Guardrails(loaded).None?
  }

  /**
   * `check_activation_gate`. `loaded` is what loading the reports index
   * gives; the burn-in gate and the guardrail read the same file.
   */
  function CheckGate(env: Env, connector: string, market: string, confidence: real, policyMin: real, loaded: Result<Dict, string>): (v: Verdict)
    ensures v.Allow? <==>
              Preamble(env).None? &&
              (if Mode(env) == "burn_in" then BurnIn.CheckGate(env, connector, market, confidence, policyMin, loaded).verdict.Allow?
               else DecisionChecksPass(env, connector, market, confidence, policyMin, loaded))
    ensures Preamble(env).Some? ==> v == Deny(Preamble(env).value)
    ensures Preamble(env).None? && Mode(env) != "burn_in" ==>
              (!ConnectorAdmitted(env, connector) ==> v == Deny(ConnectorNotWhitelisted(connector))) &&
              (ConnectorAdmitted(env, connector) && market !in Markets(env) ==> v == Deny(MarketNotWhitelisted(market))) &&
              (ConnectorAdmitted(env, connector) && market in Markets(env) && confidence < policyMin ==>
                 v == Deny(BelowPolicyMinimum(confidence, policyMin)))
  {
    if Preamble(env).Some? then Deny(Preamble(env).value)
    else if Mode(env) == "burn_in" then
      FromBurnIn(BurnIn.CheckGate(env, connector, market, confidence, policyMin, loaded).verdict)
    else if !ConnectorAdmitted(env, connector) then Deny(ConnectorNotWhitelisted(connector))
    else if market !in Markets(env) then Deny(MarketNotWhitelisted(market))
    else if confidence < policyMin then Deny(BelowPolicyMinimum(confidence, policyMin))
    else if ActivationMinConfidence(env) > 0.0 && confidence < ActivationMinConfidence(env) then
      Deny(BelowActivationMinimum(confidence, ActivationMinConfidence(env)))
    else if Guardrails(loaded).Some? then Deny(GuardrailsFailed(Guardrails(loaded).value))
    else Allow
  }

  /** The limited/expanded checks of `check_activation_gate_batch`, after the switches. */
  predicate BatchChecksPass(env: Env, connector: string, matchCount: int, loaded: Result<Dict, string>) {
    ConnectorAdmitted(env, connector) && ActivationMaxMatches(env) > 0 && matchCount <= ActivationMaxMatches(env) &&
    Guardrails(loaded).None?
  }

  /** `check_activation_gate_batch`. */
  function CheckGateBatch(env: Env, connector: string, matchCount: int, loaded: Result<Dict, string>): (v: Verdict)
    ensures v.Allow? <==>
              Preamble(env).None? &&
              (if Mode(env) == "burn_in" then BurnIn.CheckGateBatch(env, connector, matchCount, loaded).verdict.Allow?
               else BatchChecksPass(env, connector, matchCount, loaded))
    ensures Preamble(env).Some? ==> v == Deny(Preamble(env).value)
    ensures Preamble(env).None? && Mode(env) != "burn_in" && ConnectorAdmitted(env, connector) ==>
              (ActivationMaxMatches(env) <= 0 ==> v == Deny(MaxMatchesUnset)) &&
              (0 < ActivationMaxMatches(env) < matchCount ==> v == Deny(MatchCountOverCap(matchCount, ActivationMaxMatches(env))))
  {
    if Preamble(env).Some? then Deny(Preamble(env).value)
    else if Mode(env) == "burn_in" then
      FromBurnIn(BurnIn.CheckGateBatch(env, connector, matchCount, loaded).verdict)
    else if !ConnectorAdmitted(env, connector) then Deny(ConnectorNotWhitelisted(connector))
    else if ActivationMaxMatches(env) <= 0 then Deny(MaxMatchesUnset)
    else if matchCount > ActivationMaxMatches(env) then Deny(MatchCountOverCap(matchCount, ActivationMaxMatches(env)))
    else if Guardrails(loaded).Some? then Deny(GuardrailsFailed(Guardrails(loaded).value))
    else Allow
  }

  /** The kill switch denies both gates, whatever the other settings and inputs. */
  lemma KillSwitchWins(env: Env, connector: string, market: string, confidence: real, policyMin: real, matchCount: int, loaded: Result<Dict, string>)
    requires Flag(env.killSwitch)
    ensures CheckGate(env, connector, market, confidence, policyMin, loaded) == Deny(KillSwitchOn)
    ensures CheckGateBatch(env, connector, matchCount, loaded) == Deny(KillSwitchOn)
  {
  }

  /** An allowed decision outside burn-in mode has a whitelisted market and clears the policy floor. */
  lemma AllowedDecisionOutsideBurnIn(env: Env, connector: string, market: string, confidence: real, policyMin: real, loaded: Result<Dict, string>)
    requires CheckGate(env, connector, market, confidence, policyMin, loaded).Allow?
    requires Mode(env) != "burn_in"
    ensures market in Markets(env) && confidence >= policyMin
    ensures Strip(env.markets.GetOr("")) == [] ==> market == "1X2"
    ensures Guardrails(loaded).None? && loaded.Ok?
  {
    DecisionAllowedOutsideBurnIn(env, connector, market, confidence, policyMin, loaded);
    if Strip(env.markets.GetOr("")) == [] {
      BlankMarkets(env, market);
    }
  }

  lemma DecisionAllowedOutsideBurnIn(env: Env, connector: string, market: string, confidence: real, policyMin: real, loaded: Result<Dict, string>)
    requires CheckGate(env, connector, market, confidence, policyMin, loaded).Allow?
    requires Mode(env) != "burn_in"
    ensures Preamble(env).None? && DecisionChecksPass(env, connector, market, confidence, policyMin, loaded)
  {
  }

  /** Either gate allows only with the kill switch off, activation and live writes on and a known mode. */
  lemma AllowedNeedsSwitches(env: Env, connector: string, market: string, confidence: real, policyMin: real, matchCount: int, loaded: Result<Dict, string>)
    requires CheckGate(env, connector, market, confidence, policyMin, loaded).Allow? ||
             CheckGateBatch(env, connector, matchCount, loaded).Allow?
    ensures !Flag(env.killSwitch) && Flag(env.enabled) && Flag(env.liveWrites)
    ensures Mode(env) in Modes && (Mode(env) == "burn_in" ==> env.liveIoAllowed)
  {
  }

  lemma BlankMarkets(env: Env, market: string)
    requires Strip(env.markets.GetOr("")) == [] && market in Markets(env)
    ensures market == "1X2"
  {
  }

  /** With `ACTIVATION_CONNECTORS` blank, the connector name never changes a limited or expanded decision. */
  lemma BlankConnectorsAdmitAny(env: Env, c1: string, c2: string, market: string, confidence: real, policyMin: real, matchCount: int, loaded: Result<Dict, string>)
    requires Strip(env.connectors.GetOr("")) == [] && Mode(env) != "burn_in"
    ensures CheckGate(env, c1, market, confidence, policyMin, loaded) == CheckGate(env, c2, market, confidence, policyMin, loaded)
    ensures CheckGateBatch(env, c1, matchCount, loaded) == CheckGateBatch(env, c2, matchCount, loaded)
  {
  }

  /** An allowed batch never exceeds the hard cap of 10 matches, nor 3 in burn-in mode. */
  lemma AllowedBatchWithinCap(env: Env, connector: string, matchCount: int, loaded: Result<Dict, string>)
    requires CheckGateBatch(env, connector, matchCount, loaded).Allow?
    ensures matchCount <= Tiers.HardCap
    ensures Mode(env) == "burn_in" ==> matchCount <= BurnIn.MaxMatchesMax
  {
    if Mode(env) != "burn_in" {
      assert ActivationMaxMatches(env) <= Tiers.HardCap;
    }
  }

  /** Runs before the last five never affect the guardrail. */
  lemma {:induction false} OlderRunsIgnored(older: seq<Json>, recent: seq<Json>)
    requires |recent| == GuardrailRuns
    ensures Recent(older + recent, GuardrailRuns) == recent
    ensures Recent(recent, GuardrailRuns) == recent
  {
    assert (older + recent)[|older|..] == recent;
  }

  /** No analyze runs means the guardrail passes. */
  lemma NoRunsPass(index: Dict)
    requires BurnIn.AnalyzeRuns(index) == []
    ensures Guardrails(Ok(index)).None?
  {
  }

  /** One alerting run among the last five fails the guardrail, whatever the others hold. */
  lemma AlertingRecentRunFails(index: Dict, k: int)
    requires var runs := BurnIn.AnalyzeRuns(index); |runs| - GuardrailRuns <= k < |runs| && 0 <= k
    requires var run := BurnIn.AnalyzeRuns(index)[k];
             run.JObj? && var a := PyNumber(GetOr(run.fields, "alerts_count", JInt(0))); a.Some? && a.value > 0.0
    ensures Guardrails(Ok(index)).Some?
  {
    var runs := BurnIn.AnalyzeRuns(index);
    var recent := Recent(runs, GuardrailRuns);
    var i := k - (|runs| - |recent|);
    assert recent[i] == runs[k];
  }
}
