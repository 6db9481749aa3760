/**
 * The quality gates of analyzer v2. The hard gates run in a fixed order and stop
 * at the first one that fails, which blocks the market (NO_PREDICTION) with one flag;
 * the soft gates decide a downgrade to NO_BET the same way. The evidence-quality
 * score and the consensus quality are computed elsewhere and come in as parameters.
 */
module AnalyzerGates {
  /** The gate identifiers of `gate_results`. */
  datatype GateId =
    | Resolver
    | MissingKeyFeatures
    | EvidenceQuality
    | SourceConflict
    | SignalContradiction
    | MarketSupported
    | SoftBorderlineConfidence
    | SoftMinorFlags

  /** The controlled flag vocabulary. */
  datatype MarketFlag =
    | DataSparse
    | SourceConflictFlag
    | SignalContradictionFlag
    | LowQualityEvidence
    | OutlierDetected
    | SmallSample
    | StaleData
    | MissingKeyFeaturesFlag
    | ConsensusWeak
    | MarketNotSupported
    | InternalGuardrailTriggered
    | Ambiguous
    | NotFound

  /** One gate result: which gate, and whether it passed (the note text is not modelled). */
  datatype GateResult = GateResult(gateId: GateId, pass: bool)

  const SupportedMarkets: seq<string> := ["1X2", "OU_2.5", "BTTS"]
  /** Consensus quality below this blocks. */
  const ConflictT1Block: real := 0.4
  /** Consensus quality below this only passes with a confidence of at least the override. */
  const ConflictT2Downgrade: real := 0.65
  const OverrideConfidenceWhenBelowT2: real := 0.78
  const ThresholdEvidenceQuality: real := 0.5
  const MaxMinorFlagsBeforeNoBet: int := 2
  const DefaultMinConfidence: real := 0.62

  // ---------------------------------------------------------------- an early-return chain

  /** The position of the first failing check, or the length when all pass. */
  function FirstFailure(checks: seq<GateResult>): (k: nat)
    ensures k <= |checks|
    ensures forall i :: 0 <= i < k ==> checks[i].pass
    ensures k < |checks| ==> !checks[k].pass
  {
    if checks == [] then 0
    else if !checks[0].pass then 0
    else 1 + FirstFailure(checks[1..])
  }

  /** The chain stops at a failure. */
  predicate Blocked(checks: seq<GateResult>) {
    FirstFailure(checks) < |checks|
  }

  /** The results a chain of checks records: every check up to and including the first failure. */
  function Chain(checks: seq<GateResult>): seq<GateResult> {
    if Blocked(checks) then checks[..FirstFailure(checks) + 1] else checks
  }

  /**
   * A chain records a prefix of its checks; all but the last recorded pass, and the
   * last fails exactly when the chain stopped.
   */
  lemma ChainFacts(checks: seq<GateResult>)
    requires checks != []
    ensures var r := Chain(checks);
            0 < |r| <= |checks| && r == checks[..|r|] &&
            (forall i :: 0 <= i < |r| - 1 ==> r[i].pass) &&
            (Blocked(checks) <==> !r[|r| - 1].pass) &&
            (!Blocked(checks) ==> r == checks && forall i :: 0 <= i < |r| ==> r[i].pass)
  {
  }

  /** The chain stops at check `k` when that check fails and all before it pass. */
  lemma StopsAt(checks: seq<GateResult>, k: nat)
    requires k < |checks| && !checks[k].pass && forall i :: 0 <= i < k ==> checks[i].pass
    ensures FirstFailure(checks) == k && Blocked(checks) && Chain(checks) == checks[..k + 1]
  {
  }

  /** The chain runs through when every check passes. */
  lemma RunsThrough(checks: seq<GateResult>)
    requires forall i :: 0 <= i < |checks| ==> checks[i].pass
    ensures !Blocked(checks) && Chain(checks) == checks
  {
  }

  // ---------------------------------------------------------------- hard gates

  /** `_required_domains_for_market`: both of its branches give the stats domain. */
  function RequiredDomains(market: string): seq<string> {
    if market in SupportedMarkets then ["stats"] else ["stats"]
  }

  /** `any(m in missing for m in required)`. */
  predicate AnyMissing(missing: seq<string>, required: seq<string>) {
    exists i :: 0 <= i < |required| && required[i] in missing
  }

  /** The five hard checks in their order, as if each were reached. */
  function HardChecks(resolverStatus: string, market: string, missing: seq<string>, eqScore: real, cq: real): seq<GateResult> {
    [GateResult(Resolver, resolverStatus == "RESOLVED"),
     GateResult(MarketSupported, market in SupportedMarkets),
     GateResult(MissingKeyFeatures, !AnyMissing(missing, RequiredDomains(market))),
     GateResult(EvidenceQuality, eqScore >= ThresholdEvidenceQuality),
     GateResult(SourceConflict, cq >= ConflictT1Block)]
  }

  /** The flag each hard check raises when it is the one that fails. */
  function FailFlags(resolverStatus: string): seq<MarketFlag> {
    [if resolverStatus == "AMBIGUOUS" then Ambiguous else NotFound,
     MarketNotSupported, MissingKeyFeaturesFlag, LowQualityEvidence, SourceConflictFlag]
  }

  /** The flags of the hard gates: the failing check's flag, or the weak-consensus flag when all pass. */
  function HardFlags(resolverStatus: string, market: string, missing: seq<string>, eqScore: real, cq: real): seq<MarketFlag> {
    var checks := HardChecks(resolverStatus, market, missing, eqScore, cq);
    if Blocked(checks) then [FailFlags(resolverStatus)[FirstFailure(checks)]]
    else if cq < ConflictT2Downgrade then [ConsensusWeak]
    else []
  }

  /** `run_hard_gates`: the early-return chain, appending a result per gate reached. */
  method RunHardGates(resolverStatus: string, market: string, missing: seq<string>, eqScore: real, cq: real)
    returns (blocked: bool, gateResults: seq<GateResult>, flags: seq<MarketFlag>)
    ensures blocked == Blocked(HardChecks(resolverStatus, market, missing, eqScore, cq))
    ensures gateResults == Chain(HardChecks(resolverStatus, market, missing, eqScore, cq))
    ensures flags == HardFlags(resolverStatus, market, missing, eqScore, cq)
  {
    ghost var checks := HardChecks(resolverStatus, market, missing, eqScore, cq);
    gateResults, flags := [], [];
    if resolverStatus != "RESOLVED" {
      gateResults := gateResults + [GateResult(Resolver, false)];
      flags := flags + [if resolverStatus == "AMBIGUOUS" then Ambiguous else NotFound];
      StopsAt(checks, 0);
      return true, gateResults, flags;
    }
    gateResults := gateResults + [GateResult(Resolver, true)];

    if market !in SupportedMarkets {
      gateResults := gateResults + [GateResult(MarketSupported, false)];
      flags := flags + [MarketNotSupported];
      StopsAt(checks, 1);
      assert gateResults == checks[..2];
      return true, gateResults, flags;
    }
    gateResults := gateResults + [GateResult(MarketSupported, true)];

    var required := RequiredDomains(market);
    var anyMissing := exists i :: 0 <= i < |required| && required[i] in missing;
    if anyMissing {
      gateResults := gateResults + [GateResult(MissingKeyFeatures, false)];
      flags := flags + [MissingKeyFeaturesFlag];
      StopsAt(checks, 2);
      assert gateResults == checks[..3];
      return true, gateResults, flags;
    }
    gateResults := gateResults + [GateResult(MissingKeyFeatures, true)];

    if eqScore < ThresholdEvidenceQuality {
      gateResults := gateResults + [GateResult(EvidenceQuality, false)];
      flags := flags + [LowQualityEvidence];
      StopsAt(checks, 3);
      assert gateResults == checks[..4];
      return true, gateResults, flags;
    }
    gateResults := gateResults + [GateResult(EvidenceQuality, true)];

    if cq < ConflictT1Block {
      gateResults := gateResults + [GateResult(SourceConflict, false)];
      flags := flags + [SourceConflictFlag];
      StopsAt(checks, 4);
      assert gateResults == checks[..5];
      return true, gateResults, flags;
    }
    if cq < ConflictT2Downgrade {
      gateResults := gateResults + [GateResult(SourceConflict, true)];
      flags := flags + [ConsensusWeak];
    } else {
      gateResults := gateResults + [GateResult(SourceConflict, true)];
    }
    assert !AnyMissing(missing, required);
    RunsThrough(checks);
    blocked := false;
  }

  /** A resolver status other than RESOLVED blocks at once, with one failed result and its flag. */
  lemma NotResolvedBlocks(resolverStatus: string, market: string, missing: seq<string>, eqScore: real, cq: real)
    requires resolverStatus != "RESOLVED"
    ensures var checks := HardChecks(resolverStatus, market, missing, eqScore, cq);
            Blocked(checks) && Chain(checks) == [GateResult(Resolver, false)] &&
            HardFlags(resolverStatus, market, missing, eqScore, cq) == [if resolverStatus == "AMBIGUOUS" then Ambiguous else NotFound]
  {
  }

  /**
   * Past the resolver, an unsupported market, missing stats, or evidence quality below 0.5
   * each block at their own gate with exactly their one flag.
   */
  lemma MidGatesBlock(market: string, missing: seq<string>, eqScore: real, cq: real)
    ensures var checks := HardChecks("RESOLVED", market, missing, eqScore, cq);
            var flags := HardFlags("RESOLVED", market, missing, eqScore, cq);
            (market !in SupportedMarkets ==>
               Blocked(checks) && |Chain(checks)| == 2 && Chain(checks)[1] == GateResult(MarketSupported, false) &&
               flags == [MarketNotSupported]) &&
            (market in SupportedMarkets && "stats" in missing ==>
               Blocked(checks) && |Chain(checks)| == 3 && Chain(checks)[2] == GateResult(MissingKeyFeatures, false) &&
               flags == [MissingKeyFeaturesFlag]) &&
            (market in SupportedMarkets && "stats" !in missing && eqScore < 0.5 ==>
               Blocked(checks) && |Chain(checks)| == 4 && Chain(checks)[3] == GateResult(EvidenceQuality, false) &&
               flags == [LowQualityEvidence])
  {
    var checks := HardChecks("RESOLVED", market, missing, eqScore, cq);
    assert RequiredDomains(market) == ["stats"];
    assert AnyMissing(missing, ["stats"]) <==> "stats" in missing by {
      if "stats" in missing {
        assert ["stats"][0] in missing;
      }
    }
    if market !in SupportedMarkets {
      StopsAt(checks, 1);
    } else if "stats" in missing {
      StopsAt(checks, 2);
    } else if eqScore < 0.5 {
      StopsAt(checks, 3);
    }
  }

  /**
   * With the first four gates passed, consensus quality below 0.4 blocks with SOURCE_CONFLICT;
   * in [0.4, 0.65) the market passes with CONSENSUS_WEAK; from 0.65 on it passes with no flag.
   */
  lemma ConsensusGate(market: string, missing: seq<string>, eqScore: real, cq: real)
    requires market in SupportedMarkets && "stats" !in missing && eqScore >= 0.5
    ensures var checks := HardChecks("RESOLVED", market, missing, eqScore, cq);
            var flags := HardFlags("RESOLVED", market, missing, eqScore, cq);
            (cq < 0.4 ==> Blocked(checks) && |Chain(checks)| == 5 && Chain(checks)[4] == GateResult(SourceConflict, false) &&
                          flags == [SourceConflictFlag]) &&
            (0.4 <= cq < 0.65 ==> !Blocked(checks) && |Chain(checks)| == 5 && flags == [ConsensusWeak]) &&
            (0.65 <= cq ==> !Blocked(checks) && |Chain(checks)| == 5 && flags == [])
  {
    var checks := HardChecks("RESOLVED", market, missing, eqScore, cq);
    assert RequiredDomains(market) == ["stats"];
    assert !AnyMissing(missing, ["stats"]);
    if cq < 0.4 {
      StopsAt(checks, 4);
    } else {
      RunsThrough(checks);
    }
  }

  /**
   * Blocked exactly when the last recorded gate failed; a blocked market has one flag,
   * and a market that is not blocked passed all five gates with at most CONSENSUS_WEAK.
   */
  lemma HardGatesShape(resolverStatus: string, market: string, missing: seq<string>, eqScore: real, cq: real)
    ensures var checks := HardChecks(resolverStatus, market, missing, eqScore, cq);
            var r := Chain(checks);
            var flags := HardFlags(resolverStatus, market, missing, eqScore, cq);
            0 < |r| <= 5 && (Blocked(checks) <==> !r[|r| - 1].pass) &&
            (forall i :: 0 <= i < |r| - 1 ==> r[i].pass) &&
            (Blocked(checks) ==> |flags| == 1) &&
            (!Blocked(checks) ==> |r| == 5 && (flags == [] || flags == [ConsensusWeak]))
  {
    ChainFacts(HardChecks(resolverStatus, market, missing, eqScore, cq));
  }

  // ---------------------------------------------------------------- soft gates

  /** The two soft checks: borderline confidence (either of its two failures), then the minor flags. */
  function SoftChecks(confidence: real, minorFlagsCount: int, consensusQuality: real, minConfidence: real): seq<GateResult> {
    [GateResult(SoftBorderlineConfidence,
                !(confidence < minConfidence) &&
                !(consensusQuality < ConflictT2Downgrade && confidence < OverrideConfidenceWhenBelowT2)),
     GateResult(SoftMinorFlags, minorFlagsCount < MaxMinorFlagsBeforeNoBet)]
  }

  /** `should_downgrade_to_no_bet`. */
  method ShouldDowngradeToNoBet(confidence: real, minorFlagsCount: int, consensusQuality: real, minConfidence: real)
    returns (downgrade: bool, gateResults: seq<GateResult>)
    ensures downgrade == Blocked(SoftChecks(confidence, minorFlagsCount, consensusQuality, minConfidence))
    ensures gateResults == Chain(SoftChecks(confidence, minorFlagsCount, consensusQuality, minConfidence))
  {
    ghost var checks := SoftChecks(confidence, minorFlagsCount, consensusQuality, minConfidence);
    gateResults := [];
    if confidence < minConfidence {
      gateResults := gateResults + [GateResult(SoftBorderlineConfidence, false)];
      StopsAt(checks, 0);
      return true, gateResults;
    }
    if consensusQuality < ConflictT2Downgrade && confidence < OverrideConfidenceWhenBelowT2 {
      gateResults := gateResults + [GateResult(SoftBorderlineConfidence, false)];
      StopsAt(checks, 0);
      return true, gateResults;
    }
    gateResults := gateResults + [GateResult(SoftBorderlineConfidence, true)];
    if minorFlagsCount >= MaxMinorFlagsBeforeNoBet {
      gateResults := gateResults + [GateResult(SoftMinorFlags, false)];
      StopsAt(checks, 1);
      return true, gateResults;
    }
    gateResults := gateResults + [GateResult(SoftMinorFlags, true)];
    RunsThrough(checks);
    downgrade := false;
  }

  /**
   * NO_BET exactly when the confidence is below the minimum, or the consensus is below 0.65
   * with a confidence below 0.78, or there are two or more minor flags; a confidence failure
   * stops before the minor-flags gate.
   */
  lemma DowngradeRule(confidence: real, minorFlagsCount: int, consensusQuality: real, minConfidence: real)
    ensures var checks := SoftChecks(confidence, minorFlagsCount, consensusQuality, minConfidence);
            (Blocked(checks) <==>
               confidence < minConfidence || (consensusQuality < 0.65 && confidence < 0.78) || minorFlagsCount >= 2) &&
            (|Chain(checks)| == 1 <==> confidence < minConfidence || (consensusQuality < 0.65 && confidence < 0.78)) &&
            (Blocked(checks) <==> !Chain(checks)[|Chain(checks)| - 1].pass)
  {
    var checks := SoftChecks(confidence, minorFlagsCount, consensusQuality, minConfidence);
    ChainFacts(checks);
    if !checks[0].pass {
      StopsAt(checks, 0);
    } else if !checks[1].pass {
      StopsAt(checks, 1);
    } else {
      RunsThrough(checks);
    }
  }
}
