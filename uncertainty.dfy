/**
 * Uncertainty signals of one decision: stale evidence, low effective
 * confidence in the shadow rows of its run, and reason-decay fits without
 * support; and the simulated refusal rule over those signals.
 */
module Uncertainty {
  import opened Wrappers
  import Sorting
  import ReasonDecay

  /** `STALE_EVIDENCE_BANDS`. */
  const StaleEvidenceBands: seq<string> := ["3d-7d", "7d+"]
  /** `LOW_EFFECTIVE_CONFIDENCE_THRESHOLD`. */
  const LowEffectiveConfidenceThreshold: real := 0.5
  /** `LOW_SUPPORT_BANDS_WITH_SUPPORT`: a fit with at most this many supported bands is low support. */
  const LowSupportBandsWithSupport: int := 0

  datatype SignalType = StaleEvidence | LowEffectiveConfidence | LowSupport

  datatype Signal = Signal(signalType: SignalType, reasonCode: string, triggered: bool)

  datatype Profile = Profile(runId: string, signals: seq<Signal>)

  /** What `float(row["penalized_confidence"])` gives: no value, an exception, or a number. */
  datatype Penalized = Missing | NotFloat | Float(value: real)

  /** A shadow row, with `""` for a missing run id, market or reason code. */
  datatype ShadowRow = ShadowRow(runId: string, market: string, reasonCode: string, penalized: Penalized)

  /**
   * The decision record: `ageBand` is `None` when the key is missing or
   * null, and a market whose code list is null has the empty list.
   */
  datatype DecisionRecord = DecisionRecord(runId: string, ageBand: Option<string>, reasonCodesByMarket: map<string, seq<string>>)

  type GroupKey = (string, string)

  /** The fit quality of the decay parameters stored for each (market, reason code), `None` when absent. */
  type DecayMap = map<GroupKey, Option<ReasonDecay.FitDiagnostics>>

  /** The age band of the decision: a missing or empty band is the youngest, `0-30m`. */
  function AgeBand(d: DecisionRecord): (b: string)
    ensures d.ageBand.Some? && d.ageBand.value != "" ==> b == d.ageBand.value
    ensures d.ageBand.None? || d.ageBand.value == "" ==> b == "0-30m"
  {
    if d.ageBand.Some? && d.ageBand.value != "" then d.ageBand.value else "0-30m"
  }

  /** `_shadow_rows_for_run`. */
  function RowsForRun(rows: seq<ShadowRow>, runId: string): (r: seq<ShadowRow>)
    ensures forall x :: x in r <==> x in rows && x.runId == runId
  {
    if rows == [] then []
    else
      var rest := RowsForRun(rows[..|rows| - 1], runId);
      var last := rows[|rows| - 1];
      assert rows == rows[..|rows| - 1] + [last];
      if last.runId == runId then rest + [last] else rest
  }

  function RowKey(r: ShadowRow): GroupKey {
    (r.market, r.reasonCode)
  }

  /** `shadow_by_key`: the last row of each (market, reason code). */
  function ShadowIndex(rows: seq<ShadowRow>): map<GroupKey, ShadowRow> {
    if rows == [] then map[]
    else ShadowIndex(rows[..|rows| - 1])[RowKey(rows[|rows| - 1]) := rows[|rows| - 1]]
  }

  /** A key is indexed exactly when some row has it, and it maps to the last such row. */
  lemma ShadowIndexIsLastRow(rows: seq<ShadowRow>, k: GroupKey)
    ensures k in ShadowIndex(rows) <==> exists i :: 0 <= i < |rows| && RowKey(rows[i]) == k
    ensures k in ShadowIndex(rows) ==>
              exists i :: 0 <= i < |rows| && ShadowIndex(rows)[k] == rows[i] && RowKey(rows[i]) == k &&
                          forall j :: i < j < |rows| ==> RowKey(rows[j]) != k
  {
    ShadowIndexKeys(rows, k);
    ShadowIndexLast(rows, k);
  }

  lemma {:induction false} ShadowIndexKeys(rows: seq<ShadowRow>, k: GroupKey)
    ensures k in ShadowIndex(rows) <==> exists i :: 0 <= i < |rows| && RowKey(rows[i]) == k
    decreases |rows|
  {
    if rows != [] {
      var init := rows[..|rows| - 1];
      ShadowIndexKeys(init, k);
      if RowKey(rows[|rows| - 1]) != k {
        forall i | 0 <= i < |rows| && RowKey(rows[i]) == k ensures k in ShadowIndex(init) {
          assert init[i] == rows[i];
        }
        if k in ShadowIndex(init) {
          var i :| 0 <= i < |init| && RowKey(init[i]) == k;
          assert rows[i] == init[i];
        }
      }
    }
  }

  lemma ShadowIndexLast(rows: seq<ShadowRow>, k: GroupKey)
    ensures k in ShadowIndex(rows) ==>
              exists i :: 0 <= i < |rows| && ShadowIndex(rows)[k] == rows[i] && RowKey(rows[i]) == k &&
                          forall j :: i < j < |rows| ==> RowKey(rows[j]) != k
  {
    if k in ShadowIndex(rows) {
      var i := ShadowIndexLastAt(rows, k);
    }
  }

  /** The position of the row an indexed key maps to: no later row has that key. */
  lemma {:induction false} ShadowIndexLastAt(rows: seq<ShadowRow>, k: GroupKey) returns (i: nat)
    requires k in ShadowIndex(rows)
    ensures i < |rows| && ShadowIndex(rows)[k] == rows[i] && RowKey(rows[i]) == k
    ensures forall j :: i < j < |rows| ==> RowKey(rows[j]) != k
    decreases |rows|
  {
    var n := |rows| - 1;
    var init := rows[..n];
    if RowKey(rows[n]) == k {
      i := n;
    } else {
      i := ShadowIndexLastAt(init, k);
      assert forall j :: i < j < n ==> rows[j] == init[j];
    }
  }

  /** The loop that fills `shadow_by_key` from the run's rows. */
  method IndexShadowRows(run: seq<ShadowRow>) returns (index: map<GroupKey, ShadowRow>)
    ensures index == ShadowIndex(run)
  {
    index := map[];
    var i := 0;
    while i < |run|
      invariant 0 <= i <= |run|
      invariant index == ShadowIndex(run[..i])
    {
      assert run[..i + 1][..i] == run[..i];
      index := index[RowKey(run[i]) := run[i]];
      i := i + 1;
    }
    assert run[..i] == run;
  }

  /** The shadow row of `k` says its penalised confidence is a number below the threshold. */
  predicate LowConfidenceAt(index: map<GroupKey, ShadowRow>, k: GroupKey, threshold: real) {
    k in index && index[k].penalized.Float? && index[k].penalized.value < threshold
  }

  /** The decay fit of `k` has a fit quality with no supported band. */
  predicate LowSupportAt(decay: DecayMap, k: GroupKey) {
    k in decay && decay[k].Some? && decay[k].value.bandsWithSupport <= LowSupportBandsWithSupport
  }

  /** Some reason code of the decision has a low effective confidence. */
  ghost predicate LowConfidenceSeen(d: DecisionRecord, index: map<GroupKey, ShadowRow>, threshold: real) {
    exists m, c :: m in d.reasonCodesByMarket && c in d.reasonCodesByMarket[m] && LowConfidenceAt(index, (m, c), threshold)
  }

  /** Some reason code of the decision has a decay fit without support. */
  ghost predicate LowSupportSeen(d: DecisionRecord, decay: DecayMap) {
    exists m, c :: m in d.reasonCodesByMarket && c in d.reasonCodesByMarket[m] && LowSupportAt(decay, (m, c))
  }

  /** The same two facts over the first markets of a list and a prefix of one market's codes. */
  ghost predicate ConfSeenIn(ms: seq<string>, d: DecisionRecord, index: map<GroupKey, ShadowRow>, threshold: real) {
    exists m, c :: m in ms && m in d.reasonCodesByMarket && c in d.reasonCodesByMarket[m] && LowConfidenceAt(index, (m, c), threshold)
  }

  ghost predicate SupportSeenIn(ms: seq<string>, d: DecisionRecord, decay: DecayMap) {
    exists m, c :: m in ms && m in d.reasonCodesByMarket && c in d.reasonCodesByMarket[m] && LowSupportAt(decay, (m, c))
  }

  /**
   * `compute_uncertainty_profile`. The threshold's reason code embeds the
   * threshold as Python prints it, which is given as `thresholdText`.
   */
  method ComputeUncertaintyProfile(d: DecisionRecord, shadowRows: seq<ShadowRow>, decay: DecayMap,
                                   staleBands: seq<string>, threshold: real, thresholdText: string)
    returns (profile: Profile)
    ensures profile.runId == d.runId
    ensures |profile.signals| == 3
    ensures profile.signals[0] == Signal(StaleEvidence, AgeBand(d), AgeBand(d) in staleBands)
    ensures profile.signals[1].signalType == LowEffectiveConfidence && profile.signals[1].reasonCode == "threshold_" + thresholdText
    ensures profile.signals[1].triggered <==> LowConfidenceSeen(d, ShadowIndex(RowsForRun(shadowRows, d.runId)), threshold)
    ensures profile.signals[2].signalType == LowSupport && profile.signals[2].reasonCode == "decay_fit_low_support"
    ensures profile.signals[2].triggered <==> LowSupportSeen(d, decay)
  {
    var ageBand := AgeBand(d);
    var signals := [Signal(StaleEvidence, ageBand, ageBand in staleBands)];
    var index := IndexShadowRows(RowsForRun(shadowRows, d.runId));
    var markets := Sorting.SortedFromSet(d.reasonCodesByMarket.Keys);
    var seenLowConf, seenLowSupport := ScanReasonCodes(d, markets, index, decay, threshold);
    signals := signals + [Signal(LowEffectiveConfidence, "threshold_" + thresholdText, seenLowConf)];
    signals := signals + [Signal(LowSupport, "decay_fit_low_support", seenLowSupport)];
    profile := Profile(d.runId, signals);
  }

  /** The nested loop over the decision's markets, in sorted order, and their reason codes. */
  method ScanReasonCodes(d: DecisionRecord, markets: seq<string>, index: map<GroupKey, ShadowRow>, decay: DecayMap, threshold: real)
    returns (seenLowConf: bool, seenLowSupport: bool)
    requires forall m :: m in markets <==> m in d.reasonCodesByMarket
    ensures seenLowConf <==> LowConfidenceSeen(d, index, threshold)
    ensures seenLowSupport <==> LowSupportSeen(d, decay)
  {
    seenLowConf, seenLowSupport := false, false;
    var i := 0;
    while i < |markets|
      invariant 0 <= i <= |markets|
      invariant seenLowConf <==> ConfSeenIn(markets[..i], d, index, threshold)
      invariant seenLowSupport <==> SupportSeenIn(markets[..i], d, decay)
    {
      var market := markets[i];
      var codes := d.reasonCodesByMarket[market];
      var j := 0;
      while j < |codes|
        invariant 0 <= j <= |codes|
        invariant seenLowConf <==> ConfSeenIn(markets[..i], d, index, threshold) ||
                                   exists c :: c in codes[..j] && LowConfidenceAt(index, (market, c), threshold)
        invariant seenLowSupport <==> SupportSeenIn(markets[..i], d, decay) ||
                                      exists c :: c in codes[..j] && LowSupportAt(decay, (market, c))
      {
        var code := codes[j];
        assert codes[..j + 1] == codes[..j] + [code];
        if (market, code) in index && index[(market, code)].penalized.Float? && index[(market, code)].penalized.value < threshold {
          seenLowConf := true;
        }
        if (market, code) in decay && decay[(market, code)].Some? && decay[(market, code)].value.bandsWithSupport <= LowSupportBandsWithSupport {
          seenLowSupport := true;
        }
        j := j + 1;
      }
      assert codes[..j] == codes;
      MarketStep(markets, i, d, index, decay, threshold);
      i := i + 1;
    }
    assert markets[..i] == markets;
  }

  /** Taking one more market adds exactly the facts of its codes. */
  lemma MarketStep(markets: seq<string>, i: nat, d: DecisionRecord, index: map<GroupKey, ShadowRow>, decay: DecayMap, threshold: real)
    requires i < |markets| && markets[i] in d.reasonCodesByMarket
    ensures var codes := d.reasonCodesByMarket[markets[i]];
            (ConfSeenIn(markets[..i + 1], d, index, threshold) <==>
               ConfSeenIn(markets[..i], d, index, threshold) || exists c :: c in codes && LowConfidenceAt(index, (markets[i], c), threshold)) &&
            (SupportSeenIn(markets[..i + 1], d, decay) <==>
               SupportSeenIn(markets[..i], d, decay) || exists c :: c in codes && LowSupportAt(decay, (markets[i], c)))
  {
    assert markets[..i + 1] == markets[..i] + [markets[i]];
  }

  /** `compute_would_refuse`. */
  function WouldRefuse(profile: Profile): (r: bool)
    ensures r <==> |Triggered(profile.signals)| >= 2
  {
    var triggered := Triggered(profile.signals);
    var stale := exists i :: 0 <= i < |triggered| && triggered[i].signalType == StaleEvidence;
    var lowConf := exists i :: 0 <= i < |triggered| && triggered[i].signalType == LowEffectiveConfidence;
    TwoKindsTwoSignals(triggered);
    if stale && lowConf then true
    else |triggered| >= 2
  }

  /** The triggered signals, in order. */
  function Triggered(signals: seq<Signal>): (t: seq<Signal>)
    ensures |t| <= |signals|
    ensures forall s :: s in t <==> s in signals && s.triggered
  {
    if signals == [] then []
    else
      var rest := Triggered(signals[1..]);
      assert signals == [signals[0]] + signals[1..];
      if signals[0].triggered then [signals[0]] + rest else rest
  }

  /** A list holding both a stale and a low-confidence signal has at least two entries. */
  lemma TwoKindsTwoSignals(t: seq<Signal>)
    ensures ((exists i :: 0 <= i < |t| && t[i].signalType == StaleEvidence) &&
             (exists i :: 0 <= i < |t| && t[i].signalType == LowEffectiveConfidence)) ==> |t| >= 2
  {
    if (exists i :: 0 <= i < |t| && t[i].signalType == StaleEvidence) &&
       (exists i :: 0 <= i < |t| && t[i].signalType == LowEffectiveConfidence) {
      var a :| 0 <= a < |t| && t[a].signalType == StaleEvidence;
      var b :| 0 <= b < |t| && t[b].signalType == LowEffectiveConfidence;
      assert a != b;
    }
  }

  /** On a computed profile, refusal means at least two of the three signals fired. */
  lemma {:induction false} RefuseOnTwoOfThree(p: Profile)
    requires |p.signals| == 3
    ensures WouldRefuse(p) <==>
              (p.signals[0].triggered && p.signals[1].triggered) ||
              (p.signals[0].triggered && p.signals[2].triggered) ||
              (p.signals[1].triggered && p.signals[2].triggered)
  {
    var s := p.signals;
    assert s[1..][1..][1..] == [];
    var t2 := Triggered(s[1..][1..]);
    assert t2 == if s[2].triggered then [s[2]] else [];
    var t1 := Triggered(s[1..]);
    assert t1 == if s[1].triggered then [s[1]] + t2 else t2;
    assert Triggered(s) == if s[0].triggered then [s[0]] + t1 else t1;
  }

  /** No shadow row for the run means no low-confidence signal. */
  lemma NoShadowNoLowConfidence(d: DecisionRecord, shadowRows: seq<ShadowRow>, threshold: real)
    requires forall r :: r in shadowRows ==> r.runId != d.runId
    ensures !LowConfidenceSeen(d, ShadowIndex(RowsForRun(shadowRows, d.runId)), threshold)
  {
    var run := RowsForRun(shadowRows, d.runId);
    forall k ensures k !in ShadowIndex(run) {
      ShadowIndexIsLastRow(run, k);
    }
  }

  /** A group fitted by the reason-decay fit is low support exactly when no band reached the minimum support. */
  lemma FittedLowSupport(k: GroupKey, rows: seq<ReasonDecay.MetricsRow>, fittedAt: string)
    ensures var params := ReasonDecay.GroupParams(k, rows, fittedAt);
            LowSupportAt(map[k := Some(params.fitQuality)], k) <==>
              forall i :: 0 <= i < |ReasonDecay.BandOrder| ==> ReasonDecay.Totals(rows)[i] < ReasonDecay.MinSupport
  {
  }
}
