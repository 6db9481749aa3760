/**
 * Guardrails of the live shadow analysis: the decisions of a live and of a
 * recorded analysis are compared market by market (pick changes, confidence
 * deltas, coverage, reason churn), and a warning is raised for every rate
 * strictly above its threshold. Nothing is ever blocked.
 *
 * Python iterates over sets here; the model picks the next market with `:|`,
 * so every iteration order is covered.
 */
module LiveShadowGuardrails {
  import opened Wrappers
  import opened Json
  import opened Sorting
  import opened Rounding

  // ---------------------------------------------------------------- the analysis report

  /** An entry of `markets_picks_confidences`; a missing or falsy confidence is `None`. */
  datatype PickConf = PickConf(pick: Json, confidence: Option<real>)

  /** An entry of `decisions`; a missing or falsy field is `None` (or `JNull`). */
  datatype DecisionEntry = DecisionEntry(
    market: Option<string>,
    selection: Json,
    decision: Json,
    confidence: Option<real>,
    reasons: Option<seq<string>>)

  /** The `analysis` section of a report, its two lists in file order; a missing section is empty. */
  datatype Analysis = Analysis(picks: seq<(string, PickConf)>, decisions: seq<DecisionEntry>)

  /** `{pick, confidence, reasons}` of one market. */
  datatype MarketDecision = MarketDecision(pick: Json, confidence: real, reasons: seq<string>)

  type Decisions = map<string, MarketDecision>

  /** The decisions after the first loop of `_extract_decisions`: one per pick entry, a later one winning. */
  function FromPicks(picks: seq<(string, PickConf)>): Decisions {
    if picks == [] then map[]
    else
      var last := picks[|picks| - 1];
      FromPicks(picks[..|picks| - 1])[last.0 := MarketDecision(last.1.pick, last.1.confidence.GetOr(0.0), [])]
  }

  /** `if market:` — the entry names market `m`, a non-empty string. */
  predicate Names(e: DecisionEntry, m: string) {
    e.market == Some(m) && m != ""
  }

  /** `dec.get("selection") or dec.get("decision")`. */
  function EntryPick(e: DecisionEntry): Json {
    if Truthy(e.selection) then e.selection else e.decision
  }

  /** One step of the second loop: create the market if needed, then replace its reasons. */
  function ApplyEntry(d: Decisions, e: DecisionEntry): Decisions {
    match e.market
    case None => d
    case Some(m) =>
      if m == "" then d
      else
        var base := if m in d then d[m] else MarketDecision(EntryPick(e), e.confidence.GetOr(0.0), []);
        d[m := base.(reasons := e.reasons.GetOr([]))]
  }

  function FromEntries(d: Decisions, es: seq<DecisionEntry>): Decisions {
    if es == [] then d else ApplyEntry(FromEntries(d, es[..|es| - 1]), es[|es| - 1])
  }

  /** What `_extract_decisions` returns for an analysis. */
  function Extract(a: Analysis): Decisions {
    FromEntries(FromPicks(a.picks), a.decisions)
  }

  /** `_extract_decisions`. */
  method ExtractDecisions(a: Analysis) returns (decisions: Decisions)
    ensures decisions == Extract(a)
  {
    decisions := map[];
    for j := 0 to |a.picks|
      invariant decisions == FromPicks(a.picks[..j])
    {
      assert a.picks[..j + 1][..j] == a.picks[..j];
      var (market, pc) := a.picks[j];
      decisions := decisions[market := MarketDecision(pc.pick, pc.confidence.GetOr(0.0), [])];
    }
    assert a.picks[..|a.picks|] == a.picks;
    ghost var base := decisions;
    for j := 0 to |a.decisions|
      invariant decisions == FromEntries(base, a.decisions[..j])
    {
      assert a.decisions[..j + 1][..j] == a.decisions[..j];
      var dec := a.decisions[j];
      if dec.market.Some? && dec.market.value != "" {
        var market := dec.market.value;
        if market !in decisions {
          decisions := decisions[market := MarketDecision(EntryPick(dec), dec.confidence.GetOr(0.0), [])];
        }
        decisions := decisions[market := decisions[market].(reasons := dec.reasons.GetOr([]))];
      }
    }
    assert a.decisions[..|a.decisions|] == a.decisions;
  }

  lemma {:induction false} FromPicksKeys(picks: seq<(string, PickConf)>, m: string)
    ensures m in FromPicks(picks) <==> exists i :: 0 <= i < |picks| && picks[i].0 == m
    ensures m in FromPicks(picks) ==> FromPicks(picks)[m].reasons == []
    decreases |picks|
  {
    if picks != [] {
      var n := |picks| - 1;
      FromPicksKeys(picks[..n], m);
      assert forall i :: 0 <= i < n ==> picks[..n][i] == picks[i];
    }
  }

  lemma {:induction false} FromEntriesKeys(d: Decisions, es: seq<DecisionEntry>, m: string)
    ensures m in FromEntries(d, es) <==> m in d || exists i :: 0 <= i < |es| && Names(es[i], m)
    decreases |es|
  {
    if es != [] {
      var n := |es| - 1;
      FromEntriesKeys(d, es[..n], m);
      assert forall i :: 0 <= i < n ==> es[..n][i] == es[i];
    }
  }

  /** An entry no later entry overrides sets the reasons of its market. */
  lemma {:induction false} FromEntriesLastReasons(d: Decisions, es: seq<DecisionEntry>, m: string, i: nat)
    requires i < |es| && Names(es[i], m)
    requires forall k :: i < k < |es| ==> !Names(es[k], m)
    ensures m in FromEntries(d, es) && FromEntries(d, es)[m].reasons == es[i].reasons.GetOr([])
    decreases |es|
  {
    var n := |es| - 1;
    if i < n {
      FromEntriesLastReasons(d, es[..n], m, i);
    }
  }

  /** Without an entry naming the market, the entries leave it as the picks made it. */
  lemma {:induction false} FromEntriesUntouched(d: Decisions, es: seq<DecisionEntry>, m: string)
    requires forall k :: 0 <= k < |es| ==> !Names(es[k], m)
    ensures m in FromEntries(d, es) <==> m in d
    ensures m in d ==> FromEntries(d, es)[m] == d[m]
    decreases |es|
  {
    if es != [] {
      FromEntriesUntouched(d, es[..|es| - 1], m);
    }
  }

  /**
   * The extracted markets are the pick markets and the markets decision entries
   * name; a market's reasons are those of the last entry naming it, and none
   * when no entry names it.
   */
  lemma ExtractFacts(a: Analysis, m: string)
    ensures m in Extract(a) <==>
            (exists i :: 0 <= i < |a.picks| && a.picks[i].0 == m) ||
            (exists i :: 0 <= i < |a.decisions| && Names(a.decisions[i], m))
    ensures forall i :: (0 <= i < |a.decisions| && Names(a.decisions[i], m) &&
                         (forall k :: i < k < |a.decisions| ==> !Names(a.decisions[k], m))) ==>
            m in Extract(a) && Extract(a)[m].reasons == a.decisions[i].reasons.GetOr([])
    ensures (forall k :: 0 <= k < |a.decisions| ==> !Names(a.decisions[k], m)) && m in Extract(a) ==>
            Extract(a)[m].reasons == []
  {
    FromPicksKeys(a.picks, m);
    FromEntriesKeys(FromPicks(a.picks), a.decisions, m);
    forall i | 0 <= i < |a.decisions| && Names(a.decisions[i], m) &&
               (forall k :: i < k < |a.decisions| ==> !Names(a.decisions[k], m))
      ensures m in Extract(a) && Extract(a)[m].reasons == a.decisions[i].reasons.GetOr([])
    {
      FromEntriesLastReasons(FromPicks(a.picks), a.decisions, m, i);
    }
    if forall k :: 0 <= k < |a.decisions| ==> !Names(a.decisions[k], m) {
      FromEntriesUntouched(FromPicks(a.picks), a.decisions, m);
    }
  }

  // ---------------------------------------------------------------- the rates

  /** `set(live) | set(recorded)`. */
  function AllMarkets(live: Decisions, rec: Decisions): set<string> {
    live.Keys + rec.Keys
  }

  /** `d.get(market, {}).get("pick")`. */
  function PickOf(d: Decisions, m: string): Json {
    if m in d then d[m].pick else JNull
  }

  /** `float(d.get(market, {}).get("confidence") or 0.0)`. */
  function ConfOf(d: Decisions, m: string): real {
    if m in d then d[m].confidence else 0.0
  }

  /** `d.get(market, {}).get("reasons") or []`. */
  function ReasonsOf(d: Decisions, m: string): seq<string> {
    if m in d then d[m].reasons else []
  }

  function Filter<T>(s: set<T>, p: T -> bool): (r: set<T>)
    ensures r <= s
  {
    set x | x in s && p(x)
  }

  /** `live_pick != rec_pick`. */
  function PickChanged(live: Decisions, rec: Decisions): string -> bool {
    m => !PyEq(PickOf(live, m), PickOf(rec, m))
  }

  /** `set(live_reasons) != set(rec_reasons)`. */
  function ReasonsChurned(live: Decisions, rec: Decisions): string -> bool {
    m => Elems(ReasonsOf(live, m)) != Elems(ReasonsOf(rec, m))
  }

  /** The share of all markets whose pick differs; 0 without markets. */
  function PickChangeRateOf(live: Decisions, rec: Decisions): real {
    var all := AllMarkets(live, rec);
    if all == {} then 0.0 else |Filter(all, PickChanged(live, rec))| as real / |all| as real
  }

  /** `_calculate_coverage_drop`: the percentage of recorded markets missing live; 0 without recorded markets. */
  function CoverageDropOf(live: Decisions, rec: Decisions): real {
    if rec.Keys == {} then 0.0 else |rec.Keys - live.Keys| as real / |rec.Keys| as real * 100.0
  }

  /** The share of the markets in both whose reason sets differ; 0 when they share none. */
  function ReasonChurnRateOf(live: Decisions, rec: Decisions): real {
    var common := live.Keys * rec.Keys;
    if common == {} then 0.0 else |Filter(common, ReasonsChurned(live, rec))| as real / |common| as real
  }

  /** `abs(live_conf - rec_conf)` of one market. */
  function Delta(live: Decisions, rec: Decisions, m: string): real {
    var d := ConfOf(live, m) - ConfOf(rec, m);
    if d < 0.0 then -d else d
  }

  function DeltaFn(live: Decisions, rec: Decisions): string -> real {
    m => Delta(live, rec, m)
  }

  /** `order` lists every element of `s` once: one way Python may iterate over the set. */
  ghost predicate IsEnumeration(order: seq<string>, s: set<string>) {
    Distinct(order) && forall x :: x in order <==> x in s
  }

  lemma CardFilterStep(done: set<string>, m: string, p: string -> bool)
    requires m !in done
    ensures |Filter(done + {m}, p)| == |Filter(done, p)| + (if p(m) then 1 else 0)
  {
    if p(m) {
      assert Filter(done + {m}, p) == Filter(done, p) + {m};
    } else {
      assert Filter(done + {m}, p) == Filter(done, p);
    }
  }

  /** Counting the markets of `all` that satisfy `p`, one market at a time in any order. */
  method CountWhere(all: set<string>, p: string -> bool) returns (count: nat)
    ensures count == |Filter(all, p)|
  {
    count := 0;
    var rest := all;
    ghost var done: set<string> := {};
    while rest != {}
      invariant rest + done == all && rest !! done
      invariant count == |Filter(done, p)|
      decreases |rest|
    {
      var m :| m in rest;
      CardFilterStep(done, m, p);
      if p(m) {
        count := count + 1;
      }
      rest := rest - {m};
      done := done + {m};
    }
    assert done == all;
  }

  /** `_calculate_pick_change_rate`. */
  method PickChangeRate(live: Decisions, rec: Decisions) returns (rate: real)
    ensures rate == PickChangeRateOf(live, rec)
  {
    var all := live.Keys + rec.Keys;
    if all == {} {
      return 0.0;
    }
    var changes := CountWhere(all, PickChanged(live, rec));
    rate := changes as real / |all| as real;
  }

  /** `_calculate_reason_churn_rate`. */
  method ReasonChurnRate(live: Decisions, rec: Decisions) returns (rate: real)
    ensures rate == ReasonChurnRateOf(live, rec)
  {
    var common := live.Keys * rec.Keys;
    if common == {} {
      return 0.0;
    }
    var churned := CountWhere(common, ReasonsChurned(live, rec));
    rate := churned as real / |common| as real;
  }

  /** `_calculate_confidence_deltas`: one delta per market, in the order the set was walked. */
  method ConfidenceDeltas(live: Decisions, rec: Decisions) returns (deltas: seq<real>, ghost order: seq<string>)
    ensures IsEnumeration(order, AllMarkets(live, rec))
    ensures deltas == MapSeq(order, DeltaFn(live, rec))
  {
    deltas, order := [], [];
    var rest := live.Keys + rec.Keys;
    ghost var done: set<string> := {};
    while rest != {}
      invariant DeltasWalk(live, rec, rest, done, order, deltas)
      decreases |rest|
    {
      var m :| m in rest;
      var liveConf := ConfOf(live, m);
      var recConf := ConfOf(rec, m);
      var d := if liveConf - recConf < 0.0 then recConf - liveConf else liveConf - recConf;
      DeltasWalkStep(live, rec, rest, done, order, deltas, m, d);
      deltas := deltas + [d];
      order := order + [m];
      rest := rest - {m};
      done := done + {m};
    }
    DeltasWalkDone(live, rec, done, order, deltas);
  }

  /** The loop invariant of `ConfidenceDeltas`: the walked markets, once each, with their deltas. */
  ghost predicate DeltasWalk(live: Decisions, rec: Decisions, rest: set<string>, done: set<string>,
                             order: seq<string>, deltas: seq<real>) {
    rest + done == AllMarkets(live, rec) && rest !! done &&
    Distinct(order) && (forall x :: x in order <==> x in done) &&
    |deltas| == |order| && forall i :: 0 <= i < |order| ==> deltas[i] == Delta(live, rec, order[i])
  }

  lemma DeltasWalkStep(live: Decisions, rec: Decisions, rest: set<string>, done: set<string>,
                       order: seq<string>, deltas: seq<real>, m: string, d: real)
    requires DeltasWalk(live, rec, rest, done, order, deltas) && m in rest
    requires d == (if ConfOf(live, m) - ConfOf(rec, m) < 0.0 then ConfOf(rec, m) - ConfOf(live, m) else ConfOf(live, m) - ConfOf(rec, m))
    ensures DeltasWalk(live, rec, rest - {m}, done + {m}, order + [m], deltas + [d])
    ensures |rest - {m}| < |rest|
  {
    EnumerationStep(order, done, m);
    assert (rest - {m}) + (done + {m}) == rest + done;
    assert d == Delta(live, rec, m);
    var o, ds := order + [m], deltas + [d];
    forall i | 0 <= i < |o| ensures ds[i] == Delta(live, rec, o[i]) {
      if i < |order| {
        assert ds[i] == deltas[i] && o[i] == order[i];
      }
    }
  }

  lemma DeltasWalkDone(live: Decisions, rec: Decisions, done: set<string>, order: seq<string>, deltas: seq<real>)
    requires DeltasWalk(live, rec, {}, done, order, deltas)
    ensures IsEnumeration(order, AllMarkets(live, rec))
    ensures deltas == MapSeq(order, DeltaFn(live, rec))
  {
    assert forall i :: 0 <= i < |order| ==> MapSeq(order, DeltaFn(live, rec))[i] == deltas[i];
  }

  /** Walking one more fresh element keeps the walk an enumeration of what was walked. */
  lemma EnumerationStep(order: seq<string>, done: set<string>, m: string)
    requires Distinct(order) && (forall x :: x in order <==> x in done) && m !in done
    ensures Distinct(order + [m]) && forall x :: x in order + [m] <==> x in done + {m}
  {
    forall i, j | 0 <= i < j < |order + [m]| ensures (order + [m])[i] != (order + [m])[j] {
      assert (order + [m])[i] == order[i];
      if j < |order| {
        assert (order + [m])[j] == order[j];
      } else {
        assert order[i] in done;
      }
    }
  }

  /** Nothing is counted exactly when no element satisfies the condition. */
  lemma NoneFiltered(s: set<string>, p: string -> bool)
    ensures |Filter(s, p)| == 0 <==> forall x :: x in s ==> !p(x)
  {
    if Filter(s, p) != {} {
      var x :| x in Filter(s, p);
      assert p(x) && |Filter(s, p)| != 0;
    } else {
      forall x | x in s ensures !p(x) {
        assert x in Filter(s, p) <==> p(x);
      }
    }
  }

  lemma SubsetCard(a: set<string>, b: set<string>)
    requires a <= b
    ensures |a| <= |b|
  {
    assert b == a + (b - a);
  }

  lemma Ratio(a: nat, b: nat)
    requires a <= b && 0 < b
    ensures 0.0 <= a as real / b as real <= 1.0
    ensures a as real / b as real == 0.0 <==> a == 0
  {
  }

  /** The pick change rate is a share in [0, 1], and 0 exactly when no pick changed. */
  lemma PickChangeRateFacts(live: Decisions, rec: Decisions)
    ensures 0.0 <= PickChangeRateOf(live, rec) <= 1.0
    ensures PickChangeRateOf(live, rec) == 0.0 <==>
            forall m :: m in AllMarkets(live, rec) ==> PyEq(PickOf(live, m), PickOf(rec, m))
  {
    var all := AllMarkets(live, rec);
    var changed := Filter(all, PickChanged(live, rec));
    if all != {} {
      SubsetCard(changed, all);
      Ratio(|changed|, |all|);
    }
    NoneFiltered(all, PickChanged(live, rec));
  }

  /** Coverage drop is a percentage, and 0 exactly when every recorded market is live (or none is recorded). */
  lemma CoverageDropFacts(live: Decisions, rec: Decisions)
    ensures 0.0 <= CoverageDropOf(live, rec) <= 100.0
    ensures CoverageDropOf(live, rec) == 0.0 <==> rec.Keys <= live.Keys
  {
    if rec.Keys != {} {
      SubsetCard(rec.Keys - live.Keys, rec.Keys);
      Ratio(|rec.Keys - live.Keys|, |rec.Keys|);
      if rec.Keys - live.Keys != {} {
        var m :| m in rec.Keys - live.Keys;
        assert m !in live.Keys;
      }
    }
  }

  /** Reason churn is a share of the common markets in [0, 1]; only markets in both can churn. */
  lemma ReasonChurnFacts(live: Decisions, rec: Decisions)
    ensures 0.0 <= ReasonChurnRateOf(live, rec) <= 1.0
    ensures live.Keys * rec.Keys == {} ==> ReasonChurnRateOf(live, rec) == 0.0
    ensures ReasonChurnRateOf(live, rec) == 0.0 <==>
            forall m :: m in live.Keys * rec.Keys ==> Elems(ReasonsOf(live, m)) == Elems(ReasonsOf(rec, m))
  {
    var common := live.Keys * rec.Keys;
    var churned := Filter(common, ReasonsChurned(live, rec));
    if common != {} {
      SubsetCard(churned, common);
      Ratio(|churned|, |common|);
    }
    NoneFiltered(common, ReasonsChurned(live, rec));
  }

  // ---------------------------------------------------------------- the 95th percentile

  function RealKey(x: real): Key {
    [Num(x)]
  }

  /** `int(n * 0.95)`: the index of the 95th percentile, inside the list. */
  function P95Index(n: nat): (k: nat)
    ensures n > 0 ==> k < n
    ensures 20 * k <= 19 * n < 20 * (k + 1)
  {
    n * 19 / 20
  }

  /** `sorted(deltas)[int(len(deltas) * 0.95)]`, 0 for no deltas. */
  function P95(deltas: seq<real>): real {
    if deltas == [] then 0.0 else SortBy(deltas, RealKey)[P95Index(|deltas|)]
  }

  lemma RealKeyLe(x: real, y: real)
    ensures KeyLe(RealKey(x), RealKey(y)) <==> x <= y
  {
    if x == y {
      KeyLtIrreflexive(RealKey(x));
    } else {
      assert RealKey(y)[0] != RealKey(x)[0];
    }
  }

  lemma RealKeyInjective()
    ensures forall x, y :: RealKey(x) == RealKey(y) ==> x == y
  {
    forall x, y | RealKey(x) == RealKey(y) ensures x == y {
      assert RealKey(x)[0] == RealKey(y)[0];
    }
  }

  /** The p95 is one of the deltas, with the sorted deltas up to its index at most it and those after at least it. */
  lemma P95Rank(deltas: seq<real>)
    requires deltas != []
    ensures var s := SortBy(deltas, RealKey);
            var k := P95Index(|deltas|);
            P95(deltas) in deltas && multiset(s) == multiset(deltas) &&
            (forall i :: 0 <= i <= k ==> s[i] <= P95(deltas)) &&
            (forall i :: k <= i < |s| ==> P95(deltas) <= s[i])
  {
    var s := SortBy(deltas, RealKey);
    var k := P95Index(|deltas|);
    SortBySorted(deltas, RealKey);
    assert s[k] in multiset(deltas);
    SortedAround(s, k);
  }

  /** In a list sorted by value, the entries up to `k` are at most `s[k]` and those from `k` on at least it. */
  lemma SortedAround(s: seq<real>, k: nat)
    requires SortedBy(s, RealKey) && k < |s|
    ensures forall i :: 0 <= i <= k ==> s[i] <= s[k]
    ensures forall i :: k <= i < |s| ==> s[k] <= s[i]
  {
    forall i | 0 <= i <= k ensures s[i] <= s[k] {
      if i < k { RealKeyLe(s[i], s[k]); }
    }
    forall i | k <= i < |s| ensures s[k] <= s[i] {
      if k < i { RealKeyLe(s[k], s[i]); }
    }
  }

  /** The p95 sees only the values, not their order. */
  lemma P95Permutation(a: seq<real>, b: seq<real>)
    requires multiset(a) == multiset(b)
    ensures P95(a) == P95(b)
  {
    SortBySorted(a, RealKey);
    SortBySorted(b, RealKey);
    RealKeyInjective();
    SortedUniqueBy(SortBy(a, RealKey), SortBy(b, RealKey), RealKey);
    assert |a| == |multiset(a)| == |multiset(b)| == |b|;
  }

  lemma EnumerationsPermute(o1: seq<string>, o2: seq<string>, s: set<string>)
    requires IsEnumeration(o1, s) && IsEnumeration(o2, s)
    ensures multiset(o1) == multiset(o2)
  {
    DistinctCounts(o1);
    DistinctCounts(o2);
    forall x ensures multiset(o1)[x] == multiset(o2)[x] {
      assert x in o1 <==> x in multiset(o1);
      assert x in o2 <==> x in multiset(o2);
    }
  }

  /** The confidence p95 is the same whichever order Python walks the markets in. */
  lemma P95OrderFree(live: Decisions, rec: Decisions, o1: seq<string>, o2: seq<string>)
    requires IsEnumeration(o1, AllMarkets(live, rec)) && IsEnumeration(o2, AllMarkets(live, rec))
    ensures P95(MapSeq(o1, DeltaFn(live, rec))) == P95(MapSeq(o2, DeltaFn(live, rec)))
  {
    EnumerationsPermute(o1, o2, AllMarkets(live, rec));
    MapPermutation(o1, o2, DeltaFn(live, rec));
    P95Permutation(MapSeq(o1, DeltaFn(live, rec)), MapSeq(o2, DeltaFn(live, rec)));
  }

  // ---------------------------------------------------------------- evaluate

  /** The four thresholds; `DEFAULT_POLICY` gives each one that the policy leaves out. */
  datatype Thresholds = Thresholds(maxPickChange: real, maxConfDelta: real, maxCoverageDrop: real, maxReasonChurn: real)

  const DefaultThresholds := Thresholds(0.3, 0.15, 20.0, 0.4)

  function PolicyValue(policy: map<string, real>, key: string, default: real): real {
    if key in policy then policy[key] else default
  }

  /**
   * `float(policy.get(key, DEFAULT_POLICY[key]))` for the four keys; an empty
   * policy is replaced by `DEFAULT_POLICY`, which reads the same defaults.
   */
  function ThresholdsOf(policy: map<string, real>): Thresholds {
    Thresholds(
      PolicyValue(policy, "max_pick_change_rate", DefaultThresholds.maxPickChange),
      PolicyValue(policy, "max_confidence_delta_p95", DefaultThresholds.maxConfDelta),
      PolicyValue(policy, "max_coverage_drop_pct", DefaultThresholds.maxCoverageDrop),
      PolicyValue(policy, "max_reason_churn_rate", DefaultThresholds.maxReasonChurn))
  }

  datatype AlertCode = PickChangeAlert | ConfidenceDeltaAlert | CoverageDropAlert | ReasonChurnAlert

  function CodeName(c: AlertCode): string {
    match c
    case PickChangeAlert => "LIVE_SHADOW_PICK_CHANGE_RATE"
    case ConfidenceDeltaAlert => "LIVE_SHADOW_CONFIDENCE_DELTA"
    case CoverageDropAlert => "LIVE_SHADOW_COVERAGE_DROP"
    case ReasonChurnAlert => "LIVE_SHADOW_REASON_CHURN"
  }

  /** An alert: its code, severity `WARN`, and the value and threshold its message quotes. */
  datatype Alert = Alert(code: AlertCode, severity: string, value: real, threshold: real)

  datatype Metrics = Metrics(pickChangeRate: real, confidenceDeltaP95: real, coverageDropPct: real, reasonChurnRate: real)

  /** The metrics of two decision sets, the deltas walked in `order`. */
  function MetricsOf(live: Decisions, rec: Decisions, order: seq<string>): Metrics {
    Metrics(PickChangeRateOf(live, rec), P95(MapSeq(order, DeltaFn(live, rec))),
            CoverageDropOf(live, rec), ReasonChurnRateOf(live, rec))
  }

  /** The metric and threshold a code compares. */
  function Compared(m: Metrics, t: Thresholds, c: AlertCode): (real, real) {
    match c
    case PickChangeAlert => (m.pickChangeRate, t.maxPickChange)
    case ConfidenceDeltaAlert => (m.confidenceDeltaP95, t.maxConfDelta)
    case CoverageDropAlert => (m.coverageDropPct, t.maxCoverageDrop)
    case ReasonChurnAlert => (m.reasonChurnRate, t.maxReasonChurn)
  }

  /** The one `if metric > threshold: alerts.append(...)` of a code. */
  function AlertOf(m: Metrics, t: Thresholds, c: AlertCode): seq<Alert> {
    var compared := Compared(m, t, c);
    if compared.0 > compared.1 then [Alert(c, "WARN", compared.0, compared.1)] else []
  }

  function AlertsOver(m: Metrics, t: Thresholds, codes: seq<AlertCode>): seq<Alert> {
    if codes == [] then [] else AlertOf(m, t, codes[0]) + AlertsOver(m, t, codes[1..])
  }

  /** The order of the four checks in `evaluate`. */
  const CheckOrder: seq<AlertCode> := [PickChangeAlert, ConfidenceDeltaAlert, CoverageDropAlert, ReasonChurnAlert]

  /** The alerts of `evaluate` for given metrics. */
  function AlertsFor(m: Metrics, t: Thresholds): seq<Alert> {
    AlertsOver(m, t, CheckOrder)
  }

  function CodeRank(c: AlertCode): nat {
    match c
    case PickChangeAlert => 0
    case ConfidenceDeltaAlert => 1
    case CoverageDropAlert => 2
    case ReasonChurnAlert => 3
  }

  ghost predicate RankIncreasing(codes: seq<AlertCode>) {
    forall i, j :: 0 <= i < j < |codes| ==> CodeRank(codes[i]) < CodeRank(codes[j])
  }

  ghost predicate AlertsRankIncreasing(r: seq<Alert>) {
    forall i, j :: 0 <= i < j < |r| ==> CodeRank(r[i].code) < CodeRank(r[j].code)
  }

  /** Every alert comes from one of the checked codes, warns, and quotes a metric above its threshold. */
  lemma {:induction false} AlertsOverShape(m: Metrics, t: Thresholds, codes: seq<AlertCode>)
    ensures var r := AlertsOver(m, t, codes);
            |r| <= |codes| &&
            forall i :: 0 <= i < |r| ==>
              r[i].code in codes && r[i].severity == "WARN" &&
              (r[i].value, r[i].threshold) == Compared(m, t, r[i].code) && r[i].value > r[i].threshold
    decreases |codes|
  {
    if codes != [] {
      var head, tail := AlertOf(m, t, codes[0]), AlertsOver(m, t, codes[1..]);
      var r: seq<Alert> := head + tail;
      AlertsOverShape(m, t, codes[1..]);
      forall i | 0 <= i < |r| ensures r[i].code in codes {
        if i >= |head| {
          assert r[i] == tail[i - |head|];
        }
      }
    }
  }

  /** A code has an alert exactly when it is checked and its metric is above its threshold. */
  lemma {:induction false} AlertsOverHas(m: Metrics, t: Thresholds, codes: seq<AlertCode>, c: AlertCode)
    ensures (exists i :: 0 <= i < |AlertsOver(m, t, codes)| && AlertsOver(m, t, codes)[i].code == c) <==>
            c in codes && Compared(m, t, c).0 > Compared(m, t, c).1
    decreases |codes|
  {
    if codes != [] {
      var head, tail := AlertOf(m, t, codes[0]), AlertsOver(m, t, codes[1..]);
      var r: seq<Alert> := head + tail;
      assert AlertsOver(m, t, codes) == r;
      AlertsOverHas(m, t, codes[1..], c);
      var over := Compared(m, t, c).0 > Compared(m, t, c).1;
      if c in codes && over {
        if c == codes[0] {
          assert head == [Alert(c, "WARN", Compared(m, t, c).0, Compared(m, t, c).1)];
          assert r[0].code == c;
        } else {
          assert c in codes[1..];
          var i :| 0 <= i < |tail| && tail[i].code == c;
          assert r[|head| + i].code == c;
        }
      }
      if exists i :: 0 <= i < |r| && r[i].code == c {
        var i :| 0 <= i < |r| && r[i].code == c;
        if i < |head| {
          assert head != [] && head[0].code == codes[0];
          assert c == codes[0] && over;
        } else {
          var j := i - |head|;
          assert r[i] == tail[j];
          assert 0 <= j < |tail| && tail[j].code == c;
          assert exists j :: 0 <= j < |AlertsOver(m, t, codes[1..])| && AlertsOver(m, t, codes[1..])[j].code == c;
          assert c in codes[1..] && Compared(m, t, c).0 > Compared(m, t, c).1;
          var k :| 0 <= k < |codes[1..]| && codes[1..][k] == c;
          assert codes[k + 1] == c;
        }
      }
    }
  }

  /** Checking codes in increasing rank gives alerts in increasing rank. */
  lemma {:induction false} AlertsOverOrder(m: Metrics, t: Thresholds, codes: seq<AlertCode>)
    requires RankIncreasing(codes)
    ensures AlertsRankIncreasing(AlertsOver(m, t, codes))
    decreases |codes|
  {
    if codes != [] {
      var head, tail := AlertOf(m, t, codes[0]), AlertsOver(m, t, codes[1..]);
      var r := head + tail;
      assert RankIncreasing(codes[1..]) by {
        forall i, j | 0 <= i < j < |codes[1..]| ensures CodeRank(codes[1..][i]) < CodeRank(codes[1..][j]) {
          assert codes[1..][i] == codes[i + 1] && codes[1..][j] == codes[j + 1];
        }
      }
      AlertsOverOrder(m, t, codes[1..]);
      AlertsOverShape(m, t, codes[1..]);
      forall i, j | 0 <= i < j < |r| ensures CodeRank(r[i].code) < CodeRank(r[j].code) {
        assert r[j] == tail[j - |head|];
        if i >= |head| {
          assert r[i] == tail[i - |head|];
        } else {
          var k :| 0 <= k < |codes[1..]| && codes[1..][k] == r[j].code;
          assert codes[1..][k] == codes[k + 1];
        }
      }
    }
  }

  /**
   * An alert is raised for a metric exactly when it is strictly above its
   * threshold; it warns and quotes both; codes come at most once, in the fixed order.
   */
  lemma AlertsFacts(m: Metrics, t: Thresholds, c: AlertCode)
    ensures var alerts := AlertsFor(m, t);
            (exists i :: 0 <= i < |alerts| && alerts[i].code == c) <==> Compared(m, t, c).0 > Compared(m, t, c).1
    ensures var alerts := AlertsFor(m, t);
            |alerts| <= 4 &&
            (forall i :: 0 <= i < |alerts| ==>
               alerts[i].severity == "WARN" && (alerts[i].value, alerts[i].threshold) == Compared(m, t, alerts[i].code) &&
               alerts[i].value > alerts[i].threshold) &&
            (forall i, j :: 0 <= i < j < |alerts| ==> CodeRank(alerts[i].code) < CodeRank(alerts[j].code))
  {
    assert AlertsFor(m, t) == AlertsOver(m, t, CheckOrder);
    AlertsOverShape(m, t, CheckOrder);
    AlertsOverHas(m, t, CheckOrder, c);
    assert RankIncreasing(CheckOrder);
    AlertsOverOrder(m, t, CheckOrder);
    assert c in CheckOrder by {
      match c
      case PickChangeAlert => assert CheckOrder[0] == c;
      case ConfidenceDeltaAlert => assert CheckOrder[1] == c;
      case CoverageDropAlert => assert CheckOrder[2] == c;
      case ReasonChurnAlert => assert CheckOrder[3] == c;
    }
  }

  /** `evaluate`: extract both sides, compute the four metrics, and warn on each one above its threshold. */
  method Evaluate(live: Analysis, rec: Analysis, policy: map<string, real>) returns (alerts: seq<Alert>)
    ensures forall o :: IsEnumeration(o, AllMarkets(Extract(live), Extract(rec))) ==>
              alerts == AlertsFor(MetricsOf(Extract(live), Extract(rec), o), ThresholdsOf(policy))
  {
    var liveDecisions := ExtractDecisions(live);
    var recordedDecisions := ExtractDecisions(rec);
    var pickChangeRate := PickChangeRate(liveDecisions, recordedDecisions);
    var confidenceDeltas, order := ConfidenceDeltas(liveDecisions, recordedDecisions);
    var confidenceDeltaP95 := if confidenceDeltas != [] then SortBy(confidenceDeltas, RealKey)[P95Index(|confidenceDeltas|)] else 0.0;
    var coverageDropPct := CoverageDropOf(liveDecisions, recordedDecisions);
    var reasonChurnRate := ReasonChurnRate(liveDecisions, recordedDecisions);
    var t := ThresholdsOf(policy);
    var metrics := Metrics(pickChangeRate, confidenceDeltaP95, coverageDropPct, reasonChurnRate);
    alerts := BuildAlerts(metrics, t);
    assert metrics == MetricsOf(liveDecisions, recordedDecisions, order);
    forall o | IsEnumeration(o, AllMarkets(liveDecisions, recordedDecisions))
      ensures MetricsOf(liveDecisions, recordedDecisions, o) == metrics
    {
      P95OrderFree(liveDecisions, recordedDecisions, order, o);
    }
  }

  /** The four `if metric > threshold: alerts.append(...)` checks of `evaluate`, in their order. */
  method BuildAlerts(m: Metrics, t: Thresholds) returns (alerts: seq<Alert>)
    ensures alerts == AlertsFor(m, t)
  {
    alerts := [];
    if m.pickChangeRate > t.maxPickChange {
      alerts := alerts + [Alert(PickChangeAlert, "WARN", m.pickChangeRate, t.maxPickChange)];
    }
    assert alerts == AlertOf(m, t, PickChangeAlert);
    if m.confidenceDeltaP95 > t.maxConfDelta {
      alerts := alerts + [Alert(ConfidenceDeltaAlert, "WARN", m.confidenceDeltaP95, t.maxConfDelta)];
    }
    assert alerts == AlertOf(m, t, PickChangeAlert) + AlertOf(m, t, ConfidenceDeltaAlert);
    if m.coverageDropPct > t.maxCoverageDrop {
      alerts := alerts + [Alert(CoverageDropAlert, "WARN", m.coverageDropPct, t.maxCoverageDrop)];
    }
    assert alerts == AlertOf(m, t, PickChangeAlert) + AlertOf(m, t, ConfidenceDeltaAlert) +
                     AlertOf(m, t, CoverageDropAlert);
    if m.reasonChurnRate > t.maxReasonChurn {
      alerts := alerts + [Alert(ReasonChurnAlert, "WARN", m.reasonChurnRate, t.maxReasonChurn)];
    }
    AlertsForUnfold(m, t);
  }

  lemma AlertsForUnfold(m: Metrics, t: Thresholds)
    ensures AlertsFor(m, t) == AlertOf(m, t, PickChangeAlert) + AlertOf(m, t, ConfidenceDeltaAlert) +
                               AlertOf(m, t, CoverageDropAlert) + AlertOf(m, t, ReasonChurnAlert)
  {
    var o := CheckOrder;
    assert o[1..] == [ConfidenceDeltaAlert, CoverageDropAlert, ReasonChurnAlert];
    assert o[1..][1..] == [CoverageDropAlert, ReasonChurnAlert];
    assert o[1..][1..][1..] == [ReasonChurnAlert];
    assert o[1..][1..][1..][1..] == [];
    assert AlertsOver(m, t, o[1..][1..][1..]) == AlertOf(m, t, ReasonChurnAlert);
    assert AlertsOver(m, t, o[1..][1..]) == AlertOf(m, t, CoverageDropAlert) + AlertOf(m, t, ReasonChurnAlert);
    assert AlertsOver(m, t, o[1..]) ==
           AlertOf(m, t, ConfidenceDeltaAlert) + (AlertOf(m, t, CoverageDropAlert) + AlertOf(m, t, ReasonChurnAlert));
  }

  // ---------------------------------------------------------------- compare_analysis

  datatype Parity = Parity(parity: bool, livePick: Json, recordedPick: Json)

  datatype ReasonsDiff = ReasonsDiff(liveReasons: seq<string>, recordedReasons: seq<string>, added: seq<string>, removed: seq<string>)

  datatype CoverageDiff = CoverageDiff(
    liveMarkets: seq<string>,
    recordedMarkets: seq<string>,
    missingInLive: seq<string>,
    missingInRecorded: seq<string>)

  datatype Comparison = Comparison(
    pickParity: map<string, Parity>,
    confidenceDeltas: map<string, real>,
    reasonsDiff: map<string, ReasonsDiff>,
    coverageDiff: CoverageDiff)

  /** `xs == sorted(s)`. */
  ghost predicate SortedSetOf(xs: seq<string>, s: set<string>) {
    StrictlySorted(xs) && forall x :: x in xs <==> x in s
  }

  function ParityOf(live: Decisions, rec: Decisions, m: string): Parity {
    Parity(PyEq(PickOf(live, m), PickOf(rec, m)), PickOf(live, m), PickOf(rec, m))
  }

  /** The reasons entry of a market: both lists, and the sorted reasons only one side gives. */
  ghost predicate IsReasonsDiff(r: ReasonsDiff, live: Decisions, rec: Decisions, m: string) {
    r.liveReasons == ReasonsOf(live, m) && r.recordedReasons == ReasonsOf(rec, m) &&
    SortedSetOf(r.added, Elems(r.liveReasons) - Elems(r.recordedReasons)) &&
    SortedSetOf(r.removed, Elems(r.recordedReasons) - Elems(r.liveReasons))
  }

  /** The comparison of two decision sets: every market once, in each of the three maps. */
  method CompareDecisions(live: Decisions, rec: Decisions) returns (c: Comparison)
    ensures ComparedOver(live, rec, AllMarkets(live, rec), c.pickParity, c.confidenceDeltas, c.reasonsDiff)
    ensures SortedSetOf(c.coverageDiff.liveMarkets, live.Keys) && SortedSetOf(c.coverageDiff.recordedMarkets, rec.Keys)
    ensures SortedSetOf(c.coverageDiff.missingInLive, rec.Keys - live.Keys)
    ensures SortedSetOf(c.coverageDiff.missingInRecorded, live.Keys - rec.Keys)
  {
    var liveMarkets := SortedFromSet(live.Keys);
    var recordedMarkets := SortedFromSet(rec.Keys);
    var missingInLive := SortedFromSet(rec.Keys - live.Keys);
    var missingInRecorded := SortedFromSet(live.Keys - rec.Keys);
    var markets := SortedFromSet(live.Keys + rec.Keys);
    assert Elems(markets) == AllMarkets(live, rec);
    var pickParity, confidenceDeltas, reasonsDiff := CompareMarkets(live, rec, markets);
    c := Comparison(pickParity, confidenceDeltas, reasonsDiff,
                    CoverageDiff(liveMarkets, recordedMarkets, missingInLive, missingInRecorded));
  }

  /** The loop of `compare_analysis` over `markets`, the sorted union of the markets of both sides. */
  method CompareMarkets(live: Decisions, rec: Decisions, markets: seq<string>)
    returns (pickParity: map<string, Parity>, confidenceDeltas: map<string, real>, reasonsDiff: map<string, ReasonsDiff>)
    requires Elems(markets) == AllMarkets(live, rec)
    ensures ComparedOver(live, rec, AllMarkets(live, rec), pickParity, confidenceDeltas, reasonsDiff)
  {
    pickParity, confidenceDeltas, reasonsDiff := map[], map[], map[];
    ghost var walked: set<string> := {};
    for j := 0 to |markets|
      invariant walked == Elems(markets[..j])
      invariant j == |markets| ==> walked == AllMarkets(live, rec)
      invariant ComparedOver(live, rec, walked, pickParity, confidenceDeltas, reasonsDiff)
    {
      ElemsPrefixStep(markets, j);
      pickParity, confidenceDeltas, reasonsDiff := CompareStep(live, rec, walked, pickParity, confidenceDeltas, reasonsDiff, markets[j]);
      walked := walked + {markets[j]};
    }
  }

  /** One turn of that loop: the entries of market `m` are stored in all three maps. */
  method CompareStep(live: Decisions, rec: Decisions, ghost walked: set<string>, pickParity: map<string, Parity>,
                     confidenceDeltas: map<string, real>, reasonsDiff: map<string, ReasonsDiff>, m: string)
    returns (pickParity': map<string, Parity>, confidenceDeltas': map<string, real>, reasonsDiff': map<string, ReasonsDiff>)
    requires ComparedOver(live, rec, walked, pickParity, confidenceDeltas, reasonsDiff)
    ensures ComparedOver(live, rec, walked + {m}, pickParity', confidenceDeltas', reasonsDiff')
  {
    var parity, delta, diff := CompareMarket(live, rec, m);
    ComparedStep(live, rec, walked, pickParity, confidenceDeltas, reasonsDiff, m, diff);
    pickParity' := pickParity[m := parity];
    confidenceDeltas' := confidenceDeltas[m := delta];
    reasonsDiff' := reasonsDiff[m := diff];
  }

  /** The three maps of `compare_analysis` hold exactly the markets `walked`, each with its entries. */
  ghost predicate ComparedOver(live: Decisions, rec: Decisions, walked: set<string>, pickParity: map<string, Parity>,
                               confidenceDeltas: map<string, real>, reasonsDiff: map<string, ReasonsDiff>) {
    pickParity.Keys == walked && confidenceDeltas.Keys == walked && reasonsDiff.Keys == walked &&
    (forall m :: m in pickParity ==> pickParity[m] == ParityOf(live, rec, m)) &&
    (forall m :: m in confidenceDeltas ==> confidenceDeltas[m] == Round4(ConfOf(live, m) - ConfOf(rec, m))) &&
    (forall m :: m in reasonsDiff ==> IsReasonsDiff(reasonsDiff[m], live, rec, m))
  }

  lemma ComparedStep(live: Decisions, rec: Decisions, walked: set<string>, pickParity: map<string, Parity>,
                     confidenceDeltas: map<string, real>, reasonsDiff: map<string, ReasonsDiff>, m: string, diff: ReasonsDiff)
    requires ComparedOver(live, rec, walked, pickParity, confidenceDeltas, reasonsDiff)
    requires IsReasonsDiff(diff, live, rec, m)
    ensures ComparedOver(live, rec, walked + {m}, pickParity[m := ParityOf(live, rec, m)],
                         confidenceDeltas[m := Round4(ConfOf(live, m) - ConfOf(rec, m))], reasonsDiff[m := diff])
  {
    var cd := confidenceDeltas[m := Round4(ConfOf(live, m) - ConfOf(rec, m))];
    forall k | k in cd
      ensures cd[k] == Round4(ConfOf(live, k) - ConfOf(rec, k))
    {
      if k != m {
        assert cd[k] == confidenceDeltas[k];
      }
    }
  }

  /** The entries one market contributes to the three maps. */
  method CompareMarket(live: Decisions, rec: Decisions, m: string) returns (parity: Parity, delta: real, diff: ReasonsDiff)
    ensures parity == ParityOf(live, rec, m)
    ensures delta == Round4(ConfOf(live, m) - ConfOf(rec, m))
    ensures IsReasonsDiff(diff, live, rec, m)
  {
    var liveReasons, recReasons := ReasonsOf(live, m), ReasonsOf(rec, m);
    var added := SortedFromSet(Elems(liveReasons) - Elems(recReasons));
    var removed := SortedFromSet(Elems(recReasons) - Elems(liveReasons));
    parity := Parity(PyEq(PickOf(live, m), PickOf(rec, m)), PickOf(live, m), PickOf(rec, m));
    delta := Round4(ConfOf(live, m) - ConfOf(rec, m));
    diff := ReasonsDiff(liveReasons, recReasons, added, removed);
  }

  /** `compare_analysis`. */
  method CompareAnalysis(live: Analysis, rec: Analysis) returns (c: Comparison)
    ensures ComparedOver(Extract(live), Extract(rec), AllMarkets(Extract(live), Extract(rec)),
                         c.pickParity, c.confidenceDeltas, c.reasonsDiff)
    ensures SortedSetOf(c.coverageDiff.liveMarkets, Extract(live).Keys)
    ensures SortedSetOf(c.coverageDiff.recordedMarkets, Extract(rec).Keys)
    ensures SortedSetOf(c.coverageDiff.missingInLive, Extract(rec).Keys - Extract(live).Keys)
    ensures SortedSetOf(c.coverageDiff.missingInRecorded, Extract(live).Keys - Extract(rec).Keys)
  {
    var liveDecisions := ExtractDecisions(live);
    var recordedDecisions := ExtractDecisions(rec);
    c := CompareDecisions(liveDecisions, recordedDecisions);
  }
}
