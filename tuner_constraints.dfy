/**
 * Constraints on the shadow tuner's proposed parameter changes: frozen
 * parameters, a per-parameter step cap, a per-run cap on the total change,
 * and drift budgets per market and per parameter group. The proposals are
 * rewritten in place, pass after pass.
 */
module TunerConstraints {
  import opened Wrappers
  import Text
  import Sorting
  import opened Rounding

  const DefaultPerParamStepMax: real := 0.01
  const DefaultPerRunTotalDeltaMax: real := 0.03
  const DefaultDriftBudgetPerMarket: real := 0.02
  const DefaultDriftBudgetThresholds: real := 0.03
  const DefaultDriftBudgetDampening: real := 0.05
  const MaxTopDeltas: nat := 5

  /** `MARKETS_ORDER`, and the parameter groups in the order their budgets apply. */
  function MarketsOrder(): seq<string> { ["one_x_two", "over_under_25", "gg_ng"] }
  function GroupsOrder(): seq<string> { ["thresholds", "dampening"] }

  /** A parameter value as `float()` sees it: a number, or a value it rejects. */
  datatype Value = Number(x: real) | NotNumber(text: string)

  /** A proposed change `(path, old_val, new_val, reason)`. */
  datatype Diff = Diff(path: string, oldVal: Value, newVal: Value, reason: string)

  /** An entry of `items`: the change with its current delta. */
  datatype Item = Item(path: string, oldVal: Value, newVal: Value, reason: string, delta: real)

  /** `TunerConstraintsConfig`. */
  datatype Config = Config(driftBudgets: map<string, map<string, real>>, hardCaps: map<string, real>, freezeParams: seq<string>)

  /** The constraint values `apply_constraints` reads from its configuration. */
  datatype Limits = Limits(stepMax: real, totalMax: real, perMarket: map<string, real>, perGroup: map<string, real>, freeze: set<string>)

  /** The summary, without the rounding of the reported deltas. */
  datatype Summary = Summary(budgetsUsed: bool, capsApplied: bool, scaledDown: bool, clampedParamsCount: nat, topDeltas: seq<(string, real)>)

  /** `get_tuner_constraints`: the defaults. */
  function DefaultConfig(): Config {
    Config(map["per_market" := map["one_x_two" := DefaultDriftBudgetPerMarket, "over_under_25" := DefaultDriftBudgetPerMarket,
                                   "gg_ng" := DefaultDriftBudgetPerMarket],
               "per_param_group" := map["thresholds" := DefaultDriftBudgetThresholds, "dampening" := DefaultDriftBudgetDampening]],
           map["per_param_step_max" := DefaultPerParamStepMax, "per_run_total_delta_max" := DefaultPerRunTotalDeltaMax],
           [])
  }

  function Lookup(m: map<string, real>, k: string, default: real): real {
    if k in m then m[k] else default
  }

  function Budgets(c: Config, k: string): map<string, real> {
    if k in c.driftBudgets then c.driftBudgets[k] else map[]
  }

  /** The head of `apply_constraints`: the configuration, or the defaults when none is given. */
  function LimitsOf(config: Option<Config>): Limits {
    var c := config.GetOr(DefaultConfig());
    Limits(Lookup(c.hardCaps, "per_param_step_max", DefaultPerParamStepMax),
           Lookup(c.hardCaps, "per_run_total_delta_max", DefaultPerRunTotalDeltaMax),
           Budgets(c, "per_market"), Budgets(c, "per_param_group"),
           set p | p in c.freezeParams)
  }

  /** Every cap and budget is non-negative, as the defaults are. */
  predicate NonNegative(lim: Limits) {
    lim.stepMax >= 0.0 && lim.totalMax >= 0.0 &&
    (forall m :: m in lim.perMarket ==> lim.perMarket[m] >= 0.0) &&
    (forall g :: g in lim.perGroup ==> lim.perGroup[g] >= 0.0)
  }

  lemma DefaultsNonNegative()
    ensures NonNegative(LimitsOf(None))
  {
    var c := DefaultConfig();
    assert "per_market" in c.driftBudgets && "per_param_group" in c.driftBudgets;
  }

  function Abs(x: real): real { if x < 0.0 then -x else x }

  function Max(a: real, b: real): real { if a >= b then a else b }

  function Min(a: real, b: real): real { if a <= b then a else b }

  /** `_path_market`: the second dot-separated part of a `markets.` path. */
  function PathMarket(path: string): (r: Option<string>)
    ensures r.Some? ==> Text.StartsWith(path, "markets.")
  {
    if !Text.StartsWith(path, "markets.") then None
    else
      var parts := Text.Split(path, '.');
      if |parts| >= 2 then Some(parts[1]) else None
  }

  /** Python's `sub in s` on strings. */
  predicate Contains(s: string, sub: string)
    decreases |s|
  {
    Text.StartsWith(s, sub) || (s != [] && Contains(s[1..], sub))
  }

  /** `_path_param_group`. */
  function PathParamGroup(path: string): (g: string)
    ensures g in {"thresholds", "dampening", "other"}
  {
    if Contains(path, "min_confidence") then "thresholds"
    else if Contains(path, "dampening_factor") then "dampening"
    else "other"
  }

  /** A frozen item, or one whose old value is not a number: no pass changes it. */
  predicate Inert(it: Item, freeze: set<string>) {
    it.path in freeze || !it.oldVal.Number?
  }

  /** The facts every pass keeps: an inert item has no delta and a frozen one keeps its old value. */
  predicate Settled(it: Item, freeze: set<string>) {
    (Inert(it, freeze) ==> it.delta == 0.0) && (it.path in freeze ==> it.newVal == it.oldVal)
  }

  /** From the step cap on, the new value of a live item is its old value plus its delta. */
  predicate Consistent(it: Item, freeze: set<string>) {
    !Inert(it, freeze) ==> it.newVal == Number(it.oldVal.x + it.delta)
  }

  ghost predicate AllSettled(s: seq<Item>, freeze: set<string>) {
    forall i :: 0 <= i < |s| ==> Settled(s[i], freeze)
  }

  ghost predicate AllConsistent(s: seq<Item>, freeze: set<string>) {
    forall i :: 0 <= i < |s| ==> Consistent(s[i], freeze)
  }

  // ---------------------------------------------------------------- building the items

  /** One proposal as an item: frozen ones are reset, non-numeric ones get no delta. */
  function InitialItem(d: Diff, freeze: set<string>): (it: Item)
    ensures it.path == d.path && it.oldVal == d.oldVal && it.reason == d.reason
    ensures Settled(it, freeze)
    ensures d.path in freeze ==> it.newVal == d.oldVal && it.delta == 0.0
    ensures d.path !in freeze && d.oldVal.Number? && d.newVal.Number? ==> it.newVal == d.newVal && it.delta == d.newVal.x - d.oldVal.x
  {
    if d.path in freeze then Item(d.path, d.oldVal, d.oldVal, d.reason, 0.0)
    else if d.oldVal.Number? && d.newVal.Number? then Item(d.path, d.oldVal, d.newVal, d.reason, d.newVal.x - d.oldVal.x)
    else Item(d.path, d.oldVal, d.newVal, d.reason, 0.0)
  }

  /** The loop that builds `items` from the diffs. */
  method BuildItems(diffs: seq<Diff>, freeze: set<string>) returns (items: seq<Item>)
    ensures |items| == |diffs|
    ensures forall i :: 0 <= i < |diffs| ==> items[i] == InitialItem(diffs[i], freeze)
  {
    items := [];
    for i := 0 to |diffs|
      invariant |items| == i
      invariant forall j :: 0 <= j < i ==> items[j] == InitialItem(diffs[j], freeze)
    {
      items := items + [InitialItem(diffs[i], freeze)];
    }
  }

  function ItemKey(it: Item): Sorting.Key {
    Sorting.StrKey(it.path)
  }

  /** The items, stably sorted by path. */
  function SortedItems(diffs: seq<Diff>, freeze: set<string>): seq<Item> {
    Sorting.SortBy(seq(|diffs|, i requires 0 <= i < |diffs| => InitialItem(diffs[i], freeze)), ItemKey)
  }

  // ---------------------------------------------------------------- 1) step cap

  /** The capped delta `max(-step_max, min(step_max, delta))`. */
  function Cap(stepMax: real, delta: real): (c: real)
    ensures stepMax >= 0.0 ==> Abs(c) <= stepMax && Abs(c) <= Abs(delta)
    ensures stepMax >= 0.0 && Abs(delta) <= stepMax ==> c == delta
  {
    Max(-stepMax, Min(stepMax, delta))
  }

  function StepCapItem(it: Item, freeze: set<string>, stepMax: real): Item {
    if Inert(it, freeze) then it
    else
      var capped := Cap(stepMax, it.delta);
      Item(it.path, it.oldVal, Number(it.oldVal.x + capped), it.reason, capped)
  }

  predicate ClampedBy(it: Item, freeze: set<string>, stepMax: real) {
    !Inert(it, freeze) && Cap(stepMax, it.delta) != it.delta
  }

  /** `clamped_count` over the first `n` items. */
  function CountClamped(s: seq<Item>, freeze: set<string>, stepMax: real, n: nat): (c: nat)
    requires n <= |s|
    ensures c <= n
  {
    if n == 0 then 0
    else CountClamped(s, freeze, stepMax, n - 1) + (if ClampedBy(s[n - 1], freeze, stepMax) then 1 else 0)
  }

  function StepCapAll(s: seq<Item>, freeze: set<string>, stepMax: real): (r: seq<Item>)
    ensures |r| == |s|
  {
    seq(|s|, i requires 0 <= i < |s| => StepCapItem(s[i], freeze, stepMax))
  }

  /** Pass 1, in place. */
  method StepCap(items: array<Item>, freeze: set<string>, stepMax: real) returns (clampedCount: nat)
    modifies items
    ensures items[..] == StepCapAll(old(items[..]), freeze, stepMax)
    ensures clampedCount == CountClamped(old(items[..]), freeze, stepMax, items.Length)
  {
    ghost var s := items[..];
    clampedCount := 0;
    for i := 0 to items.Length
      invariant forall j :: 0 <= j < i ==> items[j] == StepCapItem(s[j], freeze, stepMax)
      invariant forall j :: i <= j < items.Length ==> items[j] == s[j]
      invariant clampedCount == CountClamped(s, freeze, stepMax, i)
    {
      var it := items[i];
      if it.path in freeze || !it.oldVal.Number? {
        continue;
      }
      var capped := Max(-stepMax, Min(stepMax, it.delta));
      if capped != it.delta {
        clampedCount := clampedCount + 1;
      }
      items[i] := Item(it.path, it.oldVal, Number(it.oldVal.x + capped), it.reason, capped);
    }
  }

  // ---------------------------------------------------------------- 2) total cap

  /** `sum(abs(it[4]) for it in items)`. */
  function AbsSum(s: seq<Item>): (t: real)
    ensures t >= 0.0
  {
    if s == [] then 0.0 else Abs(s[0].delta) + AbsSum(s[1..])
  }

  /** One item with its delta scaled: inert items stay as they are. */
  function ScaleItem(it: Item, freeze: set<string>, scale: real): Item {
    if Inert(it, freeze) then it
    else
      var d := it.delta * scale;
      Item(it.path, it.oldVal, Number(it.oldVal.x + d), it.reason, d)
  }

  function ScaleAll(s: seq<Item>, freeze: set<string>, scale: real): (r: seq<Item>)
    ensures |r| == |s|
  {
    seq(|s|, i requires 0 <= i < |s| => ScaleItem(s[i], freeze, scale))
  }

  /** Pass 2: the items and `scaled_down`. */
  function TotalCap(s: seq<Item>, freeze: set<string>, totalMax: real): (r: (seq<Item>, bool))
    ensures |r.0| == |s|
    ensures r.1 <==> AbsSum(s) > totalMax && AbsSum(s) > 0.0
  {
    var total := AbsSum(s);
    if total > totalMax && total > 0.0 then (ScaleAll(s, freeze, totalMax / total), true) else (s, false)
  }

  /** Pass 2, in place. */
  method TotalCapInPlace(items: array<Item>, freeze: set<string>, totalMax: real) returns (scaledDown: bool)
    modifies items
    ensures (items[..], scaledDown) == TotalCap(old(items[..]), freeze, totalMax)
  {
    ghost var s := items[..];
    var totalAbs := AbsSum(items[..]);
    scaledDown := false;
    if totalAbs > totalMax && totalAbs > 0.0 {
      var scale := totalMax / totalAbs;
      scaledDown := true;
      for i := 0 to items.Length
        invariant forall j :: 0 <= j < i ==> items[j] == ScaleItem(s[j], freeze, scale)
        invariant forall j :: i <= j < items.Length ==> items[j] == s[j]
      {
        var it := items[i];
        if it.path in freeze || !it.oldVal.Number? {
          continue;
        }
        var newDelta := it.delta * scale;
        assert ScaleItem(s[i], freeze, scale).delta == newDelta;
        items[i] := Item(it.path, it.oldVal, Number(it.oldVal.x + newDelta), it.reason, newDelta);
      }
      assert items[..] == ScaleAll(s, freeze, scale);
    }
  }

  // ---------------------------------------------------------------- 3) drift budgets

  predicate InRange(idx: seq<int>, n: int) {
    forall k :: 0 <= k < |idx| ==> 0 <= idx[k] < n
  }

  ghost predicate Increasing(idx: seq<int>) {
    forall a, b :: 0 <= a < b < |idx| ==> idx[a] < idx[b]
  }

  /** The indices among the first `n` items whose path belongs to market `m` (`by_market[m]`). */
  function MarketIndices(s: seq<Item>, m: string, n: nat): (r: seq<int>)
    requires n <= |s|
    ensures InRange(r, n) && Increasing(r)
    ensures forall i :: 0 <= i < n ==> (i in r <==> PathMarket(s[i].path) == Some(m))
  {
    if n == 0 then []
    else
      var rest := MarketIndices(s, m, n - 1);
      if PathMarket(s[n - 1].path) == Some(m) then rest + [n - 1] else rest
  }

  /** The indices among the first `n` items whose path is in parameter group `g` (`by_group[g]`). */
  function GroupIndices(s: seq<Item>, g: string, n: nat): (r: seq<int>)
    requires n <= |s|
    ensures InRange(r, n) && Increasing(r)
    ensures forall i :: 0 <= i < n ==> (i in r <==> PathParamGroup(s[i].path) == g)
  {
    if n == 0 then []
    else
      var rest := GroupIndices(s, g, n - 1);
      if PathParamGroup(s[n - 1].path) == g then rest + [n - 1] else rest
  }

  /** `sum(abs(items[j][4]) for j in indices)`. */
  function GroupAbs(s: seq<Item>, idx: seq<int>): (t: real)
    requires InRange(idx, |s|)
    ensures t >= 0.0
  {
    if idx == [] then 0.0 else Abs(s[idx[0]].delta) + GroupAbs(s, idx[1..])
  }

  /** `_scale_group`: a group over its budget has its deltas scaled onto the budget. */
  function ScaleGroup(s: seq<Item>, idx: seq<int>, budget: real, freeze: set<string>): (r: seq<Item>)
    requires InRange(idx, |s|)
    ensures |r| == |s|
  {
    var total := GroupAbs(s, idx);
    if total <= budget || total <= 0.0 then s
    else Scaled(s, idx, freeze, budget / total)
  }

  /** The items with those at the given indices scaled. */
  function Scaled(s: seq<Item>, idx: seq<int>, freeze: set<string>, scale: real): (r: seq<Item>)
    ensures |r| == |s|
  {
    seq(|s|, i requires 0 <= i < |s| => if i in idx then ScaleItem(s[i], freeze, scale) else s[i])
  }

  /** `_scale_group`, in place. */
  method ScaleGroupInPlace(items: array<Item>, idx: seq<int>, budget: real, freeze: set<string>)
    requires InRange(idx, items.Length) && Increasing(idx)
    modifies items
    ensures items[..] == ScaleGroup(old(items[..]), idx, budget, freeze)
  {
    ghost var s := items[..];
    var groupAbs := GroupAbs(items[..], idx);
    if groupAbs <= budget || groupAbs <= 0.0 {
      return;
    }
    var scale := budget / groupAbs;
    for k := 0 to |idx|
      invariant items.Length == |s|
      invariant forall i :: 0 <= i < |s| ==> items[i] == if i in idx[..k] then ScaleItem(s[i], freeze, scale) else s[i]
    {
      var j := idx[k];
      assert j !in idx[..k] by {
        forall a | 0 <= a < k ensures idx[a] != j { assert idx[a] < idx[k]; }
      }
      assert forall i :: i in idx[..k + 1] <==> i in idx[..k] || i == j by {
        assert idx[..k + 1] == idx[..k] + [j];
      }
      var it := items[j];
      if it.path in freeze || !it.oldVal.Number? {
        continue;
      }
      var newDelta := it.delta * scale;
      assert ScaleItem(s[j], freeze, scale).delta == newDelta;
      items[j] := Item(it.path, it.oldVal, Number(it.oldVal.x + newDelta), it.reason, newDelta);
    }
    assert idx[..|idx|] == idx;
    assert items[..] == Scaled(s, idx, freeze, scale);
  }

  /** The market budgets, applied in `MARKETS_ORDER` to the first `k` markets; indices come from `base`. */
  function MarketBudgets(base: seq<Item>, lim: Limits, k: nat): (r: seq<Item>)
    requires k <= |MarketsOrder()|
    ensures |r| == |base|
  {
    if k == 0 then base
    else
      var t := MarketBudgets(base, lim, k - 1);
      var m := MarketsOrder()[k - 1];
      if m in lim.perMarket then ScaleGroup(t, MarketIndices(base, m, |base|), lim.perMarket[m], lim.freeze) else t
  }

  /** The parameter-group budgets, applied after the market budgets to the first `k` groups. */
  function GroupBudgets(start: seq<Item>, base: seq<Item>, lim: Limits, k: nat): (r: seq<Item>)
    requires k <= |GroupsOrder()| && |start| == |base|
    ensures |r| == |base|
  {
    if k == 0 then start
    else
      var t := GroupBudgets(start, base, lim, k - 1);
      var g := GroupsOrder()[k - 1];
      if g in lim.perGroup then ScaleGroup(t, GroupIndices(base, g, |base|), lim.perGroup[g], lim.freeze) else t
  }

  /** Pass 3 on the items that leave the total cap. */
  function Budgets3(base: seq<Item>, lim: Limits): (r: seq<Item>)
    ensures |r| == |base|
  {
    GroupBudgets(MarketBudgets(base, lim, |MarketsOrder()|), base, lim, |GroupsOrder()|)
  }

  /** `by_market` holds the index lists of the first `n` items' markets. */
  ghost predicate MarketTable(byMarket: map<string, seq<int>>, s: seq<Item>, n: nat)
    requires n <= |s|
  {
    (forall m :: m in byMarket ==> m != "" && byMarket[m] == MarketIndices(s, m, n)) &&
    (forall m :: m !in byMarket && m != "" ==> MarketIndices(s, m, n) == [])
  }

  /** `by_group` holds the index lists of the first `n` items' parameter groups. */
  ghost predicate GroupTable(byGroup: map<string, seq<int>>, s: seq<Item>, n: nat)
    requires n <= |s|
  {
    (forall g :: g in byGroup ==> byGroup[g] == GroupIndices(s, g, n)) &&
    (forall g :: g !in byGroup ==> GroupIndices(s, g, n) == [])
  }

  lemma MarketTableStep(byMarket: map<string, seq<int>>, updated: map<string, seq<int>>, s: seq<Item>, i: nat)
    requires i < |s| && MarketTable(byMarket, s, i)
    requires var m := PathMarket(s[i].path);
             if m.Some? && m.value != "" then updated == byMarket[m.value := (if m.value in byMarket then byMarket[m.value] else []) + [i]]
             else updated == byMarket
    ensures MarketTable(updated, s, i + 1)
  {
  }

  lemma GroupTableStep(byGroup: map<string, seq<int>>, updated: map<string, seq<int>>, s: seq<Item>, i: nat)
    requires i < |s| && GroupTable(byGroup, s, i)
    requires var g := PathParamGroup(s[i].path);
             updated == byGroup[g := (if g in byGroup then byGroup[g] else []) + [i]]
    ensures GroupTable(updated, s, i + 1)
  {
  }

  /** The loop building `by_market` and `by_group`. */
  method IndexGroups(items: seq<Item>) returns (byMarket: map<string, seq<int>>, byGroup: map<string, seq<int>>)
    ensures MarketTable(byMarket, items, |items|)
    ensures GroupTable(byGroup, items, |items|)
  {
    byMarket, byGroup := map[], map[];
    for i := 0 to |items|
      invariant MarketTable(byMarket, items, i)
      invariant GroupTable(byGroup, items, i)
    {
      var path := items[i].path;
      var m := PathMarket(path);
      var nextMarkets := byMarket;
      if m.Some? && m.value != "" {
        nextMarkets := byMarket[m.value := (if m.value in byMarket then byMarket[m.value] else []) + [i]];
      }
      MarketTableStep(byMarket, nextMarkets, items, i);
      var g := PathParamGroup(path);
      var nextGroups := byGroup[g := (if g in byGroup then byGroup[g] else []) + [i]];
      GroupTableStep(byGroup, nextGroups, items, i);
      byMarket, byGroup := nextMarkets, nextGroups;
    }
  }

  /** The loop over `MARKETS_ORDER`. */
  method ApplyMarketBudgets(items: array<Item>, byMarket: map<string, seq<int>>, lim: Limits)
    requires MarketTable(byMarket, items[..], items.Length)
    modifies items
    ensures items[..] == MarketBudgets(old(items[..]), lim, |MarketsOrder()|)
  {
    ghost var base := items[..];
    var order := MarketsOrder();
    for k := 0 to |order|
      invariant items[..] == MarketBudgets(base, lim, k)
    {
      var m := order[k];
      assert m != "";
      if m in lim.perMarket && m in byMarket {
        ScaleGroupInPlace(items, byMarket[m], lim.perMarket[m], lim.freeze);
      } else if m in lim.perMarket {
        NoIndicesNoChange(items[..], lim.perMarket[m], lim.freeze);
      }
    }
  }

  /** The loop over the parameter groups. */
  method ApplyGroupBudgets(items: array<Item>, ghost base: seq<Item>, byGroup: map<string, seq<int>>, lim: Limits)
    requires items.Length == |base|
    requires GroupTable(byGroup, base, |base|)
    modifies items
    ensures items[..] == GroupBudgets(old(items[..]), base, lim, |GroupsOrder()|)
  {
    ghost var start := items[..];
    var order := GroupsOrder();
    for k := 0 to |order|
      invariant items[..] == GroupBudgets(start, base, lim, k)
    {
      var g := order[k];
      if g in lim.perGroup && g in byGroup {
        ScaleGroupInPlace(items, byGroup[g], lim.perGroup[g], lim.freeze);
      } else if g in lim.perGroup {
        NoIndicesNoChange(items[..], lim.perGroup[g], lim.freeze);
      }
    }
  }

  lemma NoIndicesNoChange(s: seq<Item>, budget: real, freeze: set<string>)
    ensures ScaleGroup(s, [], budget, freeze) == s
  {
  }

  // ---------------------------------------------------------------- the whole

  /** The items after all three passes. */
  function ConstrainedItems(diffs: seq<Diff>, lim: Limits): (r: seq<Item>)
    ensures |r| == |diffs|
  {
    var sorted := SortedItems(diffs, lim.freeze);
    Budgets3(TotalCap(StepCapAll(sorted, lim.freeze, lim.stepMax), lim.freeze, lim.totalMax).0, lim)
  }

  function DiffOf(it: Item): Diff {
    Diff(it.path, it.oldVal, it.newVal, it.reason)
  }

  function DiffsOf(s: seq<Item>): (r: seq<Diff>)
    ensures |r| == |s|
  {
    seq(|s|, i requires 0 <= i < |s| => DiffOf(s[i]))
  }

  /** The items with a non-zero delta, as `(path, delta)`. */
  function NonZeroDeltas(s: seq<Item>): (r: seq<(string, real)>)
    ensures |r| <= |s|
    ensures forall p :: p in r <==> exists i :: 0 <= i < |s| && s[i].delta != 0.0 && p == (s[i].path, s[i].delta)
  {
    if s == [] then []
    else
      var rest := NonZeroDeltas(s[1..]);
      assert forall i :: 0 < i < |s| ==> s[1..][i - 1] == s[i];
      if s[0].delta != 0.0 then [(s[0].path, s[0].delta)] + rest else rest
  }

  function DeltaKey(p: (string, real)): Sorting.Key {
    [Sorting.Num(-Abs(p.1))]
  }

  /** The largest five changes by size, unrounded: `deltas_with_path[:MAX_TOP_DELTAS]` after the sort. */
  function LargestDeltas(s: seq<Item>): (r: seq<(string, real)>)
    ensures |r| <= MaxTopDeltas
  {
    var sorted := Sorting.SortBy(NonZeroDeltas(s), DeltaKey);
    if |sorted| <= MaxTopDeltas then sorted else sorted[..MaxTopDeltas]
  }

  /** `top_deltas`: the largest five changes, each delta rounded to four places. */
  function TopDeltas(s: seq<Item>): (r: seq<(string, real)>)
    ensures |r| == |LargestDeltas(s)| <= MaxTopDeltas
    ensures forall i :: 0 <= i < |r| ==> r[i].0 == LargestDeltas(s)[i].0 &&
                                          LargestDeltas(s)[i].1 - 0.00005 <= r[i].1 <= LargestDeltas(s)[i].1 + 0.00005
  {
    var top := LargestDeltas(s);
    seq(|top|, i requires 0 <= i < |top| => (top[i].0, Round4(top[i].1)))
  }

  /** `apply_constraints`. */
  method ApplyConstraints(diffs: seq<Diff>, config: Option<Config>) returns (constrained: seq<Diff>, summary: Summary)
    ensures var lim := LimitsOf(config);
            var sorted := SortedItems(diffs, lim.freeze);
            var capped := StepCapAll(sorted, lim.freeze, lim.stepMax);
            constrained == DiffsOf(ConstrainedItems(diffs, lim)) &&
            summary == Summary(true, true, TotalCap(capped, lim.freeze, lim.totalMax).1,
                               CountClamped(sorted, lim.freeze, lim.stepMax, |sorted|), TopDeltas(ConstrainedItems(diffs, lim)))
  {
    var lim := LimitsOf(config);
    var built := BuildItems(diffs, lim.freeze);
    assert built == seq(|diffs|, i requires 0 <= i < |diffs| => InitialItem(diffs[i], lim.freeze));
    var sorted := Sorting.SortBy(built, ItemKey);
    var items := new Item[|sorted|](i requires 0 <= i < |sorted| => sorted[i]);
    assert items[..] == sorted;
    var clampedCount := StepCap(items, lim.freeze, lim.stepMax);
    var scaledDown := TotalCapInPlace(items, lim.freeze, lim.totalMax);
    var byMarket, byGroup := IndexGroups(items[..]);
    ghost var base := items[..];
    ApplyMarketBudgets(items, byMarket, lim);
    ApplyGroupBudgets(items, base, byGroup, lim);
    constrained := DiffsOf(items[..]);
    summary := Summary(true, true, scaledDown, clampedCount, TopDeltas(items[..]));
  }

  // ---------------------------------------------------------------- properties

  /** Two item lists describe the same proposals in the same order: only values and deltas differ. */
  ghost predicate SameProposals(s: seq<Item>, t: seq<Item>) {
    |s| == |t| && forall i :: 0 <= i < |s| ==> t[i].path == s[i].path && t[i].oldVal == s[i].oldVal && t[i].reason == s[i].reason
  }

  /** No delta of `t` is larger than the same item's delta in `s`. */
  ghost predicate Shrunk(s: seq<Item>, t: seq<Item>) {
    SameProposals(s, t) && forall i :: 0 <= i < |s| ==> Abs(t[i].delta) <= Abs(s[i].delta)
  }

  ghost predicate Good(s: seq<Item>, freeze: set<string>) {
    AllSettled(s, freeze) && AllConsistent(s, freeze)
  }

  lemma ShrunkTransitive(s: seq<Item>, t: seq<Item>, u: seq<Item>)
    requires Shrunk(s, t) && Shrunk(t, u)
    ensures Shrunk(s, u)
  {
  }

  // Every product below is taken over plain parameters (`c * a` with `a == Abs(..)`
  // passed in), which keeps the solver's non-linear arithmetic out of the unfoldings.

  lemma AbsScale(d: real, c: real, a: real)
    requires c >= 0.0 && a == Abs(d)
    ensures Abs(d * c) == c * a
  {
    if d < 0.0 {
      assert d * c == -((-d) * c);
    }
  }

  lemma AbsShrink(d: real, c: real)
    requires 0.0 <= c <= 1.0
    ensures Abs(d * c) <= Abs(d)
  {
    var a := Abs(d);
    AbsScale(d, c, a);
    assert a - c * a == (1.0 - c) * a;
  }

  /** `a + b` is `c * z` when `a`, `b` are `c` times the two parts of `z`. */
  lemma Distribute(a: real, b: real, x: real, y: real, z: real, c: real)
    requires a == c * x && b == c * y && z == x + y
    ensures a + b == c * z
  {
  }

  /** The scale `x / y` of a total `y` above a non-negative cap `x` lies in [0, 1] and brings `y` onto `x`. */
  lemma DivTimes(x: real, y: real, q: real)
    requires 0.0 <= x < y && q == x / y
    ensures 0.0 <= q <= 1.0 && q * y == x
  {
  }

  /** Scaling keeps an item settled, makes it consistent, and shrinks its delta for a scale in [0, 1]. */
  lemma ScaleItemFacts(it: Item, freeze: set<string>, c: real)
    requires Settled(it, freeze)
    ensures var r := ScaleItem(it, freeze, c);
            r.path == it.path && r.oldVal == it.oldVal && r.reason == it.reason &&
            Settled(r, freeze) && Consistent(r, freeze) &&
            (Inert(it, freeze) ==> r == it) &&
            (0.0 <= c <= 1.0 ==> Abs(r.delta) <= Abs(it.delta))
  {
    if !Inert(it, freeze) && 0.0 <= c <= 1.0 {
      AbsShrink(it.delta, c);
    }
  }

  /** Scaling by a non-negative `c` multiplies the size `a` of an item's delta by `c`. */
  lemma ScaleItemAbs(it: Item, freeze: set<string>, c: real, a: real)
    requires Settled(it, freeze) && c >= 0.0 && a == Abs(it.delta)
    ensures Abs(ScaleItem(it, freeze, c).delta) == c * a
  {
    if !Inert(it, freeze) {
      AbsScale(it.delta, c, a);
    }
  }

  /** After the step cap every item is settled and consistent, and within the cap. */
  lemma StepCapFacts(s: seq<Item>, freeze: set<string>, stepMax: real)
    requires AllSettled(s, freeze)
    ensures var r := StepCapAll(s, freeze, stepMax);
            SameProposals(s, r) && Good(r, freeze) &&
            (stepMax >= 0.0 ==> forall i :: 0 <= i < |r| ==> Abs(r[i].delta) <= stepMax) &&
            (stepMax >= 0.0 ==> Shrunk(s, r))
  {
    var r := StepCapAll(s, freeze, stepMax);
    forall i | 0 <= i < |s|
      ensures Settled(r[i], freeze) && Consistent(r[i], freeze)
      ensures stepMax >= 0.0 ==> Abs(r[i].delta) <= stepMax && Abs(r[i].delta) <= Abs(s[i].delta)
    {
      if Inert(s[i], freeze) { assert r[i] == s[i]; }
    }
  }

  /** With the step cap non-negative, an item is clamped exactly when its live delta exceeds the cap. */
  lemma ClampedMeansOverCap(it: Item, freeze: set<string>, stepMax: real)
    requires stepMax >= 0.0
    ensures ClampedBy(it, freeze, stepMax) <==> !Inert(it, freeze) && Abs(it.delta) > stepMax
  {
  }

  lemma ScaleAllTail(s: seq<Item>, freeze: set<string>, c: real)
    requires s != []
    ensures ScaleAll(s, freeze, c)[1..] == ScaleAll(s[1..], freeze, c)
  {
    var r := ScaleAll(s, freeze, c);
    forall i | 0 <= i < |s| - 1
      ensures r[1..][i] == ScaleAll(s[1..], freeze, c)[i]
    {
      assert r[1..][i] == r[i + 1];
    }
  }

  /** Scaling every live item by `c >= 0` scales the total change `total` by `c`. */
  lemma {:induction false} AbsSumScaled(s: seq<Item>, freeze: set<string>, c: real, total: real)
    requires AllSettled(s, freeze) && c >= 0.0 && total == AbsSum(s)
    ensures AbsSum(ScaleAll(s, freeze, c)) == c * total
    decreases |s|
  {
    if s != [] {
      var r := ScaleAll(s, freeze, c);
      var x, y := Abs(s[0].delta), AbsSum(s[1..]);
      ScaleAllTail(s, freeze, c);
      AbsSumScaled(s[1..], freeze, c, y);
      ScaleItemAbs(s[0], freeze, c, x);
      Distribute(Abs(r[0].delta), AbsSum(r[1..]), x, y, total, c);
    } else {
      assert ScaleAll(s, freeze, c) == [];
    }
  }

  lemma {:induction false} AbsSumShrunk(s: seq<Item>, t: seq<Item>)
    requires Shrunk(s, t)
    ensures AbsSum(t) <= AbsSum(s)
    decreases |s|
  {
    if s != [] {
      AbsSumShrunk(s[1..], t[1..]);
    }
  }

  lemma {:induction false} GroupAbsShrunk(s: seq<Item>, t: seq<Item>, idx: seq<int>)
    requires Shrunk(s, t) && InRange(idx, |s|)
    ensures GroupAbs(t, idx) <= GroupAbs(s, idx)
    decreases |idx|
  {
    if idx != [] {
      GroupAbsShrunk(s, t, idx[1..]);
    }
  }

  lemma ScaleAllFacts(s: seq<Item>, freeze: set<string>, c: real)
    requires AllSettled(s, freeze)
    ensures var r := ScaleAll(s, freeze, c);
            SameProposals(s, r) && Good(r, freeze) && (0.0 <= c <= 1.0 ==> Shrunk(s, r))
  {
    forall i | 0 <= i < |s| { ScaleItemFacts(s[i], freeze, c); }
  }

  lemma ScaledFacts(s: seq<Item>, idx: seq<int>, freeze: set<string>, c: real)
    requires Good(s, freeze)
    ensures var r := Scaled(s, idx, freeze, c);
            SameProposals(s, r) && Good(r, freeze) && (0.0 <= c <= 1.0 ==> Shrunk(s, r))
  {
    forall i | 0 <= i < |s| { ScaleItemFacts(s[i], freeze, c); }
  }

  /** Pass 2 keeps the items good and, with a non-negative cap, leaves the total change within it. */
  lemma TotalCapFacts(s: seq<Item>, freeze: set<string>, totalMax: real)
    requires Good(s, freeze)
    ensures var r := TotalCap(s, freeze, totalMax).0;
            SameProposals(s, r) && Good(r, freeze) &&
            (totalMax >= 0.0 ==> Shrunk(s, r) && AbsSum(r) <= totalMax)
  {
    var total := AbsSum(s);
    if total > totalMax && total > 0.0 {
      var c := totalMax / total;
      if totalMax >= 0.0 {
        DivTimes(totalMax, total, c);
        AbsSumScaled(s, freeze, c, total);
      }
      ScaleAllFacts(s, freeze, c);
    }
  }

  /** Scaling the items at `idx` by `c >= 0` scales the change `total` over any `sub` of `idx` by `c`. */
  lemma {:induction false} GroupAbsScaled(s: seq<Item>, sub: seq<int>, idx: seq<int>, freeze: set<string>, c: real, total: real)
    requires AllSettled(s, freeze) && c >= 0.0 && InRange(sub, |s|)
    requires forall k :: 0 <= k < |sub| ==> sub[k] in idx
    requires total == GroupAbs(s, sub)
    ensures GroupAbs(Scaled(s, idx, freeze, c), sub) == c * total
    decreases |sub|
  {
    if sub != [] {
      var r := Scaled(s, idx, freeze, c);
      var x, y := Abs(s[sub[0]].delta), GroupAbs(s, sub[1..]);
      GroupAbsScaled(s, sub[1..], idx, freeze, c, y);
      assert r[sub[0]] == ScaleItem(s[sub[0]], freeze, c);
      ScaleItemAbs(s[sub[0]], freeze, c, x);
      Distribute(Abs(r[sub[0]].delta), GroupAbs(r, sub[1..]), x, y, total, c);
    }
  }

  /** `_scale_group` keeps the items good and, with a non-negative budget, brings the group within it. */
  lemma ScaleGroupFacts(s: seq<Item>, idx: seq<int>, budget: real, freeze: set<string>)
    requires Good(s, freeze) && InRange(idx, |s|)
    ensures var r := ScaleGroup(s, idx, budget, freeze);
            SameProposals(s, r) && Good(r, freeze) &&
            (budget >= 0.0 ==> Shrunk(s, r) && GroupAbs(r, idx) <= budget)
  {
    var total := GroupAbs(s, idx);
    if !(total <= budget || total <= 0.0) {
      var c := budget / total;
      if budget >= 0.0 {
        DivTimes(budget, total, c);
        GroupAbsScaled(s, idx, idx, freeze, c, total);
      }
      ScaledFacts(s, idx, freeze, c);
    }
  }

  /** After the first `k` market budgets: every applied budget holds. */
  lemma {:induction false} MarketBudgetsFacts(base: seq<Item>, lim: Limits, k: nat)
    requires k <= |MarketsOrder()| && Good(base, lim.freeze)
    ensures var r := MarketBudgets(base, lim, k);
            SameProposals(base, r) && Good(r, lim.freeze) &&
            (NonNegative(lim) ==>
               Shrunk(base, r) &&
               forall j :: 0 <= j < k && MarketsOrder()[j] in lim.perMarket ==>
                 GroupAbs(r, MarketIndices(base, MarketsOrder()[j], |base|)) <= lim.perMarket[MarketsOrder()[j]])
  {
    if k > 0 {
      MarketBudgetsFacts(base, lim, k - 1);
      var t := MarketBudgets(base, lim, k - 1);
      var m := MarketsOrder()[k - 1];
      if m in lim.perMarket {
        var idx := MarketIndices(base, m, |base|);
        var r := ScaleGroup(t, idx, lim.perMarket[m], lim.freeze);
        ScaleGroupFacts(t, idx, lim.perMarket[m], lim.freeze);
        if NonNegative(lim) {
          ShrunkTransitive(base, t, r);
          forall j | 0 <= j < k - 1 && MarketsOrder()[j] in lim.perMarket
            ensures GroupAbs(r, MarketIndices(base, MarketsOrder()[j], |base|)) <= lim.perMarket[MarketsOrder()[j]]
          {
            GroupAbsShrunk(t, r, MarketIndices(base, MarketsOrder()[j], |base|));
          }
        }
      }
    }
  }

  /** After the first `k` parameter-group budgets: every applied budget holds, and nothing grew. */
  lemma {:induction false} GroupBudgetsFacts(start: seq<Item>, base: seq<Item>, lim: Limits, k: nat)
    requires k <= |GroupsOrder()| && |start| == |base| && Good(start, lim.freeze)
    ensures var r := GroupBudgets(start, base, lim, k);
            SameProposals(start, r) && Good(r, lim.freeze) &&
            (NonNegative(lim) ==>
               Shrunk(start, r) &&
               forall j :: 0 <= j < k && GroupsOrder()[j] in lim.perGroup ==>
                 GroupAbs(r, GroupIndices(base, GroupsOrder()[j], |base|)) <= lim.perGroup[GroupsOrder()[j]])
  {
    if k > 0 {
      GroupBudgetsFacts(start, base, lim, k - 1);
      var t := GroupBudgets(start, base, lim, k - 1);
      var g := GroupsOrder()[k - 1];
      if g in lim.perGroup {
        var idx := GroupIndices(base, g, |base|);
        var r := ScaleGroup(t, idx, lim.perGroup[g], lim.freeze);
        ScaleGroupFacts(t, idx, lim.perGroup[g], lim.freeze);
        if NonNegative(lim) {
          ShrunkTransitive(start, t, r);
          GroupBudgetsKept(t, r, base, lim, k - 1);
        }
      }
    }
  }

  /** Shrinking deltas keeps every group budget applied so far. */
  lemma GroupBudgetsKept(t: seq<Item>, r: seq<Item>, base: seq<Item>, lim: Limits, k: nat)
    requires k <= |GroupsOrder()| && |t| == |base| && Shrunk(t, r)
    requires forall j :: 0 <= j < k && GroupsOrder()[j] in lim.perGroup ==>
               GroupAbs(t, GroupIndices(base, GroupsOrder()[j], |base|)) <= lim.perGroup[GroupsOrder()[j]]
    ensures forall j :: 0 <= j < k && GroupsOrder()[j] in lim.perGroup ==>
              GroupAbs(r, GroupIndices(base, GroupsOrder()[j], |base|)) <= lim.perGroup[GroupsOrder()[j]]
  {
    forall j | 0 <= j < k && GroupsOrder()[j] in lim.perGroup
      ensures GroupAbs(r, GroupIndices(base, GroupsOrder()[j], |base|)) <= lim.perGroup[GroupsOrder()[j]]
    {
      GroupAbsShrunk(t, r, GroupIndices(base, GroupsOrder()[j], |base|));
    }
  }

  lemma {:induction false} MarketIndicesSamePaths(s: seq<Item>, t: seq<Item>, m: string, n: nat)
    requires SameProposals(s, t) && n <= |s|
    ensures MarketIndices(t, m, n) == MarketIndices(s, m, n)
  {
    if n > 0 { MarketIndicesSamePaths(s, t, m, n - 1); }
  }

  lemma {:induction false} GroupIndicesSamePaths(s: seq<Item>, t: seq<Item>, g: string, n: nat)
    requires SameProposals(s, t) && n <= |s|
    ensures GroupIndices(t, g, n) == GroupIndices(s, g, n)
  {
    if n > 0 { GroupIndicesSamePaths(s, t, g, n - 1); }
  }

  /** The stages of `apply_constraints`, named for the lemmas below. */
  function AfterTotalCap(diffs: seq<Diff>, lim: Limits): seq<Item> {
    TotalCap(StepCapAll(SortedItems(diffs, lim.freeze), lim.freeze, lim.stepMax), lim.freeze, lim.totalMax).0
  }

  lemma SortedItemsFacts(diffs: seq<Diff>, freeze: set<string>)
    ensures var s := SortedItems(diffs, freeze);
            AllSettled(s, freeze) && Sorting.SortedBy(s, ItemKey) &&
            multiset(s) == multiset(seq(|diffs|, i requires 0 <= i < |diffs| => InitialItem(diffs[i], freeze)))
  {
    var built := seq(|diffs|, i requires 0 <= i < |diffs| => InitialItem(diffs[i], freeze));
    var s := SortedItems(diffs, freeze);
    Sorting.SortBySorted(built, ItemKey);
    forall i | 0 <= i < |s| ensures Settled(s[i], freeze) {
      assert s[i] in multiset(built);
      var j :| 0 <= j < |built| && built[j] == s[i];
    }
  }

  /** The three passes keep the proposals, in path order, and every value consistent with its delta. */
  lemma ConstrainedShape(diffs: seq<Diff>, lim: Limits)
    ensures var out := ConstrainedItems(diffs, lim);
            SameProposals(SortedItems(diffs, lim.freeze), out) && Good(out, lim.freeze) &&
            Sorting.SortedBy(out, ItemKey)
  {
    var sorted := SortedItems(diffs, lim.freeze);
    SortedItemsFacts(diffs, lim.freeze);
    StepCapFacts(sorted, lim.freeze, lim.stepMax);
    var capped := StepCapAll(sorted, lim.freeze, lim.stepMax);
    TotalCapFacts(capped, lim.freeze, lim.totalMax);
    var base := AfterTotalCap(diffs, lim);
    MarketBudgetsFacts(base, lim, |MarketsOrder()|);
    GroupBudgetsFacts(MarketBudgets(base, lim, |MarketsOrder()|), base, lim, |GroupsOrder()|);
    var out := ConstrainedItems(diffs, lim);
    assert SameProposals(sorted, out);
    forall i, j | 0 <= i < j < |out| ensures Sorting.KeyLe(ItemKey(out[i]), ItemKey(out[j])) {
      assert ItemKey(out[i]) == ItemKey(sorted[i]) && ItemKey(out[j]) == ItemKey(sorted[j]);
    }
  }

  /** A frozen path keeps its old value, and every other numeric proposal moves by exactly its delta. */
  lemma FrozenKeepOldValue(diffs: seq<Diff>, lim: Limits, i: nat)
    requires i < |diffs|
    ensures var out := ConstrainedItems(diffs, lim);
            (out[i].path in lim.freeze ==> out[i].newVal == out[i].oldVal && out[i].delta == 0.0) &&
            (out[i].path !in lim.freeze && out[i].oldVal.Number? ==> out[i].newVal == Number(out[i].oldVal.x + out[i].delta))
  {
    ConstrainedShape(diffs, lim);
  }

  /** With non-negative limits, every delta is within the step cap and the total within the run cap. */
  lemma CapsHold(diffs: seq<Diff>, lim: Limits)
    requires NonNegative(lim)
    ensures var out := ConstrainedItems(diffs, lim);
            (forall i :: 0 <= i < |out| ==> Abs(out[i].delta) <= lim.stepMax) &&
            AbsSum(out) <= lim.totalMax
  {
    var sorted := SortedItems(diffs, lim.freeze);
    SortedItemsFacts(diffs, lim.freeze);
    StepCapFacts(sorted, lim.freeze, lim.stepMax);
    var capped := StepCapAll(sorted, lim.freeze, lim.stepMax);
    TotalCapFacts(capped, lim.freeze, lim.totalMax);
    var base := AfterTotalCap(diffs, lim);
    MarketBudgetsFacts(base, lim, |MarketsOrder()|);
    var mid := MarketBudgets(base, lim, |MarketsOrder()|);
    GroupBudgetsFacts(mid, base, lim, |GroupsOrder()|);
    var out := ConstrainedItems(diffs, lim);
    ShrunkTransitive(base, mid, out);
    ShrunkTransitive(capped, base, out);
    AbsSumShrunk(base, out);
  }

  /** With non-negative limits, every market and parameter group with a budget ends within it. */
  lemma BudgetsHold(diffs: seq<Diff>, lim: Limits)
    requires NonNegative(lim)
    ensures var out := ConstrainedItems(diffs, lim);
            (forall m :: m in MarketsOrder() && m in lim.perMarket ==> GroupAbs(out, MarketIndices(out, m, |out|)) <= lim.perMarket[m]) &&
            (forall g :: g in GroupsOrder() && g in lim.perGroup ==> GroupAbs(out, GroupIndices(out, g, |out|)) <= lim.perGroup[g])
  {
    var sorted := SortedItems(diffs, lim.freeze);
    SortedItemsFacts(diffs, lim.freeze);
    StepCapFacts(sorted, lim.freeze, lim.stepMax);
    var capped := StepCapAll(sorted, lim.freeze, lim.stepMax);
    TotalCapFacts(capped, lim.freeze, lim.totalMax);
    var base := AfterTotalCap(diffs, lim);
    MarketBudgetsFacts(base, lim, |MarketsOrder()|);
    var mid := MarketBudgets(base, lim, |MarketsOrder()|);
    GroupBudgetsFacts(mid, base, lim, |GroupsOrder()|);
    var out := ConstrainedItems(diffs, lim);
    forall m | m in MarketsOrder() && m in lim.perMarket
      ensures GroupAbs(out, MarketIndices(out, m, |out|)) <= lim.perMarket[m]
    {
      var j :| 0 <= j < |MarketsOrder()| && MarketsOrder()[j] == m;
      MarketIndicesSamePaths(base, out, m, |out|);
      GroupAbsShrunk(mid, out, MarketIndices(base, m, |base|));
    }
    forall g | g in GroupsOrder() && g in lim.perGroup
      ensures GroupAbs(out, GroupIndices(out, g, |out|)) <= lim.perGroup[g]
    {
      var j :| 0 <= j < |GroupsOrder()| && GroupsOrder()[j] == g;
      GroupIndicesSamePaths(base, out, g, |out|);
    }
  }

  /** `top_deltas`: at most five of the non-zero changes, largest first, each rounded to four places. */
  lemma TopDeltasOrdered(s: seq<Item>)
    ensures var top := LargestDeltas(s);
            var all := NonZeroDeltas(s);
            |top| == (if |all| <= MaxTopDeltas then |all| else MaxTopDeltas) &&
            (forall p :: p in top ==> p in all) &&
            (forall i, j :: 0 <= i < j < |top| ==> Abs(top[i].1) >= Abs(top[j].1)) &&
            TopDeltas(s) == seq(|top|, i requires 0 <= i < |top| => (top[i].0, Round4(top[i].1)))
  {
    var all := NonZeroDeltas(s);
    var sorted := Sorting.SortBy(all, DeltaKey);
    Sorting.SortBySorted(all, DeltaKey);
    var top := LargestDeltas(s);
    forall p | p in top ensures p in all {
      assert p in sorted;
      assert p in multiset(sorted);
    }
    forall i, j | 0 <= i < j < |top| ensures Abs(top[i].1) >= Abs(top[j].1) {
      assert top[i] == sorted[i] && top[j] == sorted[j];
      assert Sorting.KeyLe(DeltaKey(sorted[i]), DeltaKey(sorted[j]));
      assert !Sorting.KeyLt(DeltaKey(sorted[j]), DeltaKey(sorted[i]));
      assert DeltaKey(sorted[j])[0] != DeltaKey(sorted[i])[0] ==> Sorting.KeyLt(DeltaKey(sorted[j]), DeltaKey(sorted[i])) == Sorting.AtomLt(DeltaKey(sorted[j])[0], DeltaKey(sorted[i])[0]);
    }
  }
}
