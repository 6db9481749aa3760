/**
 * Activation tiers: per-tier match caps and confidence floors, the
 * deterministic rollout subset, and the daily activation cap counted from
 * the reports index.
 */
module Tiers {
  import opened Wrappers
  import opened Rounding
  import opened Text
  import opened Json
  import opened Sorting
  import opened IndexStore
  import opened ActivationEnv
  import BurnIn

  /** The cap on matches per run across every tier. */
  const HardCap: int := 10

  const ActivationTiers: seq<string> := ["burn_in", "limited", "expanded"]

  const DefaultMinConfidence: real := 0.80

  /** `_tier`: `ACTIVATION_TIER` normalised; anything unknown is `burn_in`. */
  function Tier(env: Env): (t: string)
    ensures t in ActivationTiers
    ensures env.tier.None? ==> t == "burn_in"
    ensures env.tier.Some? && Setting(env.tier) in ActivationTiers ==> t == Setting(env.tier)
  {
    match env.tier
    case None => "burn_in"
    case Some(_) => if Setting(env.tier) in ActivationTiers then Setting(env.tier) else "burn_in"
  }

  /** `tier or _tier()`: no tier, or an empty one, falls back to the setting. */
  function EffectiveTier(tier: Option<string>, env: Env): (t: string)
    ensures tier.None? || tier.value == "" ==> t == Tier(env) && t in ActivationTiers
    ensures tier.Some? && tier.value != "" ==> t == tier.value
  {
    if tier.None? || tier.value == "" then Tier(env) else tier.value
  }

  function Clamp(x: real, lo: real, hi: real): real
    requires lo <= hi
  {
    if x < lo then lo else if x > hi then hi else x
  }

  /** `_rollout_pct`: the setting clamped to 0..100; unset or unparsable gives 0. */
  function RolloutPct(env: Env): (p: real)
    ensures 0.0 <= p <= 100.0
    ensures !env.rolloutPct.Float? ==> p == 0.0
    ensures env.rolloutPct.Float? && 0.0 <= env.rolloutPct.x <= 100.0 ==> p == env.rolloutPct.x
    ensures env.rolloutPct.Float? && env.rolloutPct.x > 100.0 ==> p == 100.0
  {
    Clamp(FloatOr(env.rolloutPct, 0.0), 0.0, 100.0)
  }

  /** `_daily_max_activations`: never negative; unset or unparsable gives 0. */
  function DailyMaxActivations(env: Env): (n: nat)
    ensures IntEnv(env.dailyMax, 0).None? ==> n == 0
    ensures IntEnv(env.dailyMax, 0).Some? && IntEnv(env.dailyMax, 0).value >= 0 ==> n == IntEnv(env.dailyMax, 0).value
    ensures IntEnv(env.dailyMax, 0).Some? && IntEnv(env.dailyMax, 0).value < 0 ==> n == 0
  {
    match IntEnv(env.dailyMax, 0)
    case None => 0
    case Some(v) => if v < 0 then 0 else v
  }

  /** `ACTIVATION_MAX_MATCHES` as `tier_max_matches` reads it: unparsable is 0, then clamped to 0..10. */
  function MaxMatchesSetting(env: Env): (v: int)
    ensures 0 <= v <= HardCap
  {
    var raw := match IntEnv(env.maxMatches, 0) case Some(n) => n case None => 0;
    if raw < 0 then 0 else if raw > HardCap then HardCap else raw
  }

  /**
   * `tier_max_matches`: never above the hard cap; burn-in lies in 1..3 and
   * an unset or zero setting gives it the full 3; other tiers take the
   * clamped setting as it is.
   */
  function TierMaxMatches(tier: Option<string>, env: Env): (r: int)
    ensures 0 <= r <= HardCap
    ensures EffectiveTier(tier, env) == "burn_in" ==> 1 <= r <= BurnIn.MaxMatchesMax
    ensures EffectiveTier(tier, env) == "burn_in" && MaxMatchesSetting(env) == 0 ==> r == BurnIn.MaxMatchesMax
    ensures EffectiveTier(tier, env) == "burn_in" && MaxMatchesSetting(env) > 0 ==>
              r == if MaxMatchesSetting(env) < BurnIn.MaxMatchesMax then MaxMatchesSetting(env) else BurnIn.MaxMatchesMax
    ensures EffectiveTier(tier, env) != "burn_in" ==> r == MaxMatchesSetting(env)
    ensures forall n :: IntEnv(env.maxMatches, 0) == Some(n) && 0 <= n <= HardCap && EffectiveTier(tier, env) != "burn_in" ==> r == n
  {
    var v := MaxMatchesSetting(env);
    if EffectiveTier(tier, env) == "burn_in" then
      var w := if v != 0 then v else BurnIn.MaxMatchesMax;
      if w < BurnIn.MaxMatchesMax then w else BurnIn.MaxMatchesMax
    else v
  }

  /** `tier_min_confidence`: burn-in uses its own floor; other tiers the setting, default 0.80. */
  function TierMinConfidence(tier: Option<string>, env: Env): (r: real)
    ensures EffectiveTier(tier, env) == "burn_in" ==> r == BurnIn.MinConfidence(env)
    ensures EffectiveTier(tier, env) != "burn_in" && !env.minConfidence.Float? ==> r == DefaultMinConfidence
    ensures EffectiveTier(tier, env) != "burn_in" && env.minConfidence.Float? ==> r == env.minConfidence.x
  {
    if EffectiveTier(tier, env) == "burn_in" then BurnIn.MinConfidence(env)
    else FloatOr(env.minConfidence, DefaultMinConfidence)
  }

  /** `max(0, int(round(n * pct / 100.0)))`. */
  function RolloutTake(n: nat, pct: real): (t: nat)
    ensures 0.0 < pct < 100.0 ==> t <= n
  {
    var x := Scaled(n, pct);
    ScaledBelowCount(n, pct);
    RoundBelow(x, n);
    var r := RoundHalfEven(x);
    if r < 0 then 0 else r
  }

  lemma RoundBelow(x: real, n: nat)
    ensures x <= n as real ==> RoundHalfEven(x) <= n
  {
    var r := RoundHalfEven(x);
    assert r as real <= x + 0.5;
  }

  /** `n * pct / 100.0`. */
  function Scaled(n: nat, pct: real): real {
    n as real * pct / 100.0
  }

  lemma ScaledBelowCount(n: nat, pct: real)
    ensures pct < 100.0 ==> Scaled(n, pct) <= n as real
  {
    if pct < 100.0 {
      ScaledMonotone(n, pct, 100.0);
    }
  }

  /** Scaling by a larger percentage never gives less. */
  lemma ScaledMonotone(n: nat, p: real, q: real)
    requires p <= q
    ensures Scaled(n, p) <= Scaled(n, q)
  {
    var d := q - p;
    MulNonNegative(n as real, d);
    assert n as real * q == n as real * p + n as real * d;
  }

  lemma MulNonNegative(a: real, b: real)
    requires 0.0 <= a && 0.0 <= b
    ensures 0.0 <= a * b
  {
  }

  /** A larger percentage never takes fewer ids. */
  lemma RolloutTakeMonotone(n: nat, p: real, q: real)
    requires p <= q
    ensures RolloutTake(n, p) <= RolloutTake(n, q)
  {
    ScaledMonotone(n, p, q);
    RoundMonotone(Scaled(n, p), Scaled(n, q));
  }

  /**
   * `select_rollout_match_ids`: nothing at 0 % or less, everything at 100 %
   * or more, otherwise the first `RolloutTake` ids of the sorted list.
   */
  function SelectRollout(ids: seq<string>, pct: real): (r: set<string>)
    ensures r <= Elems(ids)
    ensures pct <= 0.0 ==> r == {}
    ensures pct >= 100.0 ==> r == Elems(ids)
  {
    if pct <= 0.0 then {}
    else if pct >= 100.0 then Elems(ids)
    else
      var sorted := SortBy(ids, StrKey);
      var take := RolloutTake(|ids|, pct);
      SortByElems(ids);
      assert Elems(sorted[..take]) <= Elems(sorted) by {
        forall x | x in sorted[..take] ensures x in sorted { }
      }
      Elems(sorted[..take])
  }

  /** The rollout set is a prefix in string order: every selected id precedes every id left out. */
  lemma RolloutTakesSmallest(ids: seq<string>, pct: real, x: string, y: string)
    requires x in SelectRollout(ids, pct)
    requires y in ids && y !in SelectRollout(ids, pct)
    ensures StrLt(x, y)
  {
    var sorted := SortBy(ids, StrKey);
    var take := RolloutTake(|ids|, pct);
    SortBySorted(ids, StrKey);
    SortByElems(ids);
    assert 0.0 < pct < 100.0;
    var i :| 0 <= i < take && sorted[i] == x;
    assert y in Elems(sorted);
    var j :| 0 <= j < |sorted| && sorted[j] == y;
    forall k | 0 <= k < take ensures sorted[k] != y {
      assert sorted[..take][k] == sorted[k];
    }
    assert KeyLe(StrKey(sorted[i]), StrKey(sorted[j]));
    StrKeyLe(x, y);
    StrLtTotal(x, y);
  }

  /** Duplicate-free ids give exactly `RolloutTake` selected ids when the percentage is strictly between 0 and 100. */
  lemma RolloutSize(ids: seq<string>, pct: real)
    requires forall i, j :: 0 <= i < j < |ids| ==> ids[i] != ids[j]
    requires 0.0 < pct < 100.0
    ensures |SelectRollout(ids, pct)| == RolloutTake(|ids|, pct)
  {
    var sorted := SortBy(ids, StrKey);
    var take := RolloutTake(|ids|, pct);
    SortBySorted(ids, StrKey);
    DistinctSortedIsStrict(ids, sorted);
    var pre := sorted[..take];
    assert StrictlySorted(pre);
    SortedCard(pre);
  }

  lemma DistinctSortedIsStrict(ids: seq<string>, sorted: seq<string>)
    requires forall i, j :: 0 <= i < j < |ids| ==> ids[i] != ids[j]
    requires SortedBy(sorted, StrKey) && multiset(sorted) == multiset(ids)
    ensures StrictlySorted(sorted)
  {
    forall i, j | 0 <= i < j < |sorted| ensures StrLt(sorted[i], sorted[j]) {
      assert KeyLe(StrKey(sorted[i]), StrKey(sorted[j]));
      StrKeyLe(sorted[i], sorted[j]);
      if sorted[i] == sorted[j] {
        TwiceInMultiset(sorted, i, j);
        OnceInMultiset(ids, sorted[i]);
      }
      StrLtTotal(sorted[i], sorted[j]);
    }
  }

  lemma TwiceInMultiset(s: seq<string>, i: int, j: int)
    requires 0 <= i < j < |s| && s[i] == s[j]
    ensures multiset(s)[s[i]] >= 2
  {
    assert s == s[..i] + [s[i]] + s[i + 1..j] + [s[j]] + s[j + 1..];
  }

  lemma {:induction false} OnceInMultiset(s: seq<string>, x: string)
    requires forall i, j :: 0 <= i < j < |s| ==> s[i] != s[j]
    ensures multiset(s)[x] <= 1
    decreases |s|
  {
    if s != [] {
      var t := s[1..];
      assert s == [s[0]] + t;
      assert forall i, j :: 0 <= i < j < |t| ==> t[i] != t[j] by {
        forall i, j | 0 <= i < j < |t| ensures t[i] != t[j] { assert t[i] == s[i + 1] && t[j] == s[j + 1]; }
      }
      OnceInMultiset(t, x);
      forall k | 0 <= k < |t| ensures t[k] != s[0] {
        assert t[k] == s[k + 1];
      }
    }
  }

  /** Raising the percentage only adds ids to the rollout. */
  lemma RolloutMonotone(ids: seq<string>, p: real, q: real)
    requires p <= q
    ensures SelectRollout(ids, p) <= SelectRollout(ids, q)
  {
    if 0.0 < p && q < 100.0 {
      var sorted := SortBy(ids, StrKey);
      RolloutTakeMonotone(|ids|, p, q);
      var a, b := RolloutTake(|ids|, p), RolloutTake(|ids|, q);
      forall x | x in sorted[..a] ensures x in sorted[..b] {
        var i :| 0 <= i < a && sorted[..a][i] == x;
        assert sorted[..b][i] == x;
      }
    }
  }

  /** The selection depends on the ids given, not on the order they come in. */
  lemma RolloutOrderFree(a: seq<string>, b: seq<string>, pct: real)
    requires multiset(a) == multiset(b)
    ensures SelectRollout(a, pct) == SelectRollout(b, pct)
  {
    assert |a| == |multiset(a)| == |multiset(b)| == |b|;
    SortBySorted(a, StrKey);
    SortBySorted(b, StrKey);
    StrSortedUnique(SortBy(a, StrKey), SortBy(b, StrKey));
    SortByElems(a);
    SortByElems(b);
  }

  /** `str(created).split("T")[0].split(" ")[0]`: the date part of a timestamp. */
  function DatePart(s: string): string {
    Split(Split(s, 'T')[0], ' ')[0]
  }

  /**
   * `is_today`: a falsy value never is. The timestamps are strings; the text
   * of any other JSON value (a number, `True`, a list) is never an ISO date.
   */
  predicate IsToday(created: Json, today: string) {
    Truthy(created) && created.JStr? && DatePart(created.s) == today
  }

  /** A run that uses up the cap: a dictionary created today with a truthy `activated`. */
  predicate Counts(e: Json, today: string) {
    e.JObj? && IsToday(Get(e.fields, "created_at_utc"), today) && Truthy(GetOr(e.fields, "activated", JBool(false)))
  }

  /** What one run entry adds to the day's count; `Err` where the code raises. */
  function EntryActivations(r: Json, today: string): (c: Result<real, string>)
    ensures r.JObj? && !Counts(r, today) ==> c == Ok(0.0)
    ensures !r.JObj? ==> c.Err?
    ensures Counts(r, today) && Get(r.fields, "activated_count") != JNull ==>
              match PyInt(Get(r.fields, "activated_count"))
              case Some(n) => c == Ok(n as real)
              case None => c.Err?
    ensures Counts(r, today) && Get(r.fields, "activated_count") == JNull ==>
              match PyNumber(GetOr(r.fields, "matches_count", JInt(1)))
              case Some(x) => c == Ok(x)
              case None => c.Err?
  {
    if !r.JObj? then Err("AttributeError: run entry is not a dict")
    else if !IsToday(Get(r.fields, "created_at_utc"), today) then Ok(0.0)
    else if !Truthy(GetOr(r.fields, "activated", JBool(false))) then Ok(0.0)
    else if Get(r.fields, "activated_count") != JNull then
      match PyInt(Get(r.fields, "activated_count"))
      case Some(n) => Ok(n as real)
      case None => Err("ValueError: activated_count is not an integer")
    else
      match PyNumber(GetOr(r.fields, "matches_count", JInt(1)))
      case Some(x) => Ok(x)
      case None => Err("TypeError: matches_count is not a number")
  }

  /** The running count over a list of entries, front to back, stopping at the first entry that raises. */
  function SumActivations(runs: seq<Json>, today: string): Result<real, string> {
    if runs == [] then Ok(0.0)
    else Plus(SumActivations(runs[..|runs| - 1], today), EntryActivations(runs[|runs| - 1], today))
  }

  /** `count += c`, where computing the running count or the addend may have raised first. */
  function Plus(a: Result<real, string>, b: Result<real, string>): (r: Result<real, string>)
    ensures a.Err? ==> r == a
    ensures a.Ok? && b.Err? ==> r == b
    ensures a.Ok? && b.Ok? ==> r == Ok(a.value + b.value)
  {
    match a
    case Err(e) => Err(e)
    case Ok(s) =>
      match b
      case Err(e) => Err(e)
      case Ok(c) => Ok(s + c)
  }

  /** `index.get(key) or []` iterated: a truthy value that is not a list raises. */
  function RunsOf(index: Dict, key: string): (r: Result<seq<Json>, string>)
    ensures Get(index, key).JArr? ==> r == Ok(Get(index, key).items)
    ensures !Truthy(Get(index, key)) ==> r == Ok([])
  {
    var v := Get(index, key);
    if v.JArr? then Ok(v.items)
    else if !Truthy(v) then Ok([])
    else Err("TypeError: run list is not a list")
  }

  /** The lists whose runs use up the daily cap. */
  const CountedLists: seq<string> := ["activation_runs", "burn_in_ops_runs"]

  /** The count over several lists, in order. */
  function UsedIn(index: Dict, keys: seq<string>, today: string): Result<real, string> {
    if keys == [] then Ok(0.0)
    else
      Plus(UsedIn(index, keys[..|keys| - 1], today), ListCount(index, keys[|keys| - 1], today))
  }

  /** The count over one list of the index. */
  function ListCount(index: Dict, key: string, today: string): Result<real, string> {
    match RunsOf(index, key)
    case Err(e) => Err(e)
    case Ok(runs) => SumActivations(runs, today)
  }

  /** `get_daily_activations_used` on the index file: a missing file counts nothing. */
  function UsedToday(f: IndexFile, today: string): (r: Result<real, string>)
    ensures f.Missing? ==> r == Ok(0.0)
    ensures !f.Missing? && LoadIndexAll(f).Err? ==> r == Err(LoadIndexAll(f).error)
    ensures !f.Missing? && LoadIndexAll(f).Ok? ==>
              r == Plus(ListCount(LoadIndexAll(f).value, "activation_runs", today),
                        ListCount(LoadIndexAll(f).value, "burn_in_ops_runs", today))
  {
    if f.Missing? then Ok(0.0)
    else
      match LoadIndexAll(f)
      case Err(e) => Err(e)
      case Ok(index) =>
        UsedInCounted(index, today);
        UsedIn(index, CountedLists, today)
  }

  /** The count over the two counted lists: the activation runs first, then the burn-in ops runs. */
  lemma UsedInCounted(index: Dict, today: string)
    ensures UsedIn(index, CountedLists, today) ==
              Plus(ListCount(index, "activation_runs", today), ListCount(index, "burn_in_ops_runs", today))
  {
    assert CountedLists[..1] == ["activation_runs"];
    assert CountedLists[..1][..0] == [];
    var a := ListCount(index, "activation_runs", today);
    assert UsedIn(index, CountedLists[..1], today) == Plus(Ok(0.0), a);
    if a.Ok? {
      assert Plus(Ok(0.0), a) == Ok(0.0 + a.value);
      assert 0.0 + a.value == a.value;
    }
  }

  /** The same count with the index loaded by `load_index` as written. */
  function UsedTodayAsWritten(f: IndexFile, today: string): Result<real, string> {
    if f.Missing? then Ok(0.0)
    else
      match LoadIndex(f)
      case Err(e) => Err(e)
      case Ok(index) => UsedIn(index, CountedLists, today)
  }

  /** `get_daily_activations_used`: a missing file counts nothing, otherwise both lists are counted. */
  method DailyActivationsUsed(f: IndexFile, today: string) returns (r: Result<real, string>)
    ensures r == UsedToday(f, today)
  {
    if f.Missing? {
      return Ok(0.0);
    }
    var loaded := LoadIndexAll(f);
    if loaded.Err? {
      return Err(loaded.error);
    }
    r := SumLists(loaded.value, CountedLists, today);
  }

  /** The loop of `get_daily_activations_used` over the counted lists; the first error ends it. */
  method SumLists(index: Dict, keys: seq<string>, today: string) returns (r: Result<real, string>)
    ensures r == UsedIn(index, keys, today)
  {
    r := Ok(0.0);
    var k := 0;
    while k < |keys| && r.Ok?
      invariant 0 <= k <= |keys|
      invariant UsedIn(index, keys[..k], today) == r
      invariant r.Err? ==> k > 0
    {
      UsedStep(index, keys, k, today);
      r := AddList(index, keys[k], today, r.value);
      k := k + 1;
    }
    if r.Err? {
      UsedErrSticks(index, keys, k, today);
    } else {
      assert keys[..k] == keys;
    }
  }

  /** One round of the outer loop: the count so far plus one list's count. */
  method AddList(index: Dict, key: string, today: string, count: real) returns (r: Result<real, string>)
    ensures r == Plus(Ok(count), ListCount(index, key, today))
  {
    var runs := RunsOf(index, key);
    if runs.Err? {
      return Err(runs.error);
    }
    var sum := SumRuns(runs.value, today);
    if sum.Err? {
      return Err(sum.error);
    }
    return Ok(count + sum.value);
  }

  /** The inner loop of `get_daily_activations_used`: the running count over one list, up to the first entry that raises. */
  method SumRuns(runs: seq<Json>, today: string) returns (r: Result<real, string>)
    ensures r == SumActivations(runs, today)
  {
    r := Ok(0.0);
    var i := 0;
    while i < |runs| && r.Ok?
      invariant 0 <= i <= |runs|
      invariant SumActivations(runs[..i], today) == r
      invariant r.Err? ==> i > 0
    {
      SumStep(runs, i, today);
      r := Plus(r, EntryActivations(runs[i], today));
      i := i + 1;
    }
    if r.Err? {
      SumErrSticks(runs, i, today);
    } else {
      assert runs[..i] == runs;
    }
  }

  lemma SumStep(runs: seq<Json>, i: nat, today: string)
    requires i < |runs|
    ensures SumActivations(runs[..i + 1], today) == Plus(SumActivations(runs[..i], today), EntryActivations(runs[i], today))
  {
    assert runs[..i + 1][..i] == runs[..i];
  }

  lemma UsedStep(index: Dict, keys: seq<string>, k: nat, today: string)
    requires k < |keys|
    ensures UsedIn(index, keys[..k + 1], today) == Plus(UsedIn(index, keys[..k], today), ListCount(index, keys[k], today))
  {
    assert keys[..k + 1][..k] == keys[..k];
  }

  /** Once the running count raises, the whole count raises with the same error. */
  lemma {:induction false} SumErrSticks(runs: seq<Json>, i: nat, today: string)
    requires 0 < i <= |runs| && SumActivations(runs[..i], today).Err?
    ensures SumActivations(runs, today) == SumActivations(runs[..i], today)
    decreases |runs| - i
  {
    if i < |runs| {
      assert runs[..i + 1][..i] == runs[..i];
      SumErrSticks(runs, i + 1, today);
    } else {
      assert runs[..i] == runs;
    }
  }

  lemma {:induction false} UsedErrSticks(index: Dict, keys: seq<string>, k: nat, today: string)
    requires 0 < k <= |keys| && UsedIn(index, keys[..k], today).Err?
    ensures UsedIn(index, keys, today) == UsedIn(index, keys[..k], today)
    decreases |keys| - k
  {
    if k < |keys| {
      assert keys[..k + 1][..k] == keys[..k];
      UsedErrSticks(index, keys, k + 1, today);
    } else {
      assert keys[..k] == keys;
    }
  }

  /** The entries that use up the cap: today's activated runs. */
  function TodaysActivated(runs: seq<Json>, today: string): (r: seq<Json>)
    ensures |r| <= |runs|
    ensures forall e :: e in r <==> e in runs && Counts(e, today)
  {
    if runs == [] then []
    else
      var e := runs[|runs| - 1];
      var rest := TodaysActivated(runs[..|runs| - 1], today);
      if Counts(e, today) then rest + [e] else rest
  }

  /** The selection keeps the entries' order: selecting from a concatenation concatenates the selections. */
  lemma {:induction false} TodaysActivatedAppend(a: seq<Json>, b: seq<Json>, today: string)
    ensures TodaysActivated(a + b, today) == TodaysActivated(a, today) + TodaysActivated(b, today)
    decreases |b|
  {
    if b == [] {
      assert a + b == a;
    } else {
      var b' := b[..|b| - 1];
      assert (a + b)[..|a + b| - 1] == a + b';
      assert (a + b)[|a + b| - 1] == b[|b| - 1];
      TodaysActivatedAppend(a, b', today);
    }
  }

  /** Daily usage counts only today's activated runs: dropping every other entry leaves the count as it was. */
  lemma {:induction false} OnlyTodaysActivatedCount(runs: seq<Json>, today: string)
    requires forall i :: 0 <= i < |runs| ==> runs[i].JObj?
    ensures SumActivations(runs, today) == SumActivations(TodaysActivated(runs, today), today)
    decreases |runs|
  {
    if runs != [] {
      var p := runs[..|runs| - 1];
      var e := runs[|runs| - 1];
      assert forall i :: 0 <= i < |p| ==> p[i].JObj? by {
        forall i | 0 <= i < |p| ensures p[i].JObj? { assert p[i] == runs[i]; }
      }
      OnlyTodaysActivatedCount(p, today);
      var fp := TodaysActivated(p, today);
      if Counts(e, today) {
        var q := fp + [e];
        assert q[..|q| - 1] == fp && q[|q| - 1] == e;
      }
    }
  }

  /**
   * `daily_cap_remaining` on a cap and the outcome of counting today's
   * usage: zero when the cap is not positive (the usage is not looked at
   * then), otherwise the cap minus the usage, never negative.
   */
  function CapRemaining(cap: nat, used: Result<real, string>): (r: Result<real, string>)
    ensures cap == 0 ==> r == Ok(0.0)
    ensures r.Err? <==> cap > 0 && used.Err?
    ensures r.Ok? && cap > 0 ==> 0.0 <= r.value && (used.value >= 0.0 ==> r.value <= cap as real)
    ensures r.Ok? && cap > 0 ==> r.value == (if cap as real - used.value > 0.0 then cap as real - used.value else 0.0)
  {
    if cap == 0 then Ok(0.0)
    else
      match used
      case Err(e) => Err(e)
      case Ok(u) => Ok(if cap as real - u > 0.0 then cap as real - u else 0.0)
  }

  /** `daily_cap_remaining`: the index is read only when the cap is positive. */
  method DailyCapRemaining(env: Env, f: IndexFile, today: string) returns (r: Result<real, string>)
    ensures r == CapRemaining(DailyMaxActivations(env), UsedToday(f, today))
  {
    r := CapRemainingFor(DailyMaxActivations(env), f, today);
  }

  /** The body of `daily_cap_remaining` once the cap is read. */
  method CapRemainingFor(cap: nat, f: IndexFile, today: string) returns (r: Result<real, string>)
    ensures r == CapRemaining(cap, UsedToday(f, today))
  {
    if cap == 0 {
      return Ok(0.0);
    }
    var used := DailyActivationsUsed(f, today);
    r := CapLeft(cap, used);
  }

  /** `max(0.0, cap - used)` for a positive cap, where counting the usage may have raised. */
  method CapLeft(cap: nat, used: Result<real, string>) returns (r: Result<real, string>)
    requires cap > 0
    ensures r == CapRemaining(cap, used)
  {
    if used.Err? {
      return Err(used.error);
    }
    var left := cap as real - used.value;
    return Ok(if left > 0.0 then left else 0.0);
  }

  /**
   * With `load_index` as written, activations recorded by burn-in ops runs
   * never reach the daily count: an index holding one of today's activated
   * burn-in ops runs counts 0, where the corrected loader counts 1.
   */
  lemma AsWrittenMissesOpsRuns(today: string)
    requires today != [] && 'T' !in today && ' ' !in today
    ensures UsedTodayAsWritten(Parsed(JObj(OpsIndex(today))), today) == Ok(0.0)
    ensures UsedToday(Parsed(JObj(OpsIndex(today))), today) == Ok(1.0)
  {
    var d := OpsIndex(today);
    assert "activation_runs" !in d;
    AsWrittenCount(d, today);
    OpsRunSum(today);
    CorrectedCount(d, [OpsRun(today)], today);
  }

  lemma AsWrittenCount(d: Dict, today: string)
    requires "activation_runs" !in d
    ensures UsedTodayAsWritten(Parsed(JObj(d)), today) == Ok(0.0)
  {
    AsWrittenLoadsNoOpsRuns(d);
    var asWritten := LoadIndex(Parsed(JObj(d))).value;
    UsedOnTwoLists(asWritten, [], today);
    assert UsedIn(asWritten, CountedLists, today) == Ok(0.0 + 0.0);
  }

  lemma CorrectedCount(d: Dict, ops: seq<Json>, today: string)
    requires "activation_runs" !in d
    requires "burn_in_ops_runs" in d && d["burn_in_ops_runs"] == JArr(ops)
    ensures UsedToday(Parsed(JObj(d)), today) == Plus(Ok(0.0), SumActivations(ops, today))
  {
    var loaded := LoadIndexAll(Parsed(JObj(d)));
    CorrectedLoadsOpsRuns(d);
    UsedOnTwoLists(loaded.value, ops, today);
    assert UsedToday(Parsed(JObj(d)), today) == UsedIn(loaded.value, CountedLists, today);
  }

  lemma OpsRunSum(today: string)
    requires today != [] && 'T' !in today && ' ' !in today
    ensures SumActivations([OpsRun(today)], today) == Ok(0.0 + 1.0)
  {
    OpsRunCounts(today);
    assert [OpsRun(today)][..0] == [];
  }

  /** An index holding only a `burn_in_ops_runs` list with one of today's activated runs. */
  function OpsIndex(today: string): Dict {
    map["burn_in_ops_runs" := JArr([OpsRun(today)])]
  }

  /** One of today's burn-in ops runs that activated one match. */
  function OpsRun(today: string): Json {
    JObj(map["created_at_utc" := JStr(today), "activated" := JBool(true), "activated_count" := JInt(1)])
  }

  lemma OpsRunCounts(today: string)
    requires today != [] && 'T' !in today && ' ' !in today
    ensures EntryActivations(OpsRun(today), today) == Ok(1.0)
  {
    var fields := OpsRun(today).fields;
    SplitPiece(today, [], 'T', false);
    SplitPiece(today, [], ' ', false);
    assert DatePart(today) == today;
    assert Get(fields, "created_at_utc") == JStr(today);
    assert Get(fields, "activated") == JBool(true);
    assert Get(fields, "activated_count") == JInt(1);
  }

  lemma AsWrittenLoadsNoOpsRuns(d: Dict)
    requires "activation_runs" !in d
    ensures LoadIndex(Parsed(JObj(d))).Ok?
    ensures Get(LoadIndex(Parsed(JObj(d))).value, "activation_runs") == JArr([])
    ensures Get(LoadIndex(Parsed(JObj(d))).value, "burn_in_ops_runs") == JNull
  {
    LoadIndexDropsOpsRuns(d);
    LoadIndexList(d, 3);
  }

  lemma CorrectedLoadsOpsRuns(d: Dict)
    requires "activation_runs" !in d
    requires "burn_in_ops_runs" in d && d["burn_in_ops_runs"].JArr?
    ensures LoadIndexAll(Parsed(JObj(d))).Ok?
    ensures Get(LoadIndexAll(Parsed(JObj(d))).value, "activation_runs") == JArr([])
    ensures Get(LoadIndexAll(Parsed(JObj(d))).value, "burn_in_ops_runs") == d["burn_in_ops_runs"]
  {
    LoadIndexAllList(d, 3);
    LoadIndexAllList(d, 7);
  }

  /** The count of an index whose activation list is empty is the count of its burn-in ops list. */
  lemma UsedOnTwoLists(index: Dict, ops: seq<Json>, today: string)
    requires Get(index, "activation_runs") == JArr([])
    requires Get(index, "burn_in_ops_runs") == JArr(ops) || (ops == [] && Get(index, "burn_in_ops_runs") == JNull)
    ensures UsedIn(index, CountedLists, today) == Plus(Ok(0.0), SumActivations(ops, today))
  {
    assert CountedLists[..1] == ["activation_runs"];
    assert CountedLists[..1][..0] == [];
    assert UsedIn(index, CountedLists[..1], today) == Ok(0.0 + 0.0);
  }
}
