/**
 * The piecewise reason-decay fit: per (market, reason code), a penalty per
 * age band, derived from the accuracy of each band of the staleness metrics,
 * carried forward over thinly supported bands and forced to be
 * non-increasing from the youngest band to the oldest.
 */
module ReasonDecay {
  import opened Wrappers
  import opened Sorting
  import opened Rounding

  /** `BAND_ORDER`, youngest to oldest. */
  const BandOrder: seq<string> := ["0-30m", "30m-2h", "2h-6h", "6h-24h", "1d-3d", "3d-7d", "7d+"]

  /** `MIN_SUPPORT`: bands with a smaller total are not fitted. */
  const MinSupport: int := 5

  const SchemaVersion: string := "1"
  const ModelTypePiecewiseV1: string := "PIECEWISE_V1"

  /** One row of the staleness metrics; an absent key is `None`. */
  datatype MetricsRow = MetricsRow(
    market: Option<string>,
    reasonCode: Option<string>,
    ageBand: Option<string>,
    total: Option<int>,
    accuracy: Option<real>)

  /** `(market, reason_code)`. */
  type GroupKey = (string, string)

  datatype FitDiagnostics = FitDiagnostics(
    bandsWithSupport: nat,
    totalBands: nat,
    coverageCounts: seq<int>,
    mseVsBaseline: Option<real>)

  datatype DecayModelParams = DecayModelParams(
    schemaVersion: string,
    modelType: string,
    market: string,
    reasonCode: string,
    bands: seq<string>,
    penaltyByBand: seq<real>,
    fittedAtUtc: string,
    fitQuality: FitDiagnostics)

  /** `_clamp`. */
  function Clamp(value: real, low: real, high: real): (r: real)
    ensures value < low ==> r == low
    ensures low <= value <= high ==> r == value
    ensures low <= high < value ==> r == high
    ensures low <= high ==> low <= r <= high
  {
    if value < low then low else if value > high then high else value
  }

  function Max(a: real, b: real): real {
    if a >= b then a else b
  }

  /** `list.index`: the first position of `x`, or `|s|` when absent. */
  function IndexOf(s: seq<string>, x: string): (r: nat)
    ensures r <= |s|
    ensures r < |s| ==> s[r] == x && forall j :: 0 <= j < r ==> s[j] != x
    ensures r == |s| <==> x !in s
  {
    if s == [] then 0 else if s[0] == x then 0 else 1 + IndexOf(s[1..], x)
  }

  /** `_band_index`: the position in `BandOrder`; an unknown band is the youngest. */
  function BandIndex(ageBand: string): (r: nat)
    ensures r < |BandOrder|
    ensures ageBand in BandOrder ==> BandOrder[r] == ageBand
    ensures ageBand !in BandOrder ==> r == 0
  {
    var i := IndexOf(BandOrder, ageBand);
    if i < |BandOrder| then i else 0
  }

  function RowKey(r: MetricsRow): GroupKey {
    (r.market.GetOr(""), r.reasonCode.GetOr(""))
  }

  /** The band of a row; a row without one is in the youngest band. */
  function RowBand(r: MetricsRow): nat {
    BandIndex(r.ageBand.GetOr("0-30m"))
  }

  function BandKey(r: MetricsRow): Key {
    [Num(RowBand(r) as real)]
  }

  /** The rows of one group, in input order. */
  function RowsOf(rows: seq<MetricsRow>, k: GroupKey): seq<MetricsRow> {
    if rows == [] then []
    else
      var last := rows[|rows| - 1];
      RowsOf(rows[..|rows| - 1], k) + (if RowKey(last) == k then [last] else [])
  }

  /** The group keys that occur. */
  function KeysOf(rows: seq<MetricsRow>): set<GroupKey> {
    if rows == [] then {} else KeysOf(rows[..|rows| - 1]) + {RowKey(rows[|rows| - 1])}
  }

  /** A group holds exactly the rows with its key, and the keys are exactly those of the rows. */
  lemma {:induction false} GroupsPartitionRows(rows: seq<MetricsRow>, k: GroupKey)
    ensures forall r :: r in RowsOf(rows, k) <==> r in rows && RowKey(r) == k
    ensures k in KeysOf(rows) <==> exists r :: r in rows && RowKey(r) == k
  {
    if rows != [] {
      var init := rows[..|rows| - 1];
      GroupsPartitionRows(init, k);
      assert rows == init + [rows[|rows| - 1]];
    }
  }

  /**
   * `_rows_by_market_reason`: the keys in order of first appearance, and per
   * key its rows stably sorted by band.
   */
  method GroupRows(rows: seq<MetricsRow>) returns (keys: seq<GroupKey>, grouped: map<GroupKey, seq<MetricsRow>>)
    ensures Distinct(keys)
    ensures forall k :: k in keys <==> k in KeysOf(rows)
    ensures forall k :: k in grouped <==> k in keys
    ensures forall k :: k in grouped ==> grouped[k] == SortBy(RowsOf(rows, k), BandKey)
  {
    var buckets;
    keys, buckets := Buckets(rows);
    grouped := SortBuckets(keys, buckets, BandKey);
  }

  /** The first loop of `_rows_by_market_reason`: every row appended to its key's list. */
  method Buckets(rows: seq<MetricsRow>) returns (keys: seq<GroupKey>, buckets: map<GroupKey, seq<MetricsRow>>)
    ensures Distinct(keys)
    ensures forall k :: k in keys <==> k in KeysOf(rows)
    ensures forall k :: k in buckets <==> k in keys
    ensures forall k :: k in buckets ==> buckets[k] == RowsOf(rows, k)
  {
    keys := [];
    buckets := map[];
    var i := 0;
    while i < |rows|
      invariant 0 <= i <= |rows|
      invariant Distinct(keys)
      invariant forall k :: k in keys <==> k in KeysOf(rows[..i])
      invariant forall k :: k in buckets <==> k in keys
      invariant forall k :: k in buckets ==> buckets[k] == RowsOf(rows[..i], k)
    {
      BucketStep(rows, i);
      var key := RowKey(rows[i]);
      if key !in buckets {
        SameMembers(keys, KeysOf(rows[..i]), key);
        NoKeyNoRows(rows[..i], key);
        DistinctAppend(keys, key);
        buckets := buckets[key := []];
        keys := keys + [key];
      }
      buckets := buckets[key := buckets[key] + [rows[i]]];
      i := i + 1;
    }
    assert rows[..i] == rows;
  }

  lemma SameMembers<K>(keys: seq<K>, images: set<K>, key: K)
    requires forall k :: k in keys <==> k in images
    ensures key in keys <==> key in images
  {
  }

  lemma DistinctAppend<K>(keys: seq<K>, key: K)
    requires Distinct(keys) && key !in keys
    ensures Distinct(keys + [key])
  {
  }

  /** A key that no row has has no rows. */
  lemma {:induction false} NoKeyNoRows(rows: seq<MetricsRow>, k: GroupKey)
    requires k !in KeysOf(rows)
    ensures RowsOf(rows, k) == []
  {
    if rows != [] {
      NoKeyNoRows(rows[..|rows| - 1], k);
    }
  }

  /** One more row extends its own group and the key set, and no other group. */
  lemma BucketStep(rows: seq<MetricsRow>, i: nat)
    requires i < |rows|
    ensures KeysOf(rows[..i + 1]) == KeysOf(rows[..i]) + {RowKey(rows[i])}
    ensures RowsOf(rows[..i + 1], RowKey(rows[i])) == RowsOf(rows[..i], RowKey(rows[i])) + [rows[i]]
    ensures forall k :: k != RowKey(rows[i]) ==> RowsOf(rows[..i + 1], k) == RowsOf(rows[..i], k)
  {
    assert rows[..i + 1][..i] == rows[..i];
  }

  /** The second loop of `_rows_by_market_reason`: each key's list sorted by band. */
  method SortBuckets<K(==), T>(keys: seq<K>, buckets: map<K, seq<T>>, key: T -> Key) returns (grouped: map<K, seq<T>>)
    requires Distinct(keys)
    requires forall k :: k in buckets <==> k in keys
    ensures forall k :: k in grouped <==> k in keys
    ensures forall k :: k in grouped ==> grouped[k] == SortBy(buckets[k], key)
  {
    grouped := buckets;
    var j := 0;
    while j < |keys|
      invariant 0 <= j <= |keys|
      invariant forall k :: k in grouped <==> k in keys
      invariant SortedUpTo(keys, j, grouped, buckets, key)
    {
      SortStep(keys, j, grouped, buckets, key);
      grouped := grouped[keys[j] := SortBy(grouped[keys[j]], key)];
      j := j + 1;
    }
    forall k | k in grouped ensures grouped[k] == SortBy(buckets[k], key) {
      assert k in keys[..j];
    }
  }

  /** The first `j` keys hold their sorted lists and every other key its list as gathered. */
  ghost predicate SortedUpTo<K, T>(keys: seq<K>, j: nat, grouped: map<K, seq<T>>, buckets: map<K, seq<T>>, key: T -> Key)
    requires j <= |keys|
  {
    forall k :: k in grouped && k in buckets ==>
      grouped[k] == if k in keys[..j] then SortBy(buckets[k], key) else buckets[k]
  }

  lemma SortStep<K, T>(keys: seq<K>, j: nat, grouped: map<K, seq<T>>, buckets: map<K, seq<T>>, key: T -> Key)
    requires Distinct(keys) && j < |keys|
    requires forall k :: k in buckets <==> k in keys
    requires forall k :: k in grouped <==> k in keys
    requires SortedUpTo(keys, j, grouped, buckets, key)
    ensures SortedUpTo(keys, j + 1, grouped[keys[j] := SortBy(grouped[keys[j]], key)], buckets, key)
  {
    assert keys[..j + 1] == keys[..j] + [keys[j]];
    assert keys[j] !in keys[..j];
  }

  /** The last row of band `b`; it is the one whose values the tables keep. */
  function LastAt(rows: seq<MetricsRow>, b: int): (r: Option<MetricsRow>)
    ensures r.Some? ==> r.value in rows && RowBand(r.value) == b
    ensures r.None? ==> forall x :: x in rows ==> RowBand(x) != b
  {
    if rows == [] then None
    else
      var last := rows[|rows| - 1];
      if RowBand(last) == b then Some(last) else LastAt(rows[..|rows| - 1], b)
  }

  /** `band_total[b]`: the row's `total` (default 0), or 0 without a row. */
  function TotalAt(rows: seq<MetricsRow>, b: int): int {
    match LastAt(rows, b)
    case None => 0
    case Some(r) => r.total.GetOr(0)
  }

  /** `band_acc[b]`: the row's `accuracy`, or `None`. */
  function AccAt(rows: seq<MetricsRow>, b: int): Option<real> {
    match LastAt(rows, b)
    case None => None
    case Some(r) => r.accuracy
  }

  function Totals(rows: seq<MetricsRow>): (t: seq<int>)
    ensures |t| == |BandOrder|
  {
    seq(|BandOrder|, b => TotalAt(rows, b))
  }

  function Accuracies(rows: seq<MetricsRow>): (a: seq<Option<real>>)
    ensures |a| == |BandOrder|
  {
    seq(|BandOrder|, b => AccAt(rows, b))
  }

  /** The loop filling `band_acc` and `band_total`. */
  method BandTables(rows: seq<MetricsRow>) returns (acc: array<Option<real>>, total: array<int>)
    ensures fresh(acc) && fresh(total)
    ensures acc[..] == Accuracies(rows) && total[..] == Totals(rows)
  {
    acc := new Option<real>[|BandOrder|](_ => None);
    total := new int[|BandOrder|](_ => 0);
    var i := 0;
    while i < |rows|
      invariant 0 <= i <= |rows|
      invariant acc.Length == |BandOrder| && total.Length == |BandOrder|
      invariant forall b :: 0 <= b < |BandOrder| ==> acc[b] == AccAt(rows[..i], b) && total[b] == TotalAt(rows[..i], b)
    {
      assert rows[..i + 1][..i] == rows[..i];
      var idx := RowBand(rows[i]);
      if 0 <= idx < |BandOrder| {
        total[idx] := rows[i].total.GetOr(0);
        acc[idx] := rows[i].accuracy;
      }
      i := i + 1;
    }
    assert rows[..i] == rows;
  }

  /** A band with enough support and a known accuracy. */
  predicate Supported(total: seq<int>, acc: seq<Option<real>>, i: nat)
    requires i < |total| && i < |acc|
  {
    total[i] >= MinSupport && acc[i].Some?
  }

  /** The first supported band from `from` on, or `|total|`. */
  function FirstSupported(total: seq<int>, acc: seq<Option<real>>, from: nat): (r: nat)
    requires |total| == |acc| && from <= |total|
    ensures from <= r <= |total|
    ensures r < |total| ==> Supported(total, acc, r)
    ensures forall j :: from <= j < r ==> !Supported(total, acc, j)
    decreases |total| - from
  {
    if from == |total| then from
    else if Supported(total, acc, from) then from
    else FirstSupported(total, acc, from + 1)
  }

  /** `baseline_accuracy`: the accuracy of the youngest supported band, else 1.0. */
  function Baseline(total: seq<int>, acc: seq<Option<real>>): real
    requires |total| == |acc|
  {
    var i := FirstSupported(total, acc, 0);
    if i < |total| then acc[i].value else 1.0
  }

  /** The baseline is the youngest supported band's accuracy, or 1.0 when no band is supported. */
  lemma BaselineIsYoungestSupported(total: seq<int>, acc: seq<Option<real>>)
    requires |total| == |acc|
    ensures (forall j :: 0 <= j < |total| ==> !Supported(total, acc, j)) ==> Baseline(total, acc) == 1.0
    ensures forall i :: 0 <= i < |total| && Supported(total, acc, i) && (forall j :: 0 <= j < i ==> !Supported(total, acc, j)) ==>
              Baseline(total, acc) == acc[i].value
  {
    var f := FirstSupported(total, acc, 0);
    forall i | 0 <= i < |total| && Supported(total, acc, i) && (forall j :: 0 <= j < i ==> !Supported(total, acc, j))
      ensures Baseline(total, acc) == acc[i].value
    {
    }
  }

  /** The first supported band is the one before which no band is supported. */
  lemma {:induction false} FirstSupportedAt(total: seq<int>, acc: seq<Option<real>>, from: nat, i: nat)
    requires |total| == |acc| && from <= i <= |total|
    requires forall j :: from <= j < i ==> !Supported(total, acc, j)
    requires i == |total| || Supported(total, acc, i)
    ensures FirstSupported(total, acc, from) == i
    decreases i - from
  {
    if from < i {
      FirstSupportedAt(total, acc, from + 1, i);
    }
  }

  /** The baseline loop, with its early exit. */
  method BaselineAccuracy(total: array<int>, acc: array<Option<real>>) returns (baseline: real)
    requires total.Length == acc.Length
    ensures baseline == Baseline(total[..], acc[..])
  {
    var found: Option<real> := None;
    var i := 0;
    while i < total.Length
      invariant 0 <= i <= total.Length
      invariant forall j :: 0 <= j < i ==> !Supported(total[..], acc[..], j)
    {
      if total[i] >= MinSupport && acc[i].Some? {
        found := acc[i];
        break;
      }
      i := i + 1;
    }
    FirstSupportedAt(total[..], acc[..], 0, i);
    baseline := if found.Some? then found.value else 1.0;
  }

  /** `clamp(1 - max(0, baseline - acc), 0, 1)`, a missing accuracy counting as the baseline. */
  function Ideal(a: Option<real>, baseline: real): real {
    var accuracy := a.GetOr(baseline);
    Clamp(1.0 - Max(0.0, baseline - accuracy), 0.0, 1.0)
  }

  /** The raw penalties of the first `n` bands, before monotonicity is enforced. */
  function RawPenalties(total: seq<int>, acc: seq<Option<real>>, baseline: real, n: nat): (p: seq<real>)
    requires n <= |total| && n <= |acc|
    ensures |p| == n
  {
    if n == 0 then []
    else
      var prev := RawPenalties(total, acc, baseline, n - 1);
      prev + [if total[n - 1] < MinSupport then (if prev == [] then 1.0 else prev[n - 2]) else Ideal(acc[n - 1], baseline)]
  }

  /** A longer run of raw penalties extends a shorter one. */
  lemma {:induction false} RawPrefix(total: seq<int>, acc: seq<Option<real>>, baseline: real, n: nat, k: nat)
    requires k <= n <= |total| && n <= |acc|
    ensures RawPenalties(total, acc, baseline, n)[..k] == RawPenalties(total, acc, baseline, k)
    decreases n - k
  {
    if k < n {
      RawPrefix(total, acc, baseline, n - 1, k);
      assert RawPenalties(total, acc, baseline, n)[..n - 1] == RawPenalties(total, acc, baseline, n - 1);
      assert RawPenalties(total, acc, baseline, n)[..k] == RawPenalties(total, acc, baseline, n)[..n - 1][..k];
    }
  }

  /**
   * Band `i` of the raw penalties: an unsupported band carries the previous
   * penalty, or 1.0 when it is the youngest; a supported one has its ideal.
   */
  lemma RawAt(total: seq<int>, acc: seq<Option<real>>, baseline: real, n: nat, i: nat)
    requires i < n <= |total| && n <= |acc|
    ensures var p := RawPenalties(total, acc, baseline, n);
            (total[i] < MinSupport && i == 0 ==> p[i] == 1.0) &&
            (total[i] < MinSupport && i > 0 ==> p[i] == p[i - 1]) &&
            (total[i] >= MinSupport ==> p[i] == Ideal(acc[i], baseline))
  {
    RawPrefix(total, acc, baseline, n, i + 1);
    var p := RawPenalties(total, acc, baseline, n);
    assert p[i] == p[..i + 1][i];
    if i > 0 {
      RawPrefix(total, acc, baseline, i + 1, i);
      assert p[i - 1] == p[..i + 1][i - 1];
    }
  }

  /** Every raw penalty lies in [0, 1]. */
  lemma {:induction false} RawInUnit(total: seq<int>, acc: seq<Option<real>>, baseline: real, n: nat)
    requires n <= |total| && n <= |acc|
    ensures forall i :: 0 <= i < n ==> 0.0 <= RawPenalties(total, acc, baseline, n)[i] <= 1.0
  {
    if n > 0 {
      RawInUnit(total, acc, baseline, n - 1);
    }
  }

  /** The raw-penalty loop: one append per band. */
  method RawPenaltyArray(total: array<int>, acc: array<Option<real>>, baseline: real) returns (penalties: array<real>)
    requires total.Length == acc.Length
    ensures fresh(penalties)
    ensures penalties[..] == RawPenalties(total[..], acc[..], baseline, total.Length)
  {
    penalties := new real[total.Length](_ => 0.0);
    var i := 0;
    while i < total.Length
      invariant 0 <= i <= total.Length
      invariant penalties[..i] == RawPenalties(total[..], acc[..], baseline, i)
    {
      if total[i] < MinSupport {
        var prev := if i > 0 then penalties[i - 1] else 1.0;
        penalties[i] := prev;
      } else {
        var a := if acc[i].Some? then acc[i].value else baseline;
        var observedDrop := Max(0.0, baseline - a);
        penalties[i] := Clamp(1.0 - observedDrop, 0.0, 1.0);
      }
      assert penalties[..i + 1] == penalties[..i] + [penalties[i]];
      i := i + 1;
    }
    assert penalties[..] == penalties[..i];
  }

  /** Each entry lowered to the one before it when it is larger: the running minimum. */
  function RunningMin(p: seq<real>): (m: seq<real>)
    ensures |m| == |p|
  {
    if p == [] then []
    else
      var prev := RunningMin(p[..|p| - 1]);
      var x := p[|p| - 1];
      prev + [if prev != [] && x > prev[|prev| - 1] then prev[|prev| - 1] else x]
  }

  ghost predicate NonIncreasing(p: seq<real>) {
    forall i, j :: 0 <= i < j < |p| ==> p[j] <= p[i]
  }

  /** The enforced penalties never increase with age, and never exceed the raw ones. */
  lemma {:induction false} RunningMinNonIncreasing(p: seq<real>)
    ensures NonIncreasing(RunningMin(p))
    ensures forall i :: 0 <= i < |p| ==> RunningMin(p)[i] <= p[i]
    ensures p != [] ==> RunningMin(p)[0] == p[0]
  {
    if p != [] {
      var init := p[..|p| - 1];
      RunningMinNonIncreasing(init);
      var m := RunningMin(p);
      assert m[..|init|] == RunningMin(init);
      forall i | 0 <= i < |init| ensures m[i] <= p[i] {
        assert m[i] == RunningMin(init)[i] && p[i] == init[i];
      }
    }
  }

  /** Each enforced penalty is a raw penalty of the same or a younger band. */
  lemma {:induction false} RunningMinFrom(p: seq<real>, lo: real, hi: real)
    requires forall i :: 0 <= i < |p| ==> lo <= p[i] <= hi
    ensures forall i :: 0 <= i < |p| ==> lo <= RunningMin(p)[i] <= hi
  {
    if p != [] {
      var init := p[..|p| - 1];
      RunningMinFrom(init, lo, hi);
      assert RunningMin(p)[..|init|] == RunningMin(init);
      forall i | 0 <= i < |init| ensures lo <= RunningMin(p)[i] <= hi {
        assert RunningMin(p)[i] == RunningMin(init)[i];
      }
    }
  }

  /** Enforcement changes nothing on penalties that already never increase. */
  lemma {:induction false} RunningMinKeepsNonIncreasing(p: seq<real>)
    requires NonIncreasing(p)
    ensures RunningMin(p) == p
  {
    if p != [] {
      var init := p[..|p| - 1];
      var x := p[|p| - 1];
      assert NonIncreasing(init) by {
        forall i, j | 0 <= i < j < |init| ensures init[j] <= init[i] { assert init[i] == p[i] && init[j] == p[j]; }
      }
      RunningMinKeepsNonIncreasing(init);
      if init != [] {
        assert x <= init[|init| - 1] by { assert init[|init| - 1] == p[|p| - 2]; }
      }
      assert RunningMin(p) == init + [x];
      assert p == init + [x];
    }
  }

  /** Enforcement is idempotent. */
  lemma RunningMinIdempotent(p: seq<real>)
    ensures RunningMin(RunningMin(p)) == RunningMin(p)
  {
    RunningMinNonIncreasing(p);
    RunningMinKeepsNonIncreasing(RunningMin(p));
  }

  /** The running minimum at `i` is the smaller of the entry and the running minimum before it. */
  lemma RunningMinAt(p: seq<real>, i: nat)
    requires 0 < i < |p|
    ensures RunningMin(p)[i] == if p[i] > RunningMin(p)[i - 1] then RunningMin(p)[i - 1] else p[i]
  {
    RunningMinPrefix(p, i + 1);
    RunningMinPrefix(p, i);
    assert p[..i + 1][..i] == p[..i];
    assert RunningMin(p)[i] == RunningMin(p[..i + 1])[i];
    assert RunningMin(p)[i - 1] == RunningMin(p[..i])[i - 1];
  }

  lemma {:induction false} RunningMinPrefix(p: seq<real>, k: nat)
    requires k <= |p|
    ensures RunningMin(p)[..k] == RunningMin(p[..k])
    decreases |p| - k
  {
    if k < |p| {
      var init := p[..|p| - 1];
      RunningMinPrefix(init, k);
      assert init[..k] == p[..k];
      assert RunningMin(p)[..|init|] == RunningMin(init);
      assert RunningMin(p)[..k] == RunningMin(p)[..|init|][..k];
    } else {
      assert p[..k] == p;
    }
  }

  /** The monotonicity pass, in place. */
  method EnforceNonIncreasing(p: array<real>)
    modifies p
    ensures p[..] == RunningMin(old(p[..]))
  {
    ghost var orig := p[..];
    if p.Length == 0 { return; }
    assert orig[..1] == [orig[0]];
    var i := 1;
    while i < p.Length
      invariant 1 <= i <= p.Length
      invariant p[..i] == RunningMin(orig[..i])
      invariant p[i..] == orig[i..]
    {
      assert p[i] == orig[i] by { assert p[i] == p[i..][0]; }
      ghost var before := p[..];
      if p[i] > p[i - 1] {
        p[i] := p[i - 1];
      }
      assert p[i + 1..] == before[i + 1..];
      assert before[i + 1..] == orig[i + 1..] by {
        assert before[i + 1..] == before[i..][1..] && orig[i + 1..] == orig[i..][1..];
      }
      assert orig[..i + 1][..i] == orig[..i];
      RunningMinAt(orig[..i + 1], i);
      i := i + 1;
    }
    assert orig[..i] == orig;
    assert p[..] == p[..i];
  }

  /** `sum(1 for i ... if band_total[i] >= MIN_SUPPORT)`. */
  function CountSupported(total: seq<int>): (n: nat)
    ensures n <= |total|
    ensures n == 0 <==> forall i :: 0 <= i < |total| ==> total[i] < MinSupport
  {
    if total == [] then 0
    else CountSupported(total[..|total| - 1]) + (if total[|total| - 1] >= MinSupport then 1 else 0)
  }

  /** The squared distances of the final penalties to the ideal ones, over the supported bands. */
  function SquaredSum(total: seq<int>, acc: seq<Option<real>>, baseline: real, final: seq<real>, n: nat): (s: real)
    requires n <= |total| && n <= |acc| && n <= |final|
    ensures s >= 0.0
  {
    if n == 0 then 0.0
    else
      var rest := SquaredSum(total, acc, baseline, final, n - 1);
      if total[n - 1] < MinSupport then rest
      else
        rest + Square(final[n - 1] - Ideal(acc[n - 1], baseline))
  }

  function Square(x: real): (r: real)
    ensures r >= 0.0
  {
    x * x
  }

  lemma SquaredStep(total: seq<int>, acc: seq<Option<real>>, baseline: real, final: seq<real>, i: nat)
    requires i < |total| && i < |acc| && i < |final|
    ensures SquaredSum(total, acc, baseline, final, i + 1) ==
            SquaredSum(total, acc, baseline, final, i) + (if total[i] < MinSupport then 0.0 else Square(final[i] - Ideal(acc[i], baseline)))
  {
  }

  /** `mse_vs_baseline`, before its rounding to six places. */
  function Mse(total: seq<int>, acc: seq<Option<real>>, baseline: real, final: seq<real>): (m: Option<real>)
    requires |total| == |acc| == |final|
    ensures m.None? <==> CountSupported(total) == 0
    ensures m.Some? ==> m.value >= 0.0
  {
    var n := CountSupported(total);
    if n == 0 then None else Some(SquaredSum(total, acc, baseline, final, |total|) / n as real)
  }

  lemma CountPrefix(total: seq<int>, i: nat)
    requires i < |total|
    ensures CountSupported(total[..i + 1]) == CountSupported(total[..i]) + (if total[i] >= MinSupport then 1 else 0)
  {
    assert total[..i + 1][..i] == total[..i];
  }

  /** `round(mse, 6) if mse is not None else None`: the reported `mse_vs_baseline`. */
  function ReportedMse(m: Option<real>): (r: Option<real>)
    ensures r.None? <==> m.None?
    ensures r.Some? ==> m.value - 0.0000005 <= r.value <= m.value + 0.0000005
    ensures r.Some? && m.value >= 0.0 ==> r.value >= 0.0
  {
    if m.None? then None else Some(Round6(m.value))
  }

  /** The mean-squared-error loop over the supported bands. */
  method MseVsBaseline(total: array<int>, acc: array<Option<real>>, baseline: real, final: array<real>) returns (mse: Option<real>)
    requires total.Length == acc.Length == final.Length
    ensures mse == Mse(total[..], acc[..], baseline, final[..])
  {
    ghost var t, c, f := total[..], acc[..], final[..];
    var sqSum := 0.0;
    var nSupport := 0;
    var i := 0;
    while i < total.Length
      invariant 0 <= i <= total.Length
      invariant sqSum == SquaredSum(t, c, baseline, f, i)
      invariant nSupport == CountSupported(t[..i])
    {
      CountPrefix(t, i);
      SquaredStep(t, c, baseline, f, i);
      if total[i] < MinSupport {
        i := i + 1;
        continue;
      }
      var a := if acc[i].Some? then acc[i].value else baseline;
      var observedDrop := Max(0.0, baseline - a);
      var idealPenalty := Clamp(1.0 - observedDrop, 0.0, 1.0);
      assert idealPenalty == Ideal(c[i], baseline);
      sqSum := sqSum + Square(final[i] - idealPenalty);
      nSupport := nSupport + 1;
      i := i + 1;
    }
    assert t[..i] == t;
    mse := if nSupport > 0 then Some(sqSum / nSupport as real) else None;
  }

  /** The fitted penalties of one group's rows. */
  function GroupPenalties(rows: seq<MetricsRow>): seq<real> {
    var total := Totals(rows);
    var acc := Accuracies(rows);
    RunningMin(RawPenalties(total, acc, Baseline(total, acc), |BandOrder|))
  }

  /** The parameters fitted for one group. */
  function GroupParams(k: GroupKey, rows: seq<MetricsRow>, fittedAt: string): DecayModelParams {
    var total := Totals(rows);
    var acc := Accuracies(rows);
    var baseline := Baseline(total, acc);
    var penalties := RunningMin(RawPenalties(total, acc, baseline, |BandOrder|));
    DecayModelParams(SchemaVersion, ModelTypePiecewiseV1, k.0, k.1, BandOrder, penalties, fittedAt,
                     FitDiagnostics(CountSupported(total), |BandOrder|, total, ReportedMse(Mse(total, acc, baseline, penalties))))
  }

  /** The body of the per-group loop of `fit_piecewise_decay`. */
  method FitGroup(k: GroupKey, rows: seq<MetricsRow>, fittedAt: string) returns (params: DecayModelParams)
    ensures params == GroupParams(k, rows, fittedAt)
  {
    var acc, total := BandTables(rows);
    var baseline := BaselineAccuracy(total, acc);
    var penalties := RawPenaltyArray(total, acc, baseline);
    EnforceNonIncreasing(penalties);
    var bandsWithSupport := CountSupported(total[..]);
    var mse := MseVsBaseline(total, acc, baseline, penalties);
    params := DecayModelParams(SchemaVersion, ModelTypePiecewiseV1, k.0, k.1, BandOrder, penalties[..], fittedAt,
                               FitDiagnostics(bandsWithSupport, |BandOrder|, total[..], ReportedMse(mse)));
  }

  /** The properties of one group's fit. */
  lemma GroupFit(k: GroupKey, rows: seq<MetricsRow>, fittedAt: string)
    ensures var p := GroupParams(k, rows, fittedAt);
            |p.penaltyByBand| == |p.bands| == |BandOrder| &&
            (forall i :: 0 <= i < |BandOrder| ==> 0.0 <= p.penaltyByBand[i] <= 1.0) &&
            NonIncreasing(p.penaltyByBand) &&
            p.fitQuality.coverageCounts == Totals(rows) &&
            p.fitQuality.bandsWithSupport <= |BandOrder| &&
            (p.fitQuality.mseVsBaseline.None? <==> p.fitQuality.bandsWithSupport == 0) &&
            (p.fitQuality.mseVsBaseline.Some? ==> p.fitQuality.mseVsBaseline.value >= 0.0)
  {
    var total := Totals(rows);
    var acc := Accuracies(rows);
    var raw := RawPenalties(total, acc, Baseline(total, acc), |BandOrder|);
    RawInUnit(total, acc, Baseline(total, acc), |BandOrder|);
    RunningMinFrom(raw, 0.0, 1.0);
    RunningMinNonIncreasing(raw);
  }

  /**
   * A band below `MinSupport` keeps the penalty of the band before it, and
   * the youngest such band has penalty 1.0; a supported band is at most its
   * ideal penalty.
   */
  lemma UnsupportedCarries(rows: seq<MetricsRow>, i: nat)
    requires i < |BandOrder|
    ensures var total := Totals(rows);
            var p := GroupPenalties(rows);
            (total[i] < MinSupport && i == 0 ==> p[i] == 1.0) &&
            (total[i] < MinSupport && i > 0 ==> p[i] == p[i - 1]) &&
            (total[i] >= MinSupport ==> p[i] <= Ideal(Accuracies(rows)[i], Baseline(total, Accuracies(rows))))
  {
    var total := Totals(rows);
    var acc := Accuracies(rows);
    var raw := RawPenalties(total, acc, Baseline(total, acc), |BandOrder|);
    RawAt(total, acc, Baseline(total, acc), |BandOrder|, i);
    RunningMinNonIncreasing(raw);
    if i > 0 {
      RunningMinAt(raw, i);
      if total[i] < MinSupport {
        RawAt(total, acc, Baseline(total, acc), |BandOrder|, i - 1);
        assert RunningMin(raw)[i - 1] <= raw[i - 1];
      }
    }
  }

  function PairKey(k: GroupKey): Key {
    [Str(k.0), Str(k.1)]
  }

  function ParamsKey(p: DecayModelParams): Key {
    [Str(p.market), Str(p.reasonCode)]
  }

  /** The group a parameter set was fitted for. */
  function ParamsGroup(p: DecayModelParams): GroupKey {
    (p.market, p.reasonCode)
  }

  /** The parameters fitted for group `k` of the rows: its rows, sorted by band. */
  function Fitted(rows: seq<MetricsRow>, k: GroupKey, fittedAt: string): (p: DecayModelParams)
    ensures ParamsGroup(p) == k
  {
    GroupParams(k, SortBy(RowsOf(rows, k), BandKey), fittedAt)
  }

  /**
   * `fit_piecewise_decay`: one parameter set per (market, reason code) in
   * the rows, each fitted on that group's band-sorted rows, strictly ordered
   * by (market, reason code). The clock that supplies a missing timestamp is
   * replaced by `fittedAt`.
   */
  method FitPiecewiseDecay(rows: seq<MetricsRow>, fittedAt: string) returns (result: seq<DecayModelParams>)
    ensures StrictlySortedBy(result, ParamsKey)
    ensures forall k :: k in KeysOf(rows) <==> exists p :: p in result && ParamsGroup(p) == k
    ensures forall p :: p in result ==> p == Fitted(rows, ParamsGroup(p), fittedAt)
  {
    var keys, grouped := GroupRows(rows);
    var order := SortBy(keys, PairKey);
    KeyOrder(keys, order);
    var fitted := FitEach(rows, order, grouped, fittedAt);
    GroupsInOrder(order, fitted);
    result := SortBy(fitted, ParamsKey);
    FittedCoversKeys(rows, keys, order, result, fittedAt);
  }

  /**
   * Parameter sets listed in the strict order of their groups are strictly
   * sorted, so the final sort of `fit_piecewise_decay` keeps them as fitted.
   */
  lemma GroupsInOrder(order: seq<GroupKey>, fitted: seq<DecayModelParams>)
    requires StrictlySortedBy(order, PairKey)
    requires |fitted| == |order| && forall j :: 0 <= j < |order| ==> ParamsGroup(fitted[j]) == order[j]
    ensures StrictlySortedBy(fitted, ParamsKey) && SortBy(fitted, ParamsKey) == fitted
  {
    assert forall j :: 0 <= j < |order| ==> ParamsKey(fitted[j]) == PairKey(order[j]);
    SortByStrictlySorted(fitted, ParamsKey);
  }

  /** Every key of the rows has its parameter set, and no other set is produced. */
  lemma FittedCoversKeys(rows: seq<MetricsRow>, keys: seq<GroupKey>, order: seq<GroupKey>, result: seq<DecayModelParams>, fittedAt: string)
    requires forall k :: k in keys <==> k in KeysOf(rows)
    requires forall k :: k in order <==> k in keys
    requires |result| == |order| && forall j :: 0 <= j < |order| ==> result[j] == Fitted(rows, order[j], fittedAt)
    ensures forall k :: k in KeysOf(rows) <==> exists p :: p in result && ParamsGroup(p) == k
    ensures forall p :: p in result ==> p == Fitted(rows, ParamsGroup(p), fittedAt)
  {
    forall k ensures k in KeysOf(rows) <==> exists p :: p in result && ParamsGroup(p) == k {
      if k in KeysOf(rows) {
        assert k in order;
        var j :| 0 <= j < |order| && order[j] == k;
        assert result[j] in result;
      }
    }
  }

  /** `sorted(grouped.items())` orders the distinct keys strictly. */
  lemma KeyOrder(keys: seq<GroupKey>, order: seq<GroupKey>)
    requires Distinct(keys) && order == SortBy(keys, PairKey)
    ensures StrictlySortedBy(order, PairKey)
    ensures forall k :: k in order <==> k in keys
  {
    SortBySorted(keys, PairKey);
    DistinctPermutation(keys, order);
    PairKeyInjective();
    SortedDistinctStrict(order, PairKey);
    forall k ensures k in order <==> k in keys {
      assert k in order <==> k in multiset(order);
      assert k in keys <==> k in multiset(keys);
    }
  }

  /** The loop of `fit_piecewise_decay` over the sorted groups. */
  method FitEach(ghost rows: seq<MetricsRow>, order: seq<GroupKey>, grouped: map<GroupKey, seq<MetricsRow>>, fittedAt: string)
    returns (fitted: seq<DecayModelParams>)
    requires forall k :: k in order ==> k in grouped && grouped[k] == SortBy(RowsOf(rows, k), BandKey)
    ensures |fitted| == |order|
    ensures forall j :: 0 <= j < |order| ==> fitted[j] == Fitted(rows, order[j], fittedAt)
    ensures forall j :: 0 <= j < |order| ==> ParamsGroup(fitted[j]) == order[j]
  {
    fitted := [];
    var i := 0;
    while i < |order|
      invariant 0 <= i <= |order|
      invariant |fitted| == i
      invariant forall j :: 0 <= j < i ==> fitted[j] == Fitted(rows, order[j], fittedAt)
      invariant forall j :: 0 <= j < i ==> ParamsGroup(fitted[j]) == order[j]
    {
      var params := FitGroup(order[i], grouped[order[i]], fittedAt);
      fitted := fitted + [params];
      i := i + 1;
    }
  }

  lemma PairKeyInjective()
    ensures forall x, y :: x != y ==> PairKey(x) != PairKey(y)
  {
    forall x: GroupKey, y: GroupKey | x != y ensures PairKey(x) != PairKey(y) {
      if x.0 != y.0 { assert PairKey(x)[0] != PairKey(y)[0]; } else { assert PairKey(x)[1] != PairKey(y)[1]; }
    }
  }
}
