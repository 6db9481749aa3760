/**
 * Staleness metrics: every (record, market, reason code) triple is counted
 * under the key (market, reason code, age band), and the counters become
 * report rows sorted by that key. The evidence-age resolver and the age-band
 * lookup are parameters; the clock is the parameter `now`.
 */
module StalenessAggregate {
  import opened Wrappers
  import opened Sorting

  /** The markets walked for every record, in their order. */
  const Markets: seq<string> := ["one_x_two", "over_under_25", "gg_ng"]

  /**
   * An evaluation record. A missing dict and a missing or `None` entry are
   * both an absent key; the reason codes are already strings.
   */
  datatype EvaluationRecord = EvaluationRecord(
    marketOutcomes: map<string, string>,
    reasonCodesByMarket: map<string, seq<string>>,
    marketToConfidence: map<string, real>)

  datatype StaleKey = StaleKey(market: string, reasonCode: string, ageBand: string)

  /** What one (record, market, reason code) triple adds to the counters of its key. */
  datatype Hit = Hit(key: StaleKey, correct: nat, neutral: nat, confidence: Option<real>)

  datatype Counters = Counters(total: nat, correct: nat, neutral: nat, sumConfidence: real, nConfidence: nat)

  type Agg = map<StaleKey, Counters>

  datatype StalenessRow = StalenessRow(
    market: string,
    reasonCode: string,
    ageBand: string,
    total: nat,
    correct: nat,
    neutral: nat,
    avgConfidence: Option<real>)

  datatype StalenessReport = StalenessReport(rows: seq<StalenessRow>, computedAtUtc: string, notes: string)

  // ---------------------------------------------------------------- the triples

  /** `resolver(rec)`, a missing age counting as 0 ms. */
  function AgeOf(resolver: EvaluationRecord -> Option<int>, rec: EvaluationRecord): int {
    resolver(rec).GetOr(0)
  }

  /** `outcomes.get(market, "UNRESOLVED")`. */
  function OutcomeOf(rec: EvaluationRecord, market: string): string {
    if market in rec.marketOutcomes then rec.marketOutcomes[market] else "UNRESOLVED"
  }

  /** `reason_codes.get(market) or []`. */
  function CodesOf(rec: EvaluationRecord, market: string): seq<string> {
    if market in rec.reasonCodesByMarket then rec.reasonCodesByMarket[market] else []
  }

  /** `market_to_confidence.get(market)`. */
  function ConfidenceOf(rec: EvaluationRecord, market: string): Option<real> {
    if market in rec.marketToConfidence then Some(rec.marketToConfidence[market]) else None
  }

  function Correct(outcome: string): nat {
    if outcome == "SUCCESS" then 1 else 0
  }

  /** Everything but SUCCESS and FAILURE, the default UNRESOLVED included, is neutral. */
  function Neutral(outcome: string): nat {
    if outcome != "SUCCESS" && outcome != "FAILURE" then 1 else 0
  }

  /** The hits of the reason codes of one market of one record, in their order. */
  function CodeHits(market: string, codes: seq<string>, band: string, correct: nat, neutral: nat,
                    confidence: Option<real>): seq<Hit>
    decreases |codes|
  {
    if codes == [] then []
    else CodeHits(market, codes[..|codes| - 1], band, correct, neutral, confidence) +
         [Hit(StaleKey(market, codes[|codes| - 1], band), correct, neutral, confidence)]
  }

  function MarketHits(rec: EvaluationRecord, market: string, band: string): seq<Hit> {
    var outcome := OutcomeOf(rec, market);
    CodeHits(market, CodesOf(rec, market), band, Correct(outcome), Neutral(outcome), ConfidenceOf(rec, market))
  }

  function MarketsHits(rec: EvaluationRecord, band: string, markets: seq<string>): seq<Hit>
    decreases |markets|
  {
    if markets == [] then []
    else MarketsHits(rec, band, markets[..|markets| - 1]) + MarketHits(rec, markets[|markets| - 1], band)
  }

  /** The hits of one record: its three markets in order, all in the band of the record's age. */
  function RecordHits(rec: EvaluationRecord, resolver: EvaluationRecord -> Option<int>, bandFor: int -> string): seq<Hit> {
    MarketsHits(rec, bandFor(AgeOf(resolver, rec)), Markets)
  }

  function AllHits(records: seq<EvaluationRecord>, resolver: EvaluationRecord -> Option<int>,
                   bandFor: int -> string): seq<Hit>
    decreases |records|
  {
    if records == [] then []
    else AllHits(records[..|records| - 1], resolver, bandFor) + RecordHits(records[|records| - 1], resolver, bandFor)
  }

  // ---------------------------------------------------------------- the counters

  const Zero := Counters(0, 0, 0, 0.0, 0)

  /** The increments of one hit; the confidence is summed and counted only when present. */
  function Bump(c: Counters, h: Hit): Counters {
    match h.confidence
    case Some(x) => Counters(c.total + 1, c.correct + h.correct, c.neutral + h.neutral, c.sumConfidence + x, c.nConfidence + 1)
    case None => Counters(c.total + 1, c.correct + h.correct, c.neutral + h.neutral, c.sumConfidence, c.nConfidence)
  }

  /** One hit counted, its key created with zero counters first when new. */
  function Add(agg: Agg, h: Hit): Agg {
    agg[h.key := Bump(if h.key in agg then agg[h.key] else Zero, h)]
  }

  function AddAll(agg: Agg, hs: seq<Hit>): Agg
    decreases |hs|
  {
    if hs == [] then agg else Add(AddAll(agg, hs[..|hs| - 1]), hs[|hs| - 1])
  }

  /** The `agg` dict after counting `hs` from nothing. */
  function AggOf(hs: seq<Hit>): Agg {
    AddAll(map[], hs)
  }

  lemma {:induction false} AddAllAppend(agg: Agg, a: seq<Hit>, b: seq<Hit>)
    ensures AddAll(agg, a + b) == AddAll(AddAll(agg, a), b)
    decreases |b|
  {
    if b == [] {
      assert a + b == a;
    } else {
      var b' := b[..|b| - 1];
      assert (a + b)[..|a + b| - 1] == a + b';
      assert (a + b)[|a + b| - 1] == b[|b| - 1];
      AddAllAppend(agg, a, b');
    }
  }

  // ---------------------------------------------------------------- the loops

  /** The innermost loop: count every reason code of one market under its key. */
  method AddCodes(agg: Agg, market: string, codes: seq<string>, band: string, correct: nat, neutral: nat,
                  confidence: Option<real>) returns (agg': Agg)
    ensures agg' == AddAll(agg, CodeHits(market, codes, band, correct, neutral, confidence))
  {
    agg' := agg;
    for j := 0 to |codes|
      invariant agg' == AddAll(agg, CodeHits(market, codes[..j], band, correct, neutral, confidence))
    {
      agg' := CountHit(agg', StaleKey(market, codes[j], band), correct, neutral, confidence);
      CodeHitsStep(market, codes, j, band, correct, neutral, confidence);
    }
    assert codes[..|codes|] == codes;
  }

  /** The body of the innermost loop: create the key's counters when new, then increment them. */
  method CountHit(agg: Agg, key: StaleKey, correct: nat, neutral: nat, confidence: Option<real>) returns (agg': Agg)
    ensures agg' == Add(agg, Hit(key, correct, neutral, confidence))
  {
    agg' := agg;
    if key !in agg' {
      agg' := agg'[key := Zero];
    }
    var c := agg'[key];
    c := c.(total := c.total + 1, correct := c.correct + correct, neutral := c.neutral + neutral);
    if confidence.Some? {
      c := c.(sumConfidence := c.sumConfidence + confidence.value, nConfidence := c.nConfidence + 1);
    }
    agg' := agg'[key := c];
  }

  lemma CodeHitsStep(market: string, codes: seq<string>, j: nat, band: string, correct: nat, neutral: nat,
                     confidence: Option<real>)
    requires j < |codes|
    ensures CodeHits(market, codes[..j + 1], band, correct, neutral, confidence) ==
            CodeHits(market, codes[..j], band, correct, neutral, confidence) +
            [Hit(StaleKey(market, codes[j], band), correct, neutral, confidence)]
  {
    assert codes[..j + 1][..j] == codes[..j];
  }

  /** One turn of the outer loop: the record's age band, then its three markets. */
  method AddRecord(agg: Agg, rec: EvaluationRecord, resolver: EvaluationRecord -> Option<int>,
                   bandFor: int -> string) returns (agg': Agg)
    ensures agg' == AddAll(agg, RecordHits(rec, resolver, bandFor))
  {
    var age := resolver(rec);
    var ageMs := if age.None? then 0 else age.value;
    var band := bandFor(ageMs);
    agg' := AddMarkets(agg, rec, Markets, band);
  }

  /** The middle loop, over the markets in their order. */
  method AddMarkets(agg: Agg, rec: EvaluationRecord, markets: seq<string>, band: string) returns (agg': Agg)
    ensures agg' == AddAll(agg, MarketsHits(rec, band, markets))
  {
    agg' := agg;
    for i := 0 to |markets|
      invariant agg' == AddAll(agg, MarketsHits(rec, band, markets[..i]))
    {
      var market := markets[i];
      agg' := AddMarket(agg', rec, market, band);
      MarketsHitsStep(rec, band, markets, i);
      AddAllAppend(agg, MarketsHits(rec, band, markets[..i]), MarketHits(rec, market, band));
    }
    assert markets[..|markets|] == markets;
  }

  lemma MarketsHitsStep(rec: EvaluationRecord, band: string, markets: seq<string>, i: nat)
    requires i < |markets|
    ensures MarketsHits(rec, band, markets[..i + 1]) == MarketsHits(rec, band, markets[..i]) + MarketHits(rec, markets[i], band)
  {
    assert markets[..i + 1][..i] == markets[..i];
  }

  /** The middle loop's body: the outcome and the confidence of one market, then its reason codes. */
  method AddMarket(agg: Agg, rec: EvaluationRecord, market: string, band: string) returns (agg': Agg)
    ensures agg' == AddAll(agg, MarketHits(rec, market, band))
  {
    var outcome := OutcomeOf(rec, market);
    var correct := if outcome == "SUCCESS" then 1 else 0;
    var neutral := if outcome != "SUCCESS" && outcome != "FAILURE" then 1 else 0;
    var confidence := ConfidenceOf(rec, market);
    agg' := AddCodes(agg, market, CodesOf(rec, market), band, correct, neutral, confidence);
  }

  /** The outer loop over the records. */
  method AggregateRecords(records: seq<EvaluationRecord>, resolver: EvaluationRecord -> Option<int>,
                          bandFor: int -> string) returns (agg: Agg)
    ensures agg == AggOf(AllHits(records, resolver, bandFor))
  {
    agg := map[];
    for i := 0 to |records|
      invariant agg == AggOf(AllHits(records[..i], resolver, bandFor))
    {
      agg := AddRecord(agg, records[i], resolver, bandFor);
      assert records[..i + 1][..i] == records[..i];
      AddAllAppend(map[], AllHits(records[..i], resolver, bandFor), RecordHits(records[i], resolver, bandFor));
    }
    assert records[..|records|] == records;
  }

  // ---------------------------------------------------------------- the rows

  function KeyOf(k: StaleKey): Key {
    [Str(k.market), Str(k.reasonCode), Str(k.ageBand)]
  }

  function RowKey(r: StalenessRow): Key {
    [Str(r.market), Str(r.reasonCode), Str(r.ageBand)]
  }

  function StaleKeyOf(r: StalenessRow): StaleKey {
    StaleKey(r.market, r.reasonCode, r.ageBand)
  }

  /** The row of one key: its counters, and the mean confidence when there was any. */
  function RowOf(k: StaleKey, c: Counters): StalenessRow {
    StalenessRow(k.market, k.reasonCode, k.ageBand, c.total, c.correct, c.neutral,
                 if c.nConfidence != 0 then Some(c.sumConfidence / c.nConfidence as real) else None)
  }

  function SumTotals(rows: seq<StalenessRow>): nat {
    if rows == [] then 0 else SumTotals(rows[..|rows| - 1]) + rows[|rows| - 1].total
  }

  lemma KeyOfInjective()
    ensures forall x: StaleKey, y: StaleKey :: x != y ==> KeyOf(x) != KeyOf(y)
  {
    forall x: StaleKey, y: StaleKey | KeyOf(x) == KeyOf(y) ensures x == y {
      assert KeyOf(x)[0] == KeyOf(y)[0] && KeyOf(x)[1] == KeyOf(y)[1] && KeyOf(x)[2] == KeyOf(y)[2];
    }
  }

  /** `sorted(agg)`: the keys, once each, in increasing (market, reason code, age band). */
  method SortedKeys(agg: Agg) returns (ks: seq<StaleKey>)
    ensures StrictlySortedBy(ks, KeyOf)
    ensures forall k :: k in ks <==> k in agg
  {
    var items: seq<StaleKey> := [];
    var rest := agg.Keys;
    while rest != {}
      invariant rest !! (set k | k in items) && forall k :: k in agg <==> k in rest || k in items
      invariant Distinct(items)
      decreases |rest|
    {
      var k :| k in rest;
      assert forall i :: 0 <= i < |items| ==> items[i] in items;
      items := items + [k];
      rest := rest - {k};
    }
    ks := SortBy(items, KeyOf);
    SortBySorted(items, KeyOf);
    DistinctPermutation(items, ks);
    KeyOfInjective();
    SortedDistinctStrict(ks, KeyOf);
    assert forall k :: k in ks <==> k in multiset(ks);
    assert forall k :: k in items <==> k in multiset(items);
  }

  /** The row loop of the report. */
  method BuildRows(agg: Agg, ks: seq<StaleKey>) returns (rows: seq<StalenessRow>)
    requires forall i :: 0 <= i < |ks| ==> ks[i] in agg
    ensures |rows| == |ks|
    ensures forall i :: 0 <= i < |ks| ==> rows[i] == RowOf(ks[i], agg[ks[i]])
  {
    rows := [];
    for i := 0 to |ks|
      invariant |rows| == i
      invariant forall j :: 0 <= j < i ==> rows[j] == RowOf(ks[j], agg[ks[j]])
    {
      var v := agg[ks[i]];
      var nConf := v.nConfidence;
      var avgConfidence := if nConf != 0 then Some(v.sumConfidence / nConf as real) else None;
      rows := rows + [StalenessRow(ks[i].market, ks[i].reasonCode, ks[i].ageBand, v.total, v.correct, v.neutral, avgConfidence)];
    }
  }

  // ---------------------------------------------------------------- counting

  /** How many hits fall under `k`. */
  function CountKey(hs: seq<Hit>, k: StaleKey): nat
    decreases |hs|
  {
    if hs == [] then 0 else CountKey(hs[..|hs| - 1], k) + (if hs[|hs| - 1].key == k then 1 else 0)
  }

  /** How many hits under `k` carried a confidence. */
  function CountConf(hs: seq<Hit>, k: StaleKey): nat
    decreases |hs|
  {
    if hs == [] then 0
    else CountConf(hs[..|hs| - 1], k) + (if hs[|hs| - 1].key == k && hs[|hs| - 1].confidence.Some? then 1 else 0)
  }

  /** A hit of the source: SUCCESS and neutral exclude each other. */
  predicate ValidHit(h: Hit) {
    h.correct + h.neutral <= 1
  }

  /** The counters of every key: how many hits it has, how many with a confidence, and the bounds between them. */
  lemma {:induction false} AggCounts(hs: seq<Hit>)
    requires forall i :: 0 <= i < |hs| ==> ValidHit(hs[i])
    ensures forall k :: k in AggOf(hs) <==> CountKey(hs, k) > 0
    ensures forall k :: CountConf(hs, k) <= CountKey(hs, k)
    ensures forall k :: k in AggOf(hs) ==>
              AggOf(hs)[k].total == CountKey(hs, k) && AggOf(hs)[k].nConfidence == CountConf(hs, k) &&
              AggOf(hs)[k].correct + AggOf(hs)[k].neutral <= AggOf(hs)[k].total &&
              AggOf(hs)[k].nConfidence <= AggOf(hs)[k].total
    decreases |hs|
  {
    if hs != [] {
      var hs' := hs[..|hs| - 1];
      assert forall i :: 0 <= i < |hs'| ==> hs'[i] == hs[i];
      AggCounts(hs');
      var h := hs[|hs| - 1];
      assert ValidHit(h);
      assert AggOf(hs) == Add(AggOf(hs'), h);
      forall k | k in AggOf(hs)
        ensures AggOf(hs)[k].total == CountKey(hs, k) && AggOf(hs)[k].nConfidence == CountConf(hs, k)
      {
        if k != h.key {
          assert AggOf(hs)[k] == AggOf(hs')[k];
        }
      }
    }
  }

  /** The counts of the listed keys, added up. */
  function SumCount(hs: seq<Hit>, ks: seq<StaleKey>): nat
    decreases |ks|
  {
    if ks == [] then 0 else SumCount(hs, ks[..|ks| - 1]) + CountKey(hs, ks[|ks| - 1])
  }

  /** Appending one hit adds one to the count of each listed copy of its key. */
  lemma {:induction false} SumCountStep(hs: seq<Hit>, h: Hit, ks: seq<StaleKey>)
    requires Distinct(ks)
    ensures SumCount(hs + [h], ks) == SumCount(hs, ks) + (if h.key in ks then 1 else 0)
    decreases |ks|
  {
    assert (hs + [h])[..|hs + [h]| - 1] == hs;
    if ks != [] {
      var ks' := ks[..|ks| - 1];
      assert Distinct(ks') by {
        forall i, j | 0 <= i < j < |ks'| ensures ks'[i] != ks'[j] {
          assert ks'[i] == ks[i] && ks'[j] == ks[j];
        }
      }
      SumCountStep(hs, h, ks');
      assert forall x :: x in ks <==> x in ks' || x == ks[|ks| - 1];
      if h.key == ks[|ks| - 1] {
        forall i | 0 <= i < |ks'| ensures ks'[i] != h.key {
          assert ks'[i] == ks[i];
        }
      }
    }
  }

  /** The counts of a list of distinct keys holding every hit's key sum to the number of hits. */
  lemma {:induction false} SumCountAll(hs: seq<Hit>, ks: seq<StaleKey>)
    requires Distinct(ks)
    requires forall i :: 0 <= i < |hs| ==> hs[i].key in ks
    ensures SumCount(hs, ks) == |hs|
    decreases |hs|
  {
    if hs == [] {
      SumCountNone(ks);
    } else {
      var hs' := hs[..|hs| - 1];
      assert forall i :: 0 <= i < |hs'| ==> hs'[i] == hs[i];
      SumCountAll(hs', ks);
      assert hs == hs' + [hs[|hs| - 1]];
      SumCountStep(hs', hs[|hs| - 1], ks);
    }
  }

  lemma {:induction false} SumCountNone(ks: seq<StaleKey>)
    ensures SumCount([], ks) == 0
    decreases |ks|
  {
    if ks != [] {
      SumCountNone(ks[..|ks| - 1]);
    }
  }

  lemma {:induction false} SumTotalsOfRows(hs: seq<Hit>, ks: seq<StaleKey>, rows: seq<StalenessRow>)
    requires |rows| == |ks| && forall i :: 0 <= i < |ks| ==> rows[i].total == CountKey(hs, ks[i])
    ensures SumTotals(rows) == SumCount(hs, ks)
    decreases |ks|
  {
    if ks != [] {
      var ks', rows' := ks[..|ks| - 1], rows[..|rows| - 1];
      assert forall i :: 0 <= i < |ks'| ==> ks'[i] == ks[i] && rows'[i] == rows[i];
      SumTotalsOfRows(hs, ks', rows');
    }
  }

  lemma StrictDistinct(ks: seq<StaleKey>)
    requires StrictlySortedBy(ks, KeyOf)
    ensures Distinct(ks)
  {
    forall i, j | 0 <= i < j < |ks| ensures ks[i] != ks[j] {
      if ks[i] == ks[j] {
        KeyLtIrreflexive(KeyOf(ks[i]));
      }
    }
  }

  // ---------------------------------------------------------------- facts about the triples

  /** Every hit of a record names one of its markets, one of that market's codes, and the band of the record's age. */
  lemma {:induction false} CodeHitsFacts(market: string, codes: seq<string>, band: string, correct: nat, neutral: nat,
                                         confidence: Option<real>)
    ensures |CodeHits(market, codes, band, correct, neutral, confidence)| == |codes|
    ensures forall i :: 0 <= i < |codes| ==>
              CodeHits(market, codes, band, correct, neutral, confidence)[i] ==
              Hit(StaleKey(market, codes[i], band), correct, neutral, confidence)
    decreases |codes|
  {
    if codes != [] {
      var codes' := codes[..|codes| - 1];
      CodeHitsFacts(market, codes', band, correct, neutral, confidence);
      assert forall i :: 0 <= i < |codes'| ==> codes'[i] == codes[i];
    }
  }

  /** Each (market, code) pair of a record gives one hit, and its outcome decides correct and neutral. */
  predicate HitOfRecord(h: Hit, rec: EvaluationRecord, band: string) {
    h.key.market in Markets && h.key.reasonCode in CodesOf(rec, h.key.market) && h.key.ageBand == band &&
    h.correct == Correct(OutcomeOf(rec, h.key.market)) && h.neutral == Neutral(OutcomeOf(rec, h.key.market)) &&
    h.confidence == ConfidenceOf(rec, h.key.market)
  }

  lemma {:induction false} MarketsHitsFacts(rec: EvaluationRecord, band: string, markets: seq<string>)
    requires forall i :: 0 <= i < |markets| ==> markets[i] in Markets
    ensures |MarketsHits(rec, band, markets)| == SumCodes(rec, markets)
    ensures forall i :: 0 <= i < |MarketsHits(rec, band, markets)| ==> HitOfRecord(MarketsHits(rec, band, markets)[i], rec, band)
    decreases |markets|
  {
    if markets != [] {
      var ms := markets[..|markets| - 1];
      var m := markets[|markets| - 1];
      assert forall i :: 0 <= i < |ms| ==> ms[i] == markets[i];
      MarketsHitsFacts(rec, band, ms);
      var outcome := OutcomeOf(rec, m);
      CodeHitsFacts(m, CodesOf(rec, m), band, Correct(outcome), Neutral(outcome), ConfidenceOf(rec, m));
      var a, b := MarketsHits(rec, band, ms), MarketHits(rec, m, band);
      forall i | 0 <= i < |a + b| ensures HitOfRecord((a + b)[i], rec, band) {
        if i >= |a| {
          assert (a + b)[i] == b[i - |a|];
          assert CodesOf(rec, m)[i - |a|] in CodesOf(rec, m);
        } else {
          assert (a + b)[i] == a[i];
        }
      }
    }
  }

  /** How many reason codes the listed markets of a record carry. */
  function SumCodes(rec: EvaluationRecord, markets: seq<string>): nat
    decreases |markets|
  {
    if markets == [] then 0 else SumCodes(rec, markets[..|markets| - 1]) + |CodesOf(rec, markets[|markets| - 1])|
  }

  /** The number of (record, market, reason code) triples over the three markets. */
  function NumTriples(records: seq<EvaluationRecord>): nat
    decreases |records|
  {
    if records == [] then 0 else NumTriples(records[..|records| - 1]) + SumCodes(records[|records| - 1], Markets)
  }

  /**
   * Every hit comes from a triple of some record: its market, one of that market's codes,
   * and the band of that record's age, a missing age giving the band of 0 ms; there is one hit per triple.
   */
  lemma {:induction false} AllHitsFacts(records: seq<EvaluationRecord>, resolver: EvaluationRecord -> Option<int>,
                                        bandFor: int -> string)
    ensures |AllHits(records, resolver, bandFor)| == NumTriples(records)
    ensures forall i :: 0 <= i < |AllHits(records, resolver, bandFor)| ==>
              ValidHit(AllHits(records, resolver, bandFor)[i]) &&
              exists r :: r in records && HitOfRecord(AllHits(records, resolver, bandFor)[i], r, bandFor(AgeOf(resolver, r)))
    decreases |records|
  {
    if records != [] {
      var rs := records[..|records| - 1];
      var r := records[|records| - 1];
      AllHitsFacts(rs, resolver, bandFor);
      MarketsHitsFacts(r, bandFor(AgeOf(resolver, r)), Markets);
      var a, b := AllHits(rs, resolver, bandFor), RecordHits(r, resolver, bandFor);
      forall i | 0 <= i < |a + b|
        ensures ValidHit((a + b)[i]) && exists r' :: r' in records && HitOfRecord((a + b)[i], r', bandFor(AgeOf(resolver, r')))
      {
        if i >= |a| {
          assert (a + b)[i] == b[i - |a|];
          assert HitOfRecord(b[i - |a|], r, bandFor(AgeOf(resolver, r)));
        } else {
          assert (a + b)[i] == a[i];
          var r' :| r' in rs && HitOfRecord(a[i], r', bandFor(AgeOf(resolver, r')));
          assert r' in records;
        }
      }
    }
  }

  /** A record without an evidence age is counted in the band of 0 ms, the youngest. */
  lemma MissingAgeIsYoungest(rec: EvaluationRecord, resolver: EvaluationRecord -> Option<int>, bandFor: int -> string)
    requires resolver(rec).None?
    ensures forall i :: 0 <= i < |RecordHits(rec, resolver, bandFor)| ==> RecordHits(rec, resolver, bandFor)[i].key.ageBand == bandFor(0)
  {
    MarketsHitsFacts(rec, bandFor(AgeOf(resolver, rec)), Markets);
  }

  // ---------------------------------------------------------------- the report

  /** `computed_at_utc or now`: an empty string is replaced too. */
  function ComputedAt(computedAtUtc: Option<string>, now: string): (r: string)
    ensures r != "" || now == ""
    ensures computedAtUtc.Some? && computedAtUtc.value != "" ==> r == computedAtUtc.value
  {
    if computedAtUtc.Some? && computedAtUtc.value != "" then computedAtUtc.value else now
  }

  /**
   * `compute_staleness_metrics`: one row per key seen, in increasing (market, reason code,
   * age band); each row counts the triples of its key, correct and neutral never exceed the
   * total, the mean confidence is missing exactly when none of its triples had one, and the
   * totals add up to the number of triples.
   */
  method ComputeStalenessMetrics(records: seq<EvaluationRecord>, resolver: EvaluationRecord -> Option<int>,
                                 bandFor: int -> string, computedAtUtc: Option<string>, now: string, notes: string)
    returns (report: StalenessReport)
    ensures StrictlySortedBy(report.rows, RowKey)
    ensures forall k :: k in AggOf(AllHits(records, resolver, bandFor)) <==>
                        exists i :: 0 <= i < |report.rows| && StaleKeyOf(report.rows[i]) == k
    ensures forall i :: 0 <= i < |report.rows| ==>
              var row, hs := report.rows[i], AllHits(records, resolver, bandFor);
              row == RowOf(StaleKeyOf(row), AggOf(hs)[StaleKeyOf(row)]) &&
              row.total == CountKey(hs, StaleKeyOf(row)) > 0 &&
              row.correct + row.neutral <= row.total &&
              (row.avgConfidence.None? <==> CountConf(hs, StaleKeyOf(row)) == 0)
    ensures SumTotals(report.rows) == NumTriples(records)
    ensures report.computedAtUtc == ComputedAt(computedAtUtc, now) && report.notes == notes
  {
    var stamp := if computedAtUtc.Some? && computedAtUtc.value != "" then computedAtUtc.value else now;
    var agg := AggregateRecords(records, resolver, bandFor);
    ghost var hs := AllHits(records, resolver, bandFor);
    AllHitsFacts(records, resolver, bandFor);
    report := BuildReport(hs, agg, stamp, notes);
  }

  /** The report built from the counters of the hits `hs`: its rows in key order. */
  method BuildReport(ghost hs: seq<Hit>, agg: Agg, stamp: string, notes: string) returns (report: StalenessReport)
    requires agg == AggOf(hs)
    requires forall i :: 0 <= i < |hs| ==> ValidHit(hs[i])
    ensures StrictlySortedBy(report.rows, RowKey)
    ensures forall k :: k in agg <==> exists i :: 0 <= i < |report.rows| && StaleKeyOf(report.rows[i]) == k
    ensures forall i :: 0 <= i < |report.rows| ==>
              report.rows[i] == RowOf(StaleKeyOf(report.rows[i]), agg[StaleKeyOf(report.rows[i])]) &&
              report.rows[i].total == CountKey(hs, StaleKeyOf(report.rows[i])) > 0 &&
              report.rows[i].correct + report.rows[i].neutral <= report.rows[i].total &&
              (report.rows[i].avgConfidence.None? <==> CountConf(hs, StaleKeyOf(report.rows[i])) == 0)
    ensures SumTotals(report.rows) == |hs|
    ensures report.computedAtUtc == stamp && report.notes == notes
  {
    var ks := SortedKeys(agg);
    assert forall i :: 0 <= i < |ks| ==> ks[i] in ks;
    var rows := BuildRows(agg, ks);
    report := StalenessReport(rows, stamp, notes);
    RowsFacts(hs, agg, ks, report.rows);
  }

  /** The rows built from the sorted keys of the counters of `hs` satisfy the report's contract. */
  lemma RowsFacts(hs: seq<Hit>, agg: Agg, ks: seq<StaleKey>, rows: seq<StalenessRow>)
    requires agg == AggOf(hs)
    requires forall i :: 0 <= i < |hs| ==> ValidHit(hs[i])
    requires StrictlySortedBy(ks, KeyOf) && forall k :: k in ks <==> k in agg
    requires |rows| == |ks| && forall i :: 0 <= i < |ks| ==> ks[i] in agg && rows[i] == RowOf(ks[i], agg[ks[i]])
    ensures StrictlySortedBy(rows, RowKey)
    ensures forall k :: k in agg <==> exists i :: 0 <= i < |rows| && StaleKeyOf(rows[i]) == k
    ensures forall i :: 0 <= i < |rows| ==>
              rows[i] == RowOf(StaleKeyOf(rows[i]), agg[StaleKeyOf(rows[i])]) &&
              rows[i].total == CountKey(hs, StaleKeyOf(rows[i])) > 0 &&
              rows[i].correct + rows[i].neutral <= rows[i].total &&
              (rows[i].avgConfidence.None? <==> CountConf(hs, StaleKeyOf(rows[i])) == 0)
    ensures SumTotals(rows) == |hs|
  {
    RowsSorted(agg, ks, rows);
    RowsKeys(agg, ks, rows);
    RowsCounts(hs, agg, ks, rows);
    RowsSum(hs, agg, ks, rows);
  }

  lemma RowsSorted(agg: Agg, ks: seq<StaleKey>, rows: seq<StalenessRow>)
    requires StrictlySortedBy(ks, KeyOf)
    requires |rows| == |ks| && forall i :: 0 <= i < |ks| ==> ks[i] in agg && rows[i] == RowOf(ks[i], agg[ks[i]])
    ensures StrictlySortedBy(rows, RowKey)
  {
    assert forall i :: 0 <= i < |rows| ==> RowKey(rows[i]) == KeyOf(ks[i]);
  }

  lemma RowsKeys(agg: Agg, ks: seq<StaleKey>, rows: seq<StalenessRow>)
    requires forall k :: k in ks <==> k in agg
    requires |rows| == |ks| && forall i :: 0 <= i < |ks| ==> ks[i] in agg && rows[i] == RowOf(ks[i], agg[ks[i]])
    ensures forall k :: k in agg <==> exists i :: 0 <= i < |rows| && StaleKeyOf(rows[i]) == k
  {
    assert forall i :: 0 <= i < |rows| ==> StaleKeyOf(rows[i]) == ks[i];
    forall k | k in agg ensures exists i :: 0 <= i < |rows| && StaleKeyOf(rows[i]) == k {
      var i :| 0 <= i < |ks| && ks[i] == k;
      assert StaleKeyOf(rows[i]) == k;
    }
  }

  lemma RowsCounts(hs: seq<Hit>, agg: Agg, ks: seq<StaleKey>, rows: seq<StalenessRow>)
    requires agg == AggOf(hs)
    requires forall i :: 0 <= i < |hs| ==> ValidHit(hs[i])
    requires |rows| == |ks| && forall i :: 0 <= i < |ks| ==> ks[i] in agg && rows[i] == RowOf(ks[i], agg[ks[i]])
    ensures forall i :: 0 <= i < |rows| ==>
              rows[i].total == CountKey(hs, StaleKeyOf(rows[i])) > 0 &&
              rows[i].correct + rows[i].neutral <= rows[i].total &&
              (rows[i].avgConfidence.None? <==> CountConf(hs, StaleKeyOf(rows[i])) == 0)
  {
    AggCounts(hs);
    forall i | 0 <= i < |rows|
      ensures rows[i].total == CountKey(hs, StaleKeyOf(rows[i])) > 0 &&
              rows[i].correct + rows[i].neutral <= rows[i].total &&
              (rows[i].avgConfidence.None? <==> CountConf(hs, StaleKeyOf(rows[i])) == 0)
    {
      assert StaleKeyOf(rows[i]) == ks[i];
    }
  }

  lemma RowsSum(hs: seq<Hit>, agg: Agg, ks: seq<StaleKey>, rows: seq<StalenessRow>)
    requires agg == AggOf(hs)
    requires forall i :: 0 <= i < |hs| ==> ValidHit(hs[i])
    requires StrictlySortedBy(ks, KeyOf) && forall k :: k in ks <==> k in agg
    requires |rows| == |ks| && forall i :: 0 <= i < |ks| ==> ks[i] in agg && rows[i] == RowOf(ks[i], agg[ks[i]])
    ensures SumTotals(rows) == |hs|
  {
    AggCounts(hs);
    StrictDistinct(ks);
    forall i | 0 <= i < |hs| ensures hs[i].key in ks {
      CountKeyHas(hs, i);
    }
    SumCountAll(hs, ks);
    SumTotalsOfRows(hs, ks, rows);
  }

  lemma {:induction false} CountKeyHas(hs: seq<Hit>, i: nat)
    requires i < |hs|
    ensures CountKey(hs, hs[i].key) > 0
    decreases |hs|
  {
    if i < |hs| - 1 {
      var hs' := hs[..|hs| - 1];
      assert hs'[i] == hs[i];
      CountKeyHas(hs', i);
    }
  }
}
