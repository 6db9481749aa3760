/**
 * The injury shadow features of a list of resolution records: how many
 * players are out, questionable, suspended or unknown, an uncertainty index
 * weighting each record by its status and by how unsure it is, and the few
 * records most worth a look.
 */
module InjuryFeatures {
  import opened Wrappers
  import opened Text
  import opened Sorting
  import opened Rounding

  /**
   * A resolution record as the features read it; a missing key is `None`.
   * The id is already its `str`; a missing confidence reads as 0.0.
   */
  datatype Record = Record(
    resolvedStatus: Option<string>,
    resolutionConfidence: Option<real>,
    playerRef: Option<string>,
    resolutionId: Option<string>)

  /** `DEFAULT_WEIGHT`: the weight of a status the table does not list. */
  const DefaultWeight: real := 0.25

  /** `STATUS_WEIGHT.get(s, DEFAULT_WEIGHT)` on a status already stripped and upper-cased. */
  function TableWeight(s: string): real {
    if s == "OUT" || s == "SUSPENDED" then 1.0
    else if s == "QUESTIONABLE" then 0.5
    else if s == "UNKNOWN" then 0.25
    else if s == "AVAILABLE" then 0.0
    else DefaultWeight
  }

  /** `_weight`. */
  function Weight(status: string): real {
    TableWeight(Upper(Strip(status)))
  }

  /** Every weight is one of 0, 0.25, 0.5 and 1; a status outside the table weighs 0.25. */
  lemma WeightValues(status: string)
    ensures var w := Weight(status);
            var s := Upper(Strip(status));
            0.0 <= w <= 1.0 &&
            (s !in {"OUT", "SUSPENDED", "QUESTIONABLE", "UNKNOWN", "AVAILABLE"} ==> w == DefaultWeight) &&
            (w == 1.0 <==> s == "OUT" || s == "SUSPENDED") &&
            (w == 0.0 <==> s == "AVAILABLE")
  {
  }

  /** `(resolved_status or "").strip().upper()`. */
  function StatusOf(r: Record): string {
    Upper(Strip(r.resolvedStatus.GetOr("")))
  }

  /** `float(resolution_confidence)`, with 0.0 for a missing one. */
  function ConfidenceOf(r: Record): real {
    r.resolutionConfidence.GetOr(0.0)
  }

  /** `max(0.0, min(1.0, conf))`. */
  function Clamp(conf: real): (c: real)
    ensures 0.0 <= c <= 1.0
    ensures 0.0 <= conf <= 1.0 ==> c == conf
  {
    if conf > 1.0 then 1.0 else if conf < 0.0 then 0.0 else conf
  }

  /** The counter a status goes to; AVAILABLE and any unlisted status go to none. */
  datatype Bucket = OutBucket | QuestionableBucket | SuspendedBucket | UnknownBucket | NoBucket

  function BucketOf(status: string): Bucket {
    if status == "OUT" then OutBucket
    else if status == "QUESTIONABLE" then QuestionableBucket
    else if status == "SUSPENDED" then SuspendedBucket
    else if status == "UNKNOWN" || status == "" then UnknownBucket
    else NoBucket
  }

  /** Each bucket takes exactly its own statuses; AVAILABLE is counted nowhere. */
  lemma BucketStatuses(status: string)
    ensures (BucketOf(status) == OutBucket <==> status == "OUT")
    ensures (BucketOf(status) == QuestionableBucket <==> status == "QUESTIONABLE")
    ensures (BucketOf(status) == SuspendedBucket <==> status == "SUSPENDED")
    ensures (BucketOf(status) == UnknownBucket <==> status == "UNKNOWN" || status == "")
    ensures status == "AVAILABLE" ==> BucketOf(status) == NoBucket
  {
  }

  /** One if `r`'s status goes to bucket `b`, else zero. */
  function Hit(r: Record, b: Bucket): nat {
    if BucketOf(StatusOf(r)) == b then 1 else 0
  }

  /** The number of records whose status goes to bucket `b`. */
  function CountIn(rs: seq<Record>, b: Bucket): nat {
    if rs == [] then 0
    else CountIn(rs[..|rs| - 1], b) + Hit(rs[|rs| - 1], b)
  }

  /** The weight of a record's status. */
  function WeightOf(r: Record): real {
    TableWeight(StatusOf(r))
  }

  /** `_weight` strips and upper-cases again a status that already is: that changes nothing. */
  lemma WeightOfRecord(r: Record)
    ensures Weight(StatusOf(r)) == WeightOf(r)
  {
    NormalizeIdempotent(r.resolvedStatus.GetOr(""));
  }

  /** `w * (1.0 - conf)`: a weight discounted by how sure the record is. */
  function Contribution(w: real, conf: real): real {
    w * (1.0 - conf)
  }

  /** What one record adds to the uncertainty: its weight times one minus its clamped confidence. */
  function UncertaintyOf(r: Record): real {
    Contribution(WeightOf(r), Clamp(ConfidenceOf(r)))
  }

  /** The uncertainty sum, before rounding. */
  function Uncertainty(rs: seq<Record>): real {
    if rs == [] then 0.0 else Uncertainty(rs[..|rs| - 1]) + UncertaintyOf(rs[|rs| - 1])
  }

  /** `_key_item`: weight descending, then raw confidence ascending, then player, then id. */
  function ItemKey(r: Record): Key {
    [Num(-WeightOf(r)), Num(ConfidenceOf(r)), Str(r.playerRef.GetOr("")), Str(r.resolutionId.GetOr(""))]
  }

  /** One entry of `key_items`. */
  datatype KeyItem = KeyItem(playerRef: string, resolvedStatus: string, resolutionConfidence: real, resolutionId: string)

  /** The key item of a record: its status stripped but not upper-cased, `UNKNOWN` when blank; its raw confidence rounded to four places. */
  function ItemOf(r: Record): KeyItem {
    var stripped := Strip(r.resolvedStatus.GetOr(""));
    KeyItem(r.playerRef.GetOr(""), if |stripped| == 0 then "UNKNOWN" else stripped, Round4(ConfidenceOf(r)), r.resolutionId.GetOr(""))
  }

  /** A key item never has a blank status, and reports the record's raw confidence to within half of the fourth place. */
  lemma KeyItemFields(r: Record)
    ensures var k := ItemOf(r);
            |k.resolvedStatus| > 0 && k.playerRef == r.playerRef.GetOr("") && k.resolutionId == r.resolutionId.GetOr("") &&
            ConfidenceOf(r) - 0.00005 <= k.resolutionConfidence <= ConfidenceOf(r) + 0.00005
  {
  }

  /** Python's `s[:k]`: a negative `k` counts from the end. */
  function Prefix<T>(s: seq<T>, k: int): (r: seq<T>)
    ensures k >= 0 ==> r == s[..if k < |s| then k else |s|]
    ensures k < 0 ==> r == s[..if |s| + k < 0 then 0 else |s| + k]
  {
    if k >= 0 then s[..if k < |s| then k else |s|]
    else s[..if |s| + k < 0 then 0 else |s| + k]
  }

  /** The records ranked by `_key_item`, cut to `top_k`. */
  function TopRecords(rs: seq<Record>, topK: int): seq<Record> {
    Prefix(SortBy(rs, ItemKey), topK)
  }

  datatype Features = Features(
    outCount: nat,
    questionableCount: nat,
    suspendedCount: nat,
    unknownCount: nat,
    uncertaintyIndex: real,
    keyItems: seq<KeyItem>)

  /** `w = _weight(status)` on the status of `r`. */
  method StatusWeight(r: Record, status: string) returns (w: real)
    requires status == StatusOf(r)
    ensures w == WeightOf(r)
  {
    w := Weight(status);
    WeightOfRecord(r);
  }

  /** The `if`/`elif` chain that picks the counter a normalised status goes to. */
  method Classify(status: string) returns (b: Bucket)
    ensures b == BucketOf(status)
  {
    if status == "OUT" {
      b := OutBucket;
    } else if status == "QUESTIONABLE" {
      b := QuestionableBucket;
    } else if status == "SUSPENDED" {
      b := SuspendedBucket;
    } else if status == "UNKNOWN" || status == "" {
      b := UnknownBucket;
    } else {
      b := NoBucket;
    }
  }

  /** The body of the counting loop: one record's counter and its share of the uncertainty. */
  method Tally(r: Record, outCount: nat, questionable: nat, suspended: nat, unknown: nat, sum: real)
    returns (outCount': nat, questionable': nat, suspended': nat, unknown': nat, sum': real)
    ensures outCount' == outCount + Hit(r, OutBucket) && questionable' == questionable + Hit(r, QuestionableBucket)
    ensures suspended' == suspended + Hit(r, SuspendedBucket) && unknown' == unknown + Hit(r, UnknownBucket)
    ensures sum' == sum + UncertaintyOf(r)
  {
    outCount', questionable', suspended', unknown' := outCount, questionable, suspended, unknown;
    var status := StatusOf(r);
    var conf := Clamp(ConfidenceOf(r));
    var w := StatusWeight(r, status);
    sum' := sum + Contribution(w, conf);
    var b := Classify(status);
    match b
    case OutBucket => outCount' := outCount + 1;
    case QuestionableBucket => questionable' := questionable + 1;
    case SuspendedBucket => suspended' := suspended + 1;
    case UnknownBucket => unknown' := unknown + 1;
    case NoBucket =>
  }

  /** The counting loop of `compute_injury_shadow_features`. */
  method Accumulate(rs: seq<Record>) returns (outCount: nat, questionable: nat, suspended: nat, unknown: nat, sum: real)
    ensures outCount == CountIn(rs, OutBucket) && questionable == CountIn(rs, QuestionableBucket)
    ensures suspended == CountIn(rs, SuspendedBucket) && unknown == CountIn(rs, UnknownBucket)
    ensures sum == Uncertainty(rs)
  {
    outCount, questionable, suspended, unknown, sum := 0, 0, 0, 0, 0.0;
    for j := 0 to |rs|
      invariant outCount == CountIn(rs[..j], OutBucket) && questionable == CountIn(rs[..j], QuestionableBucket)
      invariant suspended == CountIn(rs[..j], SuspendedBucket) && unknown == CountIn(rs[..j], UnknownBucket)
      invariant sum == Uncertainty(rs[..j])
    {
      AccumulateStep(rs, j);
      outCount, questionable, suspended, unknown, sum := Tally(rs[j], outCount, questionable, suspended, unknown, sum);
    }
    assert rs[..|rs|] == rs;
  }

  lemma AccumulateStep(rs: seq<Record>, j: nat)
    requires j < |rs|
    ensures forall b :: CountIn(rs[..j + 1], b) == CountIn(rs[..j], b) + Hit(rs[j], b)
    ensures Uncertainty(rs[..j + 1]) == Uncertainty(rs[..j]) + UncertaintyOf(rs[j])
  {
    assert rs[..j + 1][..j] == rs[..j];
  }

  /** The key-items loop: one item per ranked record, in rank order. */
  method BuildKeyItems(top: seq<Record>) returns (items: seq<KeyItem>)
    ensures |items| == |top|
    ensures forall i :: 0 <= i < |top| ==> items[i] == ItemOf(top[i])
  {
    items := [];
    for j := 0 to |top|
      invariant items == MapSeq(top[..j], ItemOf)
    {
      assert top[..j + 1] == top[..j] + [top[j]];
      MapAppend(top[..j], [top[j]], ItemOf);
      items := items + [ItemOf(top[j])];
    }
    assert top[..|top|] == top;
  }

  /** `compute_injury_shadow_features`: the uncertainty index is the sum rounded to four places. */
  method ComputeFeatures(rs: seq<Record>, topK: int) returns (f: Features)
    ensures f.outCount == CountIn(rs, OutBucket) && f.questionableCount == CountIn(rs, QuestionableBucket)
    ensures f.suspendedCount == CountIn(rs, SuspendedBucket) && f.unknownCount == CountIn(rs, UnknownBucket)
    ensures f.uncertaintyIndex == Round4(Uncertainty(rs))
    ensures |f.keyItems| == |TopRecords(rs, topK)|
    ensures forall i :: 0 <= i < |f.keyItems| ==> f.keyItems[i] == ItemOf(TopRecords(rs, topK)[i])
  {
    var outCount, questionable, suspended, unknown, sum := Accumulate(rs);
    var sorted := SortBy(rs, ItemKey);
    var items := BuildKeyItems(Prefix(sorted, topK));
    f := Features(outCount, questionable, suspended, unknown, Round4(sum), items);
  }

  // ---------------------------------------------------------------- properties

  /** The four counters and the uncounted records add up to the number of records. */
  lemma {:induction false} CountsPartition(rs: seq<Record>)
    ensures CountIn(rs, OutBucket) + CountIn(rs, QuestionableBucket) + CountIn(rs, SuspendedBucket) +
            CountIn(rs, UnknownBucket) + CountIn(rs, NoBucket) == |rs|
    decreases |rs|
  {
    if rs != [] {
      CountsPartition(rs[..|rs| - 1]);
    }
  }

  /** A table weight is one of 0, 0.25, 0.5 and 1. */
  lemma TableWeightValues(s: string)
    ensures var w := TableWeight(s); w == 0.0 || w == 0.25 || w == 0.5 || w == 1.0
  {
  }

  /** A table weight discounted by a confidence in [0, 1] stays in [0, the weight]. */
  lemma ContributionBounds(w: real, conf: real)
    requires w == 0.0 || w == 0.25 || w == 0.5 || w == 1.0
    requires 0.0 <= conf <= 1.0
    ensures 0.0 <= Contribution(w, conf) <= w
  {
    if w == 0.0 {
    } else if w == 0.25 {
    } else if w == 0.5 {
    } else {
    }
  }

  lemma UncertaintyOfBounds(r: Record)
    ensures 0.0 <= UncertaintyOf(r) <= 1.0
  {
    TableWeightValues(StatusOf(r));
    ContributionBounds(WeightOf(r), Clamp(ConfidenceOf(r)));
  }

  /** Confidences are clamped first, so the uncertainty is never negative, and it is at most one per record. */
  lemma {:induction false} UncertaintyBounds(rs: seq<Record>)
    ensures 0.0 <= Uncertainty(rs) <= |rs| as real
    decreases |rs|
  {
    if rs != [] {
      UncertaintyBounds(rs[..|rs| - 1]);
      UncertaintyOfBounds(rs[|rs| - 1]);
    }
  }

  /** The reported index, rounded to four places, keeps those bounds: in [0, number of records]. */
  lemma UncertaintyIndexBounds(rs: seq<Record>)
    ensures 0.0 <= Round4(Uncertainty(rs)) <= |rs| as real
  {
    UncertaintyBounds(rs);
    Round4Between(Uncertainty(rs), 0, |rs|);
  }

  /** For a non-negative `top_k` there are `min(top_k, n)` key items; a negative one drops that many from the end. */
  lemma TopRecordsLength(rs: seq<Record>, topK: int)
    ensures topK >= 0 ==> |TopRecords(rs, topK)| == if topK < |rs| then topK else |rs|
    ensures topK < 0 ==> |TopRecords(rs, topK)| == if |rs| + topK < 0 then 0 else |rs| + topK
  {
  }

  /** The key items come from the best ranked records, in rank order. */
  lemma TopRecordsRanked(rs: seq<Record>, topK: int)
    ensures var top := TopRecords(rs, topK);
            var sorted := SortBy(rs, ItemKey);
            top == sorted[..|top|] && SortedBy(top, ItemKey) && multiset(top) <= multiset(rs) &&
            forall i, j :: 0 <= i < |top| <= j < |rs| ==> KeyLe(ItemKey(top[i]), ItemKey(sorted[j]))
  {
    var sorted := SortBy(rs, ItemKey);
    var top := TopRecords(rs, topK);
    SortBySorted(rs, ItemKey);
    SortedPrefix(sorted, |top|, ItemKey);
  }
}
