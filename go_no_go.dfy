/**
 * The Go/No-Go decision derived from a graduation result: GO when graduation
 * passed (with boundary warnings), NO_GO with the failed criteria otherwise.
 * Timestamps are epoch seconds; the clock is the parameter `now`.
 */
module GoNoGo {
  import opened Wrappers
  import opened Json

  /** A graduation criterion: its name, whether it passed, and its details. */
  datatype Criterion = Criterion(name: string, pass: bool, details: Dict)

  datatype GraduationResult = GraduationResult(overallPass: bool, criteria: seq<Criterion>)

  /** One entry of `failed_criteria`: the name and a copy of the details. */
  datatype FailedCriterion = FailedCriterion(name: string, details: Dict)

  /**
   * A boundary warning `"<name> at minimum required <noun> (<min_required>)"`;
   * the value is kept as it is rather than rendered with Python's `str`.
   */
  datatype Warning = Warning(name: string, noun: string, minRequired: Json)

  datatype Verdict = Go | NoGo

  datatype Decision = Decision(
    schemaVersion: int,
    decision: Verdict,
    decisionTimeUtc: int,
    graduationRef: Option<string>,
    failedCriteria: seq<FailedCriterion>,
    warnings: seq<Warning>)

  /** `_failed_criteria_list`: the failing criteria, in their order. */
  function FailedCriteria(cs: seq<Criterion>): seq<FailedCriterion> {
    if cs == [] then []
    else (if cs[0].pass then [] else [FailedCriterion(cs[0].name, cs[0].details)]) + FailedCriteria(cs[1..])
  }

  /** The count fields the warning chain looks at, in its order, with the word each message uses. */
  const BoundaryFields: seq<(string, string)> := [
    ("fixtures_with_both_deltas", "fixtures"),
    ("payload_match_rate", "rate"),
    ("reason_codes_with_support", "count"),
    ("reason_codes_with_fit", "count"),
    ("decisions_count", "decisions"),
    ("rows_count", "rows")]

  /** The first of `fields` present in `d`. */
  function FirstPresent(d: Dict, fields: seq<(string, string)>): (r: Option<(string, string)>)
    ensures r.Some? ==> r.value in fields && r.value.0 in d
    ensures r.None? ==> forall i :: 0 <= i < |fields| ==> fields[i].0 !in d
  {
    if fields == [] then None
    else if fields[0].0 in d then Some(fields[0])
    else FirstPresent(d, fields[1..])
  }

  /** The branch of the `if`/`elif` chain a details dict takes; none without `min_required`. */
  function BoundaryField(d: Dict): Option<(string, string)> {
    if "min_required" in d then FirstPresent(d, BoundaryFields) else None
  }

  /** The warning one criterion contributes: only a passed one whose count equals its minimum. */
  function WarningOf(c: Criterion): Option<Warning> {
    if !c.pass then None
    else match BoundaryField(c.details)
      case None => None
      case Some(f) =>
        if PyEq(c.details[f.0], c.details["min_required"])
        then Some(Warning(c.name, f.1, c.details["min_required"]))
        else None
  }

  /** `_warnings_from_criteria`. */
  function Warnings(cs: seq<Criterion>): seq<Warning> {
    if cs == [] then []
    else (match WarningOf(cs[0]) case Some(w) => [w] case None => []) + Warnings(cs[1..])
  }

  /** `compute_go_no_go`; a missing decision time is `now`. */
  function ComputeGoNoGo(g: GraduationResult, ref: Option<string>, decisionTimeUtc: Option<int>, now: int): (r: Decision)
    ensures r.schemaVersion == 1
    ensures r.decision == Go <==> g.overallPass
    ensures r.decision == Go ==> r.failedCriteria == [] && r.warnings == Warnings(g.criteria)
    ensures r.decision == NoGo ==> r.failedCriteria == FailedCriteria(g.criteria) && r.warnings == []
    ensures r.graduationRef == ref && r.decisionTimeUtc == decisionTimeUtc.GetOr(now)
  {
    var t := decisionTimeUtc.GetOr(now);
    if g.overallPass then Decision(1, Go, t, ref, [], Warnings(g.criteria))
    else Decision(1, NoGo, t, ref, FailedCriteria(g.criteria), [])
  }

  // ---------------------------------------------------------------- properties

  /** The failed list of a concatenation is the concatenation of the failed lists: order is kept. */
  lemma {:induction false} FailedCriteriaAppend(cs: seq<Criterion>, ds: seq<Criterion>)
    ensures FailedCriteria(cs + ds) == FailedCriteria(cs) + FailedCriteria(ds)
    decreases |cs|
  {
    if cs == [] {
      assert cs + ds == ds;
    } else {
      assert (cs + ds)[1..] == cs[1..] + ds;
      FailedCriteriaAppend(cs[1..], ds);
    }
  }

  /** Exactly the criteria that did not pass appear, each with its name and details. */
  lemma {:induction false} FailedCriteriaMembers(cs: seq<Criterion>, f: FailedCriterion)
    ensures f in FailedCriteria(cs) <==> exists c :: c in cs && !c.pass && f == FailedCriterion(c.name, c.details)
    decreases |cs|
  {
    if cs != [] {
      FailedCriteriaMembers(cs[1..], f);
      if exists c :: c in cs && !c.pass && f == FailedCriterion(c.name, c.details) {
        var c :| c in cs && !c.pass && f == FailedCriterion(c.name, c.details);
        if c != cs[0] {
          assert c in cs[1..];
        }
      }
    }
  }

  /** The failed list is empty exactly when every criterion passed. */
  lemma {:induction false} FailedCriteriaEmpty(cs: seq<Criterion>)
    ensures FailedCriteria(cs) == [] <==> forall i :: 0 <= i < |cs| ==> cs[i].pass
    decreases |cs|
  {
    if cs != [] {
      FailedCriteriaEmpty(cs[1..]);
      assert forall i :: 1 <= i < |cs| ==> cs[i] == cs[1..][i - 1];
    }
  }

  /** A warning names a passed criterion whose boundary count equals its `min_required`, and quotes that minimum. */
  lemma WarningOfFacts(c: Criterion)
    ensures WarningOf(c).Some? <==>
            c.pass && BoundaryField(c.details).Some? &&
            PyEq(c.details[BoundaryField(c.details).value.0], c.details["min_required"])
    ensures WarningOf(c).Some? ==>
            var w := WarningOf(c).value;
            w.name == c.name && "min_required" in c.details && w.minRequired == c.details["min_required"] &&
            (BoundaryField(c.details).value.0, w.noun) in BoundaryFields
  {
    if BoundaryField(c.details).Some? {
      var f := BoundaryField(c.details).value;
      assert f in BoundaryFields;
    }
  }

  /** The chain is an `elif`: with the fixtures count present, only that count is compared, whatever else the details hold. */
  lemma FixturesFieldDecides(c: Criterion)
    requires c.pass && "min_required" in c.details && "fixtures_with_both_deltas" in c.details
    ensures WarningOf(c).Some? <==> PyEq(c.details["fixtures_with_both_deltas"], c.details["min_required"])
    ensures WarningOf(c).Some? ==> WarningOf(c).value.noun == "fixtures"
  {
    assert BoundaryFields[0] == ("fixtures_with_both_deltas", "fixtures");
  }

  /** Warnings follow the criteria: one per criterion at its boundary, in order, and never more than the criteria. */
  lemma {:induction false} WarningsFacts(cs: seq<Criterion>)
    ensures |Warnings(cs)| <= |cs|
    ensures forall w :: w in Warnings(cs) ==> exists c :: c in cs && WarningOf(c) == Some(w)
    ensures forall c :: c in cs && WarningOf(c).Some? ==> WarningOf(c).value in Warnings(cs)
    decreases |cs|
  {
    if cs != [] {
      WarningsFacts(cs[1..]);
      forall w | w in Warnings(cs) ensures exists c :: c in cs && WarningOf(c) == Some(w) {
        if w in Warnings(cs[1..]) {
          var c :| c in cs[1..] && WarningOf(c) == Some(w);
          assert c in cs;
        } else {
          assert WarningOf(cs[0]) == Some(w);
        }
      }
      forall c | c in cs && WarningOf(c).Some? ensures WarningOf(c).value in Warnings(cs) {
        if c != cs[0] {
          assert c in cs[1..];
        }
      }
    }
  }

  /** A failed criterion never yields a warning, so an all-failing result has none even when GO. */
  lemma {:induction false} FailedGiveNoWarnings(cs: seq<Criterion>)
    requires forall i :: 0 <= i < |cs| ==> !cs[i].pass
    ensures Warnings(cs) == []
    decreases |cs|
  {
    if cs != [] {
      assert forall i :: 0 <= i < |cs[1..]| ==> cs[1..][i] == cs[i + 1];
      FailedGiveNoWarnings(cs[1..]);
    }
  }
}
