/**
 * The injury/news resolver: claims are filtered by confidence and age,
 * grouped per (team, player), ranked by score inside each group, and each
 * group is resolved into one canonical status with its supporting and
 * conflicting claim ids.
 */
module InjuryResolver {
  import opened Wrappers
  import opened Text
  import opened Sorting

  /** `RESOLVED_STATUS_VALUES`. */
  function ResolvedStatusValues(): set<string> {
    {"AVAILABLE", "QUESTIONABLE", "OUT", "SUSPENDED", "UNKNOWN"}
  }

  /** `DEFAULT_SOURCE_WEIGHT`: the weight of a source the policy does not list. */
  const DefaultSourceWeight: real := 0.1

  /** The player part of the group key of a claim without a player. */
  const UnknownPlayer: string := "__UNKNOWN_PLAYER__"

  /** `_ClaimRow`; times are seconds since the epoch. */
  datatype ClaimRow = ClaimRow(
    claimId: int,
    teamRef: string,
    playerRef: Option<string>,
    claimType: string,
    status: string,
    confidence: real,
    adapterKey: string,
    recordedAt: real,
    publishedAt: Option<real>)

  /**
   * The keys of the policy JSON the resolver reads, with their JSON values
   * already numbers or strings; an absent key is `None`, and an absent or
   * empty object is the empty map (`policy.get(...) or {}`).
   */
  datatype Policy = Policy(
    policyVersion: Option<string>,
    conflictEpsilon: Option<real>,
    conflictBehavior: Option<string>,
    minConfidenceToConsider: Option<real>,
    sourcePriority: map<string, real>,
    maxAgeHoursByClaimType: map<string, real>,
    recencyHalfLifeHours: Option<real>)

  /**
   * What a resolver run depends on besides the claims: the policy, the
   * current time, and `x => 0.5 ** x` as the platform computes it.
   */
  datatype Context = Context(policy: Policy, now: real, halfPower: real -> real)

  /** `_claim_status_to_resolved`. */
  function ClaimStatusToResolved(status: string): string {
    var m := map["OUT" := "OUT", "DOUBTFUL" := "QUESTIONABLE", "FIT" := "AVAILABLE", "SUSPENDED" := "SUSPENDED", "UNKNOWN" := "UNKNOWN"];
    var u := Upper(status);
    if u in m then m[u] else "UNKNOWN"
  }

  /** The status map: every claim status lands on a resolved status, and only DOUBTFUL and FIT are renamed. */
  lemma ClaimStatusMapping(status: string)
    ensures var r := ClaimStatusToResolved(status);
            r in ResolvedStatusValues() &&
            (Upper(status) in {"OUT", "SUSPENDED", "UNKNOWN"} ==> r == Upper(status)) &&
            ((r == "QUESTIONABLE") <==> Upper(status) == "DOUBTFUL") &&
            ((r == "AVAILABLE") <==> Upper(status) == "FIT") &&
            (Upper(status) !in {"OUT", "DOUBTFUL", "FIT", "SUSPENDED", "UNKNOWN"} ==> r == "UNKNOWN")
  {
  }

  function Abs(x: real): real { if x < 0.0 then -x else x }

  function Lookup(m: map<string, real>, k: string, default: real): real {
    if k in m then m[k] else default
  }

  // ---------------------------------------------------------------- policy values

  /** `_max_age_hours`. */
  function MaxAgeHours(policy: Policy, claimType: string): real {
    Lookup(policy.maxAgeHoursByClaimType, claimType, 168.0)
  }

  /** `row.published_at or row.recorded_at`. */
  function Timestamp(row: ClaimRow): real {
    match row.publishedAt
    case Some(t) => t
    case None => row.recordedAt
  }

  function AgeHours(row: ClaimRow, now: real): real {
    (now - Timestamp(row)) / 3600.0
  }

  /** `_is_stale`: older than the maximum age of its claim type. */
  predicate IsStale(row: ClaimRow, ctx: Context): (b: bool)
    ensures b <==> ctx.now - Timestamp(row) > 3600.0 * MaxAgeHours(ctx.policy, row.claimType)
    ensures row.claimType !in ctx.policy.maxAgeHoursByClaimType ==> (b <==> ctx.now - Timestamp(row) > 168.0 * 3600.0)
  {
    AgeHours(row, ctx.now) > MaxAgeHours(ctx.policy, row.claimType)
  }

  /** Staleness only grows with time: a claim stale now is stale at any later instant. */
  lemma StaleStaysStale(row: ClaimRow, ctx: Context, later: real)
    requires IsStale(row, ctx) && ctx.now <= later
    ensures IsStale(row, ctx.(now := later))
  {
    assert IsStale(row, ctx.(now := later)) <==> later - Timestamp(row) > 3600.0 * MaxAgeHours(ctx.policy, row.claimType);
  }

  /** `_score_claim`: source weight times recency weight times confidence. */
  function ScoreClaim(row: ClaimRow, ctx: Context): (r: real)
    ensures row.confidence == 0.0 ==> r == 0.0
    ensures ctx.policy.recencyHalfLifeHours.GetOr(24.0) == 0.0 ==>
              r == Lookup(ctx.policy.sourcePriority, row.adapterKey, DefaultSourceWeight) * row.confidence
    ensures row.adapterKey !in ctx.policy.sourcePriority && ctx.policy.recencyHalfLifeHours.GetOr(24.0) == 0.0 ==>
              r == DefaultSourceWeight * row.confidence
  {
    var w := Lookup(ctx.policy.sourcePriority, row.adapterKey, DefaultSourceWeight);
    var halfLife := ctx.policy.recencyHalfLifeHours.GetOr(24.0);
    var recency := if halfLife != 0.0 then ctx.halfPower(AgeHours(row, ctx.now) / halfLife) else 1.0;
    w * recency * row.confidence
  }

  /** A set is empty or has an element. */
  lemma SetHasElement(s: set<real>)
    ensures s == {} || exists x :: x in s
  {
    if forall x :: x !in s {
      assert s == {};
    }
  }

  lemma {:induction false} MaxExists(s: set<real>)
    requires s != {}
    ensures exists r :: r in s && forall v :: v in s ==> v <= r
    decreases |s|
  {
    SetHasElement(s);
    var x :| x in s;
    if s == {x} {
      assert forall v :: v in s ==> v <= x;
    } else {
      var rest := s - {x};
      assert s == rest + {x};
      MaxExists(rest);
      var r :| r in rest && forall v :: v in rest ==> v <= r;
      var m := if x <= r then r else x;
      forall v | v in s ensures v <= m {
        if v != x { assert v in rest; }
      }
      assert m in s;
    }
  }

  /**
   * `max(source_priority.values(), default=1.0)`: the largest weight is one
   * of the weights and no weight exceeds it; 1.0 without weights.
   */
  function MaxWeight(policy: Policy): (r: real)
    ensures policy.sourcePriority == map[] ==> r == 1.0
    ensures policy.sourcePriority.Values == {} ==> r == 1.0
    ensures policy.sourcePriority.Values != {} ==>
              r in policy.sourcePriority.Values && forall v :: v in policy.sourcePriority.Values ==> v <= r
  {
    var vals := policy.sourcePriority.Values;
    if vals == {} then 1.0
    else
      MaxExists(vals);
      var r :| r in vals && forall v :: v in vals ==> v <= r;
      r
  }

  /**
   * `_normalize_confidence`: the score over the largest source weight,
   * clamped to [0, 1]; 0 without a positive weight, and the plain ratio in range.
   */
  function NormalizeConfidence(score: real, policy: Policy): (r: real)
    ensures 0.0 <= r <= 1.0
    ensures MaxWeight(policy) <= 0.0 ==> r == 0.0
    ensures MaxWeight(policy) > 0.0 && 0.0 <= score <= MaxWeight(policy) ==> r == score / MaxWeight(policy)
    ensures MaxWeight(policy) > 0.0 && score <= 0.0 ==> r == 0.0
    ensures MaxWeight(policy) > 0.0 && score >= MaxWeight(policy) ==> r == 1.0
  {
    var maxScore := MaxWeight(policy) * 1.0 * 1.0;
    if maxScore <= 0.0 then 0.0
    else
      var q := score / maxScore;
      DivBounds(score, maxScore, q);
      if 1.0 <= q then 1.0 else if q <= 0.0 then 0.0 else q
  }

  lemma DivBounds(x: real, y: real, q: real)
    requires y > 0.0 && q == x / y
    ensures x <= 0.0 ==> q <= 0.0
    ensures x >= y ==> q >= 1.0
    ensures 0.0 <= x <= y ==> 0.0 <= q <= 1.0
  {
  }

  /** The `conflict_epsilon` of the policy. */
  function ConflictEpsilon(policy: Policy): real {
    policy.conflictEpsilon.GetOr(0.05)
  }

  /** The `conflict_behavior` of the policy, upper-cased and stripped. */
  function ConflictBehavior(policy: Policy): string {
    var given := Upper(Strip(policy.conflictBehavior.GetOr("QUESTIONABLE")));
    if given in ResolvedStatusValues() then given else "QUESTIONABLE"
  }

  /** A conflict behaviour is always a resolved status; an unknown one falls back to `QUESTIONABLE`. */
  lemma ConflictBehaviorFallback(policy: Policy)
    ensures var r := ConflictBehavior(policy);
            var given := Upper(Strip(policy.conflictBehavior.GetOr("QUESTIONABLE")));
            r in ResolvedStatusValues() &&
            (given in ResolvedStatusValues() ==> r == given) &&
            (given !in ResolvedStatusValues() ==> r == "QUESTIONABLE")
  {
  }

  /** `str(claim_id)`. */
  function IdString(id: int): string {
    if id < 0 then "-" + NatToString(-id) else NatToString(id)
  }

  // ---------------------------------------------------------------- one group

  datatype Method = LatestWins | UnresolvedConflict

  /** The resolution dict `_resolve_group` returns (its `fixture_id` is always `None` here). */
  datatype Resolution = Resolution(
    teamRef: string,
    playerRef: Option<string>,
    resolvedStatus: string,
    resolutionConfidence: real,
    resolutionMethod: Method,
    winningClaimId: string,
    supportingClaimIds: seq<string>,
    conflictingClaimIds: seq<string>,
    policyVersion: string,
    createdAt: real)

  function Ids(cs: seq<ClaimRow>): (r: seq<string>)
    ensures |r| == |cs|
    ensures forall i :: 0 <= i < |cs| ==> r[i] == IdString(cs[i].claimId)
  {
    seq(|cs|, i requires 0 <= i < |cs| => IdString(cs[i].claimId))
  }

  /** A claim as `_resolve_group` compares it: its id string and its resolved status. */
  function Tagged(cs: seq<ClaimRow>): (r: seq<(string, string)>)
    ensures |r| == |cs|
    ensures forall i :: 0 <= i < |cs| ==> r[i] == (IdString(cs[i].claimId), ClaimStatusToResolved(cs[i].status))
  {
    seq(|cs|, i requires 0 <= i < |cs| => (IdString(cs[i].claimId), ClaimStatusToResolved(cs[i].status)))
  }

  /** The id strings of tagged claims. */
  function TagIds(ts: seq<(string, string)>): (r: seq<string>)
    ensures |r| == |ts|
    ensures forall i :: 0 <= i < |ts| ==> r[i] == ts[i].0
  {
    seq(|ts|, i requires 0 <= i < |ts| => ts[i].0)
  }

  /** The ids of the tagged claims whose status is (`same`) or is not (`!same`) `status`, in order. */
  function IdsByStatus(ts: seq<(string, string)>, status: string, same: bool): seq<string> {
    if ts == [] then []
    else
      var last := ts[|ts| - 1];
      var rest := IdsByStatus(ts[..|ts| - 1], status, same);
      if (last.1 == status) == same then rest + [last.0] else rest
  }

  /** The two ranked claims on top are in conflict: different statuses and scores within epsilon. */
  predicate Conflict(cands: seq<ClaimRow>, ctx: Context) {
    |cands| >= 2 &&
    ClaimStatusToResolved(cands[0].status) != ClaimStatusToResolved(cands[1].status) &&
    Abs(ScoreClaim(cands[0], ctx) - ScoreClaim(cands[1], ctx)) <= ConflictEpsilon(ctx.policy)
  }

  /** `_resolve_group` on candidates already ranked best first. */
  function GroupResolution(cands: seq<ClaimRow>, ctx: Context): (r: Result<Resolution, string>)
    ensures r.Err? <==> cands == []
  {
    if cands == [] then Err("empty candidates")
    else
      var top := cands[0];
      var winner := IdString(top.claimId);
      var confidence := NormalizeConfidence(ScoreClaim(top, ctx), ctx.policy);
      var version := ctx.policy.policyVersion.GetOr("");
      if Conflict(cands, ctx) then
        Ok(Resolution(top.teamRef, top.playerRef, ConflictBehavior(ctx.policy), confidence, UnresolvedConflict,
                           winner, SortBy([winner], StrKey), SortBy(Ids(cands[1..]), StrKey), version, ctx.now))
      else
        var status := ClaimStatusToResolved(top.status);
        Ok(Resolution(top.teamRef, top.playerRef, status, confidence, LatestWins,
                           winner, SortBy([winner] + IdsByStatus(Tagged(cands[1..]), status, true), StrKey),
                           SortBy(IdsByStatus(Tagged(cands[1..]), status, false), StrKey), version, ctx.now))
  }

  /**
   * The loop of `_resolve_group` over the lower-ranked candidates: the ids
   * of those with the winner's status, and of the others, in order.
   */
  method SplitByStatus(rest: seq<ClaimRow>, status: string) returns (same: seq<string>, different: seq<string>)
    ensures same == IdsByStatus(Tagged(rest), status, true)
    ensures different == IdsByStatus(Tagged(rest), status, false)
  {
    same, different := [], [];
    for j := 0 to |rest|
      invariant same == IdsByStatus(Tagged(rest[..j]), status, true)
      invariant different == IdsByStatus(Tagged(rest[..j]), status, false)
    {
      assert Tagged(rest[..j + 1])[..j] == Tagged(rest[..j]);
      var c := rest[j];
      if ClaimStatusToResolved(c.status) != status {
        different := different + [IdString(c.claimId)];
      } else {
        same := same + [IdString(c.claimId)];
      }
    }
    assert rest[..|rest|] == rest;
  }

  /** Whether the top two conflict, from the two halves of the test. */
  lemma ConflictOf(cands: seq<ClaimRow>, ctx: Context, differs: bool, close: bool)
    requires |cands| >= 2
    requires differs == (ClaimStatusToResolved(cands[0].status) != ClaimStatusToResolved(cands[1].status))
    requires close == (Abs(ScoreClaim(cands[0], ctx) - ScoreClaim(cands[1], ctx)) <= ConflictEpsilon(ctx.policy))
    ensures Conflict(cands, ctx) == (differs && close)
  {
  }

  /** The resolution of conflicting top candidates. */
  lemma ConflictResolution(cands: seq<ClaimRow>, ctx: Context)
    requires cands != [] && Conflict(cands, ctx)
    ensures GroupResolution(cands, ctx) ==
              Ok(Resolution(cands[0].teamRef, cands[0].playerRef, ConflictBehavior(ctx.policy),
                            NormalizeConfidence(ScoreClaim(cands[0], ctx), ctx.policy), UnresolvedConflict,
                            IdString(cands[0].claimId), SortBy([IdString(cands[0].claimId)], StrKey),
                            SortBy(Ids(cands[1..]), StrKey), ctx.policy.policyVersion.GetOr(""), ctx.now))
  {
  }

  /** The resolution of a group whose top candidate wins. */
  lemma LatestWinsResolution(cands: seq<ClaimRow>, ctx: Context, same: seq<string>, different: seq<string>)
    requires cands != [] && !Conflict(cands, ctx)
    requires same == IdsByStatus(Tagged(cands[1..]), ClaimStatusToResolved(cands[0].status), true)
    requires different == IdsByStatus(Tagged(cands[1..]), ClaimStatusToResolved(cands[0].status), false)
    ensures GroupResolution(cands, ctx) ==
              Ok(Resolution(cands[0].teamRef, cands[0].playerRef, ClaimStatusToResolved(cands[0].status),
                            NormalizeConfidence(ScoreClaim(cands[0], ctx), ctx.policy), LatestWins,
                            IdString(cands[0].claimId), SortBy([IdString(cands[0].claimId)] + same, StrKey),
                            SortBy(different, StrKey), ctx.policy.policyVersion.GetOr(""), ctx.now))
  {
  }

  /** The test of `_resolve_group` on the two best-ranked candidates. */
  method TopTwoConflict(cands: seq<ClaimRow>, ctx: Context) returns (conflict: bool)
    requires cands != []
    ensures conflict == Conflict(cands, ctx)
  {
    conflict := false;
    if |cands| >= 2 {
      var scoreTop := ScoreClaim(cands[0], ctx);
      var scoreSecond := ScoreClaim(cands[1], ctx);
      var differs := ClaimStatusToResolved(cands[0].status) != ClaimStatusToResolved(cands[1].status);
      var close := Abs(scoreTop - scoreSecond) <= ConflictEpsilon(ctx.policy);
      ConflictOf(cands, ctx, differs, close);
      conflict := differs && close;
    }
  }

  /** `_resolve_group`. */
  method ResolveGroup(cands: seq<ClaimRow>, ctx: Context) returns (r: Result<Resolution, string>)
    ensures r == GroupResolution(cands, ctx)
  {
    var policyVersion := ctx.policy.policyVersion.GetOr("");
    var conflictBehavior := ConflictBehavior(ctx.policy);
    if cands == [] {
      return Err("empty candidates");
    }
    var top := cands[0];
    var scoreTop := ScoreClaim(top, ctx);
    var statusTop := ClaimStatusToResolved(top.status);
    var winner := IdString(top.claimId);
    var confidence := NormalizeConfidence(scoreTop, ctx.policy);
    var conflict := TopTwoConflict(cands, ctx);
    if conflict {
      ConflictResolution(cands, ctx);
      r := Ok(Resolution(top.teamRef, top.playerRef, conflictBehavior, confidence, UnresolvedConflict, winner,
                         SortBy([winner], StrKey), SortBy(Ids(cands[1..]), StrKey), policyVersion, ctx.now));
    } else {
      // with a single candidate the loop runs over nothing
      var same, different := SplitByStatus(cands[1..], statusTop);
      LatestWinsResolution(cands, ctx, same, different);
      r := Ok(Resolution(top.teamRef, top.playerRef, statusTop, confidence, LatestWins, winner,
                         SortBy([winner] + same, StrKey), SortBy(different, StrKey), policyVersion, ctx.now));
    }
  }

  // ---------------------------------------------------------------- properties of one group

  lemma {:induction false} IdsByStatusPartition(ts: seq<(string, string)>, status: string)
    ensures multiset(IdsByStatus(ts, status, true)) + multiset(IdsByStatus(ts, status, false)) == multiset(TagIds(ts))
    decreases |ts|
  {
    if ts != [] {
      var init := ts[..|ts| - 1];
      IdsByStatusPartition(init, status);
      assert TagIds(ts) == TagIds(init) + [ts[|ts| - 1].0];
    }
  }

  lemma {:induction false} IdsByStatusHas(ts: seq<(string, string)>, status: string, same: bool, k: nat)
    requires k < |ts| && (ts[k].1 == status) == same
    ensures ts[k].0 in IdsByStatus(ts, status, same)
    decreases |ts|
  {
    if k < |ts| - 1 {
      var init := ts[..|ts| - 1];
      assert init[k] == ts[k];
      IdsByStatusHas(init, status, same, k);
    }
  }

  lemma SortedSingleton(x: string)
    ensures SortBy([x], StrKey) == [x]
  {
    assert [x][1..] == [];
  }

  /** The supporting and conflicting ids of a group are sorted and split its candidates' ids; the winner supports. */
  lemma GroupResolutionIds(cands: seq<ClaimRow>, ctx: Context)
    requires cands != []
    ensures var r := GroupResolution(cands, ctx).value;
            r.winningClaimId == IdString(cands[0].claimId) &&
            r.winningClaimId in r.supportingClaimIds &&
            multiset(r.supportingClaimIds) + multiset(r.conflictingClaimIds) == multiset(Ids(cands)) &&
            SortedBy(r.supportingClaimIds, StrKey) && SortedBy(r.conflictingClaimIds, StrKey)
  {
    var winner := IdString(cands[0].claimId);
    assert Ids(cands) == [winner] + Ids(cands[1..]);
    if Conflict(cands, ctx) {
      ConflictIds(cands, ctx);
    } else {
      LatestWinsIds(cands, ctx);
    }
  }

  lemma ConflictIds(cands: seq<ClaimRow>, ctx: Context)
    requires Conflict(cands, ctx)
    ensures var r := GroupResolution(cands, ctx).value;
            var winner := IdString(cands[0].claimId);
            r.supportingClaimIds == [winner] &&
            multiset(r.conflictingClaimIds) == multiset(Ids(cands[1..])) &&
            SortedBy(r.conflictingClaimIds, StrKey)
  {
    SortedSingleton(IdString(cands[0].claimId));
    SortBySorted(Ids(cands[1..]), StrKey);
  }

  lemma LatestWinsIds(cands: seq<ClaimRow>, ctx: Context)
    requires cands != [] && !Conflict(cands, ctx)
    ensures var r := GroupResolution(cands, ctx).value;
            var winner := IdString(cands[0].claimId);
            winner in r.supportingClaimIds &&
            multiset(r.supportingClaimIds) + multiset(r.conflictingClaimIds) == multiset([winner] + Ids(cands[1..])) &&
            SortedBy(r.supportingClaimIds, StrKey) && SortedBy(r.conflictingClaimIds, StrKey)
  {
    var winner := IdString(cands[0].claimId);
    var status := ClaimStatusToResolved(cands[0].status);
    var ts := Tagged(cands[1..]);
    var same, different := IdsByStatus(ts, status, true), IdsByStatus(ts, status, false);
    assert TagIds(ts) == Ids(cands[1..]);
    IdsByStatusPartition(ts, status);
    SortBySorted([winner] + same, StrKey);
    SortBySorted(different, StrKey);
    assert winner in multiset([winner] + same);
  }

  /**
   * The resolved status and method of a group: a conflict between the top
   * two gives the policy's conflict behaviour and `UNRESOLVED_CONFLICT`;
   * otherwise the top claim's status wins and every other claim supports
   * it or conflicts with it according to its own status.
   */
  lemma GroupResolutionStatus(cands: seq<ClaimRow>, ctx: Context)
    requires cands != []
    ensures var r := GroupResolution(cands, ctx).value;
            r.teamRef == cands[0].teamRef && r.playerRef == cands[0].playerRef &&
            r.resolvedStatus in ResolvedStatusValues() &&
            0.0 <= r.resolutionConfidence <= 1.0 &&
            (r.resolutionMethod == UnresolvedConflict <==> Conflict(cands, ctx)) &&
            (Conflict(cands, ctx) ==> r.resolvedStatus == ConflictBehavior(ctx.policy) && r.supportingClaimIds == [r.winningClaimId]) &&
            (!Conflict(cands, ctx) ==> r.resolvedStatus == ClaimStatusToResolved(cands[0].status))
  {
    ConflictBehaviorFallback(ctx.policy);
    ClaimStatusMapping(cands[0].status);
    SortedSingleton(IdString(cands[0].claimId));
  }

  /** Without a conflict, a lower-ranked claim supports the winner exactly when it has the winner's status. */
  lemma GroupResolutionMembers(cands: seq<ClaimRow>, ctx: Context, c: ClaimRow)
    requires cands != [] && !Conflict(cands, ctx) && c in cands[1..]
    ensures var r := GroupResolution(cands, ctx).value;
            (ClaimStatusToResolved(c.status) == r.resolvedStatus ==> IdString(c.claimId) in r.supportingClaimIds) &&
            (ClaimStatusToResolved(c.status) != r.resolvedStatus ==> IdString(c.claimId) in r.conflictingClaimIds)
  {
    var r := GroupResolution(cands, ctx).value;
    var status := ClaimStatusToResolved(cands[0].status);
    var id := IdString(c.claimId);
    var ts := Tagged(cands[1..]);
    var k :| 0 <= k < |cands[1..]| && cands[1..][k] == c;
    assert ts[k] == (id, ClaimStatusToResolved(c.status));
    if ClaimStatusToResolved(c.status) == status {
      IdsByStatusHas(ts, status, true, k);
      var ids := [IdString(cands[0].claimId)] + IdsByStatus(ts, status, true);
      assert id in ids;
      assert id in multiset(SortBy(ids, StrKey));
    } else {
      IdsByStatusHas(ts, status, false, k);
      assert id in multiset(SortBy(IdsByStatus(ts, status, false), StrKey));
    }
  }

  // ---------------------------------------------------------------- filtering

  /** `min_confidence_to_consider`, clamped to [0, 1]. */
  function MinConfidence(policy: Policy): (r: real)
    ensures 0.0 <= r <= 1.0
    ensures var m := policy.minConfidenceToConsider.GetOr(0.5); 0.0 <= m <= 1.0 ==> r == m
    ensures var m := policy.minConfidenceToConsider.GetOr(0.5); m > 1.0 ==> r == 1.0
    ensures var m := policy.minConfidenceToConsider.GetOr(0.5); m < 0.0 ==> r == 0.0
  {
    var m := policy.minConfidenceToConsider.GetOr(0.5);
    if m > 1.0 then 1.0 else if m < 0.0 then 0.0 else m
  }

  predicate LowConfidence(row: ClaimRow, ctx: Context) {
    row.confidence < MinConfidence(ctx.policy)
  }

  /** The claims a run keeps, in order: confident enough, then not stale. */
  function Kept(rows: seq<ClaimRow>, ctx: Context): seq<ClaimRow> {
    if rows == [] then []
    else
      var last := rows[|rows| - 1];
      var rest := Kept(rows[..|rows| - 1], ctx);
      if LowConfidence(last, ctx) || IsStale(last, ctx) then rest else rest + [last]
  }

  /** The number of claims dropped for low confidence. */
  function LowConfDropped(rows: seq<ClaimRow>, ctx: Context): nat {
    if rows == [] then 0
    else LowConfDropped(rows[..|rows| - 1], ctx) + (if LowConfidence(rows[|rows| - 1], ctx) then 1 else 0)
  }

  /** The number of claims dropped as stale: confident enough but too old. */
  function StaleDropped(rows: seq<ClaimRow>, ctx: Context): nat {
    if rows == [] then 0
    else
      var last := rows[|rows| - 1];
      StaleDropped(rows[..|rows| - 1], ctx) + (if !LowConfidence(last, ctx) && IsStale(last, ctx) then 1 else 0)
  }

  /** The filter loop of `run_resolver_pure`. */
  method FilterClaims(rows: seq<ClaimRow>, ctx: Context) returns (filtered: seq<ClaimRow>, lowConf: nat, stale: nat)
    ensures filtered == Kept(rows, ctx)
    ensures lowConf == LowConfDropped(rows, ctx) && stale == StaleDropped(rows, ctx)
  {
    filtered, lowConf, stale := [], 0, 0;
    for j := 0 to |rows|
      invariant filtered == Kept(rows[..j], ctx)
      invariant lowConf == LowConfDropped(rows[..j], ctx) && stale == StaleDropped(rows[..j], ctx)
    {
      assert rows[..j + 1][..j] == rows[..j];
      var r := rows[j];
      if r.confidence < MinConfidence(ctx.policy) {
        lowConf := lowConf + 1;
      } else if IsStale(r, ctx) {
        stale := stale + 1;
      } else {
        filtered := filtered + [r];
      }
    }
    assert rows[..|rows|] == rows;
  }

  /** Every claim is kept or counted in exactly one of the two drop counters. */
  lemma {:induction false} FilterCounts(rows: seq<ClaimRow>, ctx: Context)
    ensures LowConfDropped(rows, ctx) + StaleDropped(rows, ctx) + |Kept(rows, ctx)| == |rows|
    decreases |rows|
  {
    if rows != [] {
      FilterCounts(rows[..|rows| - 1], ctx);
    }
  }

  /** A claim is kept exactly when it is among the input, confident enough and not stale. */
  lemma {:induction false} KeptMembers(rows: seq<ClaimRow>, ctx: Context, r: ClaimRow)
    ensures r in Kept(rows, ctx) <==> r in rows && !LowConfidence(r, ctx) && !IsStale(r, ctx)
    decreases |rows|
  {
    if rows != [] {
      var init := rows[..|rows| - 1];
      KeptMembers(init, ctx, r);
      assert rows == init + [rows[|rows| - 1]];
    }
  }

  // ---------------------------------------------------------------- grouping

  /** A group: the team and the player, `__UNKNOWN_PLAYER__` for a claim without one. */
  type GroupKey = (string, string)

  /** `group_key`. */
  function KeyOf(r: ClaimRow): GroupKey {
    (r.teamRef, r.playerRef.GetOr(UnknownPlayer))
  }

  /** The group keys of the claims, each once, in order of first appearance. */
  function GroupKeys(rows: seq<ClaimRow>): seq<GroupKey> {
    if rows == [] then []
    else
      var ks := GroupKeys(rows[..|rows| - 1]);
      var k := KeyOf(rows[|rows| - 1]);
      if k in ks then ks else ks + [k]
  }

  /** The claims of one group, in order. */
  function Members(rows: seq<ClaimRow>, k: GroupKey): seq<ClaimRow> {
    if rows == [] then []
    else
      var ms := Members(rows[..|rows| - 1], k);
      var last := rows[|rows| - 1];
      if KeyOf(last) == k then ms + [last] else ms
  }

  /** The grouping loop of `run_resolver_pure`: a dict of groups and its insertion order. */
  method GroupClaims(filtered: seq<ClaimRow>) returns (order: seq<GroupKey>, groups: map<GroupKey, seq<ClaimRow>>)
    ensures order == GroupKeys(filtered)
    ensures forall k :: k in groups <==> k in order
    ensures forall k :: k in groups ==> groups[k] == Members(filtered, k)
  {
    order, groups := [], map[];
    for j := 0 to |filtered|
      invariant order == GroupKeys(filtered[..j])
      invariant forall k :: k in groups <==> k in order
      invariant forall k :: k in groups ==> groups[k] == Members(filtered[..j], k)
    {
      assert filtered[..j + 1][..j] == filtered[..j];
      var r := filtered[j];
      var k := KeyOf(r);
      if k !in groups {
        GroupKeysCover(filtered[..j], k);
        groups := groups[k := []];
        order := order + [k];
      }
      groups := groups[k := groups[k] + [r]];
      forall k' | k' in groups ensures groups[k'] == Members(filtered[..j + 1], k') {
        assert filtered[..j + 1][j] == r;
      }
    }
    assert filtered[..|filtered|] == filtered;
  }

  /** The group keys are distinct. */
  lemma {:induction false} GroupKeysDistinct(rows: seq<ClaimRow>)
    ensures Distinct(GroupKeys(rows))
    decreases |rows|
  {
    if rows != [] {
      GroupKeysDistinct(rows[..|rows| - 1]);
    }
  }

  /** Every claim's key is a group key, and every group key has a claim. */
  lemma {:induction false} GroupKeysCover(rows: seq<ClaimRow>, k: GroupKey)
    ensures k in GroupKeys(rows) <==> Members(rows, k) != []
    decreases |rows|
  {
    if rows != [] {
      GroupKeysCover(rows[..|rows| - 1], k);
    }
  }

  /** A group holds exactly the claims with its key. */
  lemma {:induction false} MembersOf(rows: seq<ClaimRow>, k: GroupKey, r: ClaimRow)
    ensures r in Members(rows, k) <==> r in rows && KeyOf(r) == k
    decreases |rows|
  {
    if rows != [] {
      var init := rows[..|rows| - 1];
      MembersOf(init, k, r);
      assert rows == init + [rows[|rows| - 1]];
    }
  }

  // ---------------------------------------------------------------- a whole run

  /** The order of `sorted(groups.items())`: by team, then player. */
  function PairKey(k: GroupKey): Key {
    [Str(k.0), Str(k.1)]
  }

  /** The ranking of the candidates of a group: score descending, then recorded_at descending, then claim id. */
  function CandKey(ctx: Context): ClaimRow -> Key {
    r => [Num(-ScoreClaim(r, ctx)), Num(-r.recordedAt), Num(r.claimId as real)]
  }

  /** The candidates of a group ranked best first. */
  function Ranked(rows: seq<ClaimRow>, k: GroupKey, ctx: Context): seq<ClaimRow> {
    SortBy(Members(rows, k), CandKey(ctx))
  }

  /** The values of `f` over `keys`, in order; the first failing key fails the whole. */
  function Collect<K, V>(keys: seq<K>, f: K -> Result<V, string>): Result<seq<V>, string> {
    if keys == [] then Ok([])
    else
      match Collect(keys[..|keys| - 1], f)
      case Err(e) => Err(e)
      case Ok(vs) =>
        match f(keys[|keys| - 1])
        case Err(e) => Err(e)
        case Ok(v) => Ok(vs + [v])
  }

  lemma CollectStep<K, V>(keys: seq<K>, i: nat, f: K -> Result<V, string>, vs: seq<V>, v: V)
    requires i < |keys| && Collect(keys[..i], f) == Ok(vs) && f(keys[i]) == Ok(v)
    ensures Collect(keys[..i + 1], f) == Ok(vs + [v])
  {
    assert keys[..i + 1][..i] == keys[..i];
  }

  /** When `f` succeeds on every key, the whole succeeds with one value per key. */
  lemma {:induction false} CollectOk<K, V>(keys: seq<K>, f: K -> Result<V, string>)
    requires forall k :: k in keys ==> f(k).Ok?
    ensures var r := Collect(keys, f);
            r.Ok? && |r.value| == |keys| && forall i :: 0 <= i < |keys| ==> Ok(r.value[i]) == f(keys[i])
    decreases |keys|
  {
    if keys != [] {
      var init := keys[..|keys| - 1];
      assert forall k :: k in init ==> k in keys;
      CollectOk(init, f);
    }
  }

  /** `_resolve_group` on one group of `rows`, its candidates ranked. */
  function GroupFn(rows: seq<ClaimRow>, ctx: Context): GroupKey -> Result<Resolution, string> {
    k => GroupResolution(Ranked(rows, k, ctx), ctx)
  }

  function ConflictCount(rs: seq<Resolution>): nat {
    if rs == [] then 0
    else ConflictCount(rs[..|rs| - 1]) + (if rs[|rs| - 1].resolutionMethod == UnresolvedConflict then 1 else 0)
  }

  lemma ConflictCountStep(rs: seq<Resolution>, x: Resolution)
    ensures ConflictCount(rs + [x]) == ConflictCount(rs) + (if x.resolutionMethod == UnresolvedConflict then 1 else 0)
  {
    assert (rs + [x])[..|rs|] == rs;
  }

  /** The summary dict; `candidate_counts` is flattened into `total` and `afterFilter`. */
  datatype Summary = Summary(
    resolutionsCount: nat,
    conflictsCount: nat,
    staleDropped: nat,
    lowConfDropped: nat,
    total: nat,
    afterFilter: nat)

  /** The groups of a run in the order they are resolved. */
  function RunKeys(rows: seq<ClaimRow>, ctx: Context): seq<GroupKey> {
    SortBy(GroupKeys(Kept(rows, ctx)), PairKey)
  }

  /** `run_resolver_pure`. */
  function RunResolver(rows: seq<ClaimRow>, ctx: Context): (r: Result<(seq<Resolution>, Summary), string>)
    ensures r.Ok? ==> r.value.1.total == |rows| &&
                      r.value.1.lowConfDropped + r.value.1.staleDropped + r.value.1.afterFilter == |rows|
    ensures r.Ok? ==> r.value.1.resolutionsCount == |r.value.0| && r.value.1.conflictsCount <= r.value.1.resolutionsCount
  {
    var kept := Kept(rows, ctx);
    match Collect(RunKeys(rows, ctx), GroupFn(kept, ctx))
    case Err(e) => Err(e)
    case Ok(rs) =>
      FilterCounts(rows, ctx);
      ConflictCountBound(rs);
      Ok((rs, Summary(|rs|, ConflictCount(rs), StaleDropped(rows, ctx), LowConfDropped(rows, ctx), |rows|, |kept|)))
  }

  /** `run_resolver_pure`, step by step; it never meets an empty group. */
  method RunResolverPure(rows: seq<ClaimRow>, ctx: Context) returns (resolutions: seq<Resolution>, summary: Summary)
    ensures RunResolver(rows, ctx) == Ok((resolutions, summary))
  {
    var filtered, lowConf, stale := FilterClaims(rows, ctx);
    var order, groups := GroupClaims(filtered);
    var keys := SortBy(order, PairKey);
    forall k | k in keys ensures k in groups && groups[k] != [] {
      assert k in multiset(order);
      GroupKeysCover(filtered, k);
    }
    var conflicts;
    resolutions, conflicts := ResolveGroups(keys, filtered, groups, ctx);
    summary := Summary(|resolutions|, conflicts, stale, lowConf, |rows|, |filtered|);
  }

  /** One step of the resolution loop: rank a group's candidates, then resolve them. */
  method ResolveKey(k: GroupKey, filtered: seq<ClaimRow>, groups: map<GroupKey, seq<ClaimRow>>, ctx: Context)
      returns (x: Resolution)
    requires k in groups && groups[k] == Members(filtered, k) && groups[k] != []
    ensures GroupFn(filtered, ctx)(k) == Ok(x)
  {
    var cands := SortBy(groups[k], CandKey(ctx));
    var res := ResolveGroup(cands, ctx);
    x := res.value;
  }

  /** The resolution loop of `run_resolver_pure`: each group's candidates ranked, then resolved. */
  method ResolveGroups(keys: seq<GroupKey>, filtered: seq<ClaimRow>, groups: map<GroupKey, seq<ClaimRow>>, ctx: Context)
      returns (resolutions: seq<Resolution>, conflicts: nat)
    requires forall k :: k in keys ==> k in groups && groups[k] == Members(filtered, k) && groups[k] != []
    ensures Collect(keys, GroupFn(filtered, ctx)) == Ok(resolutions)
    ensures conflicts == ConflictCount(resolutions)
  {
    var f := GroupFn(filtered, ctx);
    resolutions, conflicts := [], 0;
    for i := 0 to |keys|
      invariant Collect(keys[..i], f) == Ok(resolutions)
      invariant conflicts == ConflictCount(resolutions)
    {
      var x := ResolveKey(keys[i], filtered, groups, ctx);
      CollectStep(keys, i, f, resolutions, x);
      ConflictCountStep(resolutions, x);
      conflicts := conflicts + (if x.resolutionMethod == UnresolvedConflict then 1 else 0);
      resolutions := resolutions + [x];
    }
    assert keys[..|keys|] == keys;
  }

  // ---------------------------------------------------------------- properties of a run

  lemma {:induction false} ConflictCountBound(rs: seq<Resolution>)
    ensures ConflictCount(rs) <= |rs|
    decreases |rs|
  {
    if rs != [] {
      ConflictCountBound(rs[..|rs| - 1]);
    }
  }

  /** The run keys are the distinct group keys of the kept claims, sorted by team and player. */
  lemma RunKeysFacts(rows: seq<ClaimRow>, ctx: Context)
    ensures var keys := RunKeys(rows, ctx);
            StrictlySortedBy(keys, PairKey) &&
            forall k :: k in keys <==> Members(Kept(rows, ctx), k) != []
  {
    var ks := GroupKeys(Kept(rows, ctx));
    var keys := RunKeys(rows, ctx);
    GroupKeysDistinct(Kept(rows, ctx));
    DistinctPermutation(ks, keys);
    SortBySorted(ks, PairKey);
    SortedDistinctStrict(keys, PairKey);
    forall k ensures k in keys <==> Members(Kept(rows, ctx), k) != [] {
      GroupKeysCover(Kept(rows, ctx), k);
      assert k in keys <==> k in multiset(ks);
    }
  }

  /**
   * A run always succeeds; its summary counts add up; and it holds one
   * resolution per group of kept claims, in (team, player) order, each the
   * resolution of that group's candidates ranked best first.
   */
  lemma RunResolverFacts(rows: seq<ClaimRow>, ctx: Context)
    ensures var r := RunResolver(rows, ctx);
            var keys := RunKeys(rows, ctx);
            var kept := Kept(rows, ctx);
            r.Ok? &&
            var (rs, s) := r.value;
            s.lowConfDropped + s.staleDropped + s.afterFilter == s.total == |rows| &&
            s.resolutionsCount == |rs| == |keys| && s.conflictsCount <= s.resolutionsCount &&
            forall i :: 0 <= i < |rs| ==> Ok(rs[i]) == GroupResolution(Ranked(kept, keys[i], ctx), ctx)
  {
    var kept := Kept(rows, ctx);
    var keys := RunKeys(rows, ctx);
    var f := GroupFn(kept, ctx);
    RunKeysFacts(rows, ctx);
    forall k | k in keys ensures f(k).Ok? {
      assert multiset(Ranked(kept, k, ctx)) == multiset(Members(kept, k));
    }
    CollectOk(keys, f);
    FilterCounts(rows, ctx);
    ConflictCountBound(Collect(keys, f).value);
  }

  /** The resolution of a group is about that group: its team and player are the group's, its claims the group's. */
  lemma RankedGroup(rows: seq<ClaimRow>, k: GroupKey, ctx: Context)
    requires Members(rows, k) != []
    ensures var cands := Ranked(rows, k, ctx);
            var res := GroupResolution(cands, ctx).value;
            SortedBy(cands, CandKey(ctx)) && multiset(cands) == multiset(Members(rows, k)) &&
            (res.teamRef, res.playerRef.GetOr(UnknownPlayer)) == k
  {
    var cands := Ranked(rows, k, ctx);
    SortBySorted(Members(rows, k), CandKey(ctx));
    assert cands[0] in multiset(Members(rows, k));
    MembersOf(rows, k, cands[0]);
    GroupResolutionStatus(cands, ctx);
  }

  // ---------------------------------------------------------------- the grouping as written

  /** The key the grouping loop actually uses: the team and the optional player. */
  type RawKey = (string, Option<string>)

  function RawKeyOf(r: ClaimRow): RawKey {
    (r.teamRef, r.playerRef)
  }

  /** The keys of the `groups` dict as written, in insertion order. */
  function RawGroupKeys(rows: seq<ClaimRow>): seq<RawKey> {
    if rows == [] then []
    else
      var ks := RawGroupKeys(rows[..|rows| - 1]);
      var k := RawKeyOf(rows[|rows| - 1]);
      if k in ks then ks else ks + [k]
  }

  /** Two groups of one team, one without a player and one with: their keys are not comparable in Python. */
  predicate Mixed(keys: seq<RawKey>) {
    exists i, j :: 0 <= i < |keys| && 0 <= j < |keys| && keys[i].0 == keys[j].0 && keys[i].1.None? && keys[j].1.Some?
  }

  /** The order of comparable raw keys: by team, then player, `None` first (it never meets a player of its team). */
  function RawPairKey(k: RawKey): Key {
    match k.1
    case None => [Str(k.0)]
    case Some(p) => [Str(k.0), Str(p)]
  }

  /**
   * `sorted(groups.items())` on the raw keys: comparing `None` with a
   * string raises `TypeError`, and a sort has to compare the two keys of a
   * mixed team, so a mixed set of keys fails the whole run.
   */
  function SortedRawKeys(keys: seq<RawKey>): (r: Result<seq<RawKey>, string>)
    ensures r.Err? <==> Mixed(keys)
    ensures r.Ok? ==> multiset(r.value) == multiset(keys)
  {
    if Mixed(keys) then Err("TypeError: '<' not supported between instances of 'str' and 'NoneType'")
    else Ok(SortBy(keys, RawPairKey))
  }

  /** The group order of a run as written. */
  function RunOrderAsWritten(rows: seq<ClaimRow>, ctx: Context): Result<seq<RawKey>, string> {
    SortedRawKeys(RawGroupKeys(Kept(rows, ctx)))
  }

  lemma {:induction false} RawGroupKeysHas(rows: seq<ClaimRow>, r: ClaimRow)
    requires r in rows
    ensures RawKeyOf(r) in RawGroupKeys(rows)
    decreases |rows|
  {
    var init := rows[..|rows| - 1];
    if r != rows[|rows| - 1] {
      assert r in init by {
        var k :| 0 <= k < |rows| && rows[k] == r;
        assert init[k] == r;
      }
      RawGroupKeysHas(init, r);
    }
  }

  /**
   * As written, two kept claims of one team, one without a player and one
   * with, make the run fail, although the corrected run always succeeds.
   */
  lemma AsWrittenRaises(rows: seq<ClaimRow>, ctx: Context, a: ClaimRow, b: ClaimRow)
    requires a in Kept(rows, ctx) && b in Kept(rows, ctx)
    requires a.teamRef == b.teamRef && a.playerRef.None? && b.playerRef.Some?
    ensures RunOrderAsWritten(rows, ctx).Err?
    ensures RunResolver(rows, ctx).Ok?
  {
    var keys := RawGroupKeys(Kept(rows, ctx));
    RawGroupKeysHas(Kept(rows, ctx), a);
    RawGroupKeysHas(Kept(rows, ctx), b);
    var i :| 0 <= i < |keys| && keys[i] == RawKeyOf(a);
    var j :| 0 <= j < |keys| && keys[j] == RawKeyOf(b);
    assert Mixed(keys);
    RunResolverFacts(rows, ctx);
  }
}
