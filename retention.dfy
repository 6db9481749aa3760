/**
 * Report retention: keep the reports of the newest `keep_last_n` run ids (in
 * string order), delete the artifacts of the others under the reports
 * directory, prune the index lists to the kept ids and re-point each
 * `latest_*` key at the last remaining entry.
 */
module Retention {
  import opened Wrappers
  import opened Text
  import opened Json
  import opened Sorting
  import opened IndexStore
  import ActivationEnv

  const DefaultRetentionCount: int := 200

  /** `_retention_count`: REPORT_RETENTION_COUNT read by `int()`; unset, or text `int()` rejects, gives the default. */
  function RetentionCount(env: Option<string>): (r: int)
    ensures env.None? ==> r == DefaultRetentionCount
    ensures env.Some? && ParseInt(env.value).None? ==> r == DefaultRetentionCount
  {
    ActivationEnv.IntEnv(env, DefaultRetentionCount).GetOr(DefaultRetentionCount)
  }

  /** A count written out in decimal is read back as that count. */
  lemma RetentionCountOfDecimal(n: nat)
    ensures RetentionCount(Some(NatToString(n))) == n
  {
    ParseIntRoundTrip(n);
  }

  /** `_dry_run_default`: REPORT_RETENTION_DRY_RUN is a switch of the usual kind; unset it is false. */
  function DryRunDefault(env: Option<string>): (r: bool)
    ensures env.None? ==> !r
  {
    ActivationEnv.Flag(env)
  }

  /** `keep_last_n`, defaulted from the environment when the caller passes none. */
  function KeepLastN(arg: Option<int>, countEnv: Option<string>): (r: int)
    ensures arg.Some? ==> r == arg.value
    ensures arg.None? ==> r == RetentionCount(countEnv)
  {
    if arg.Some? then arg.value else RetentionCount(countEnv)
  }

  /** `dry_run`, defaulted from the environment when the caller passes none. */
  function DryRunOf(arg: Option<bool>, dryRunEnv: Option<string>): (r: bool)
    ensures arg.Some? ==> r == arg.value
    ensures arg.None? ==> r == DryRunDefault(dryRunEnv)
  {
    if arg.Some? then arg.value else DryRunDefault(dryRunEnv)
  }

  /** The run id `_collect_run_ids` takes from one entry: a non-empty string under "run_id" of a dict. */
  function EntryId(e: Json): Option<string> {
    if e.JObj? && Get(e.fields, "run_id").JStr? && Get(e.fields, "run_id").s != [] then Some(Get(e.fields, "run_id").s)
    else None
  }

  /** The ids of the entries of one list. */
  function IdsOf(items: seq<Json>): set<string> {
    if items == [] then {}
    else IdsOf(items[..|items| - 1]) + (match EntryId(items[|items| - 1]) case Some(x) => {x} case None => {})
  }

  /** The ids of a list are exactly the ids of its entries. */
  lemma {:induction false} IdsOfMembers(items: seq<Json>)
    ensures forall x :: x in IdsOf(items) <==> exists i :: 0 <= i < |items| && EntryId(items[i]) == Some(x)
    decreases |items|
  {
    if items != [] {
      var init := items[..|items| - 1];
      IdsOfMembers(init);
      assert forall i :: 0 <= i < |init| ==> init[i] == items[i];
    }
  }

  /** The ids in the list under `key`, when that value is a list. */
  function ListIds(index: Dict, key: string): set<string> {
    if Get(index, key).JArr? then IdsOf(Get(index, key).items) else {}
  }

  /** The run ids found across the lists `keys`. */
  function IdsAcross(index: Dict, keys: seq<string>): set<string> {
    if keys == [] then {}
    else IdsAcross(index, keys[..|keys| - 1]) + ListIds(index, keys[|keys| - 1])
  }

  /** The ids across the lists are exactly the ids of some list. */
  lemma {:induction false} IdsAcrossMembers(index: Dict, keys: seq<string>)
    ensures forall x :: x in IdsAcross(index, keys) <==> exists i :: 0 <= i < |keys| && x in ListIds(index, keys[i])
    decreases |keys|
  {
    if keys != [] {
      var init := keys[..|keys| - 1];
      IdsAcrossMembers(index, init);
      assert forall i :: 0 <= i < |init| ==> init[i] == keys[i];
    }
  }

  /** `_collect_run_ids`: every run id of every run list, sorted and without duplicates. */
  method CollectRunIds(index: Dict) returns (ids: seq<string>)
    ensures StrictlySorted(ids)
    ensures forall x :: x in ids <==> x in IdsAcross(index, AllListKeys)
  {
    var seen := GatherIds(index, AllListKeys);
    ids := SortedFromSet(seen);
  }

  /** The outer loop of `_collect_run_ids`, over the run lists. */
  method GatherIds(index: Dict, keys: seq<string>) returns (seen: set<string>)
    ensures seen == IdsAcross(index, keys)
  {
    seen := {};
    var i := 0;
    while i < |keys|
      invariant 0 <= i <= |keys|
      invariant seen == IdsAcross(index, keys[..i])
    {
      var key := keys[i];
      assert keys[..i + 1][..i] == keys[..i];
      var runs := Get(index, key);
      if runs.JArr? {
        seen := GatherList(seen, runs.items);
      }
      i := i + 1;
    }
    assert keys[..i] == keys;
  }

  /** The inner loop: the ids of one list's entries join `seen`. */
  method GatherList(seen: set<string>, items: seq<Json>) returns (seen': set<string>)
    ensures seen' == seen + IdsOf(items)
  {
    seen' := seen;
    var j := 0;
    while j < |items|
      invariant 0 <= j <= |items|
      invariant seen' == seen + IdsOf(items[..j])
    {
      assert items[..j + 1][..j] == items[..j];
      var entry := items[j];
      if entry.JObj? {
        var rid := Get(entry.fields, "run_id");
        if rid.JStr? && rid.s != [] {
          seen' := seen' + {rid.s};
        }
      }
      j := j + 1;
    }
    assert items[..j] == items;
  }

  /** `_safe_under_root`: the resolved path is the resolved root or lies below it; a failed resolution is unsafe. */
  function SafeUnderRoot(path: string, root: string, resolve: string -> Option<string>, sep: char): bool {
    match (resolve(root), resolve(path))
    case (Some(r), Some(p)) => p == r || StartsWith(p, r + [sep])
    case _ => false
  }

  /** A path whose resolution merely shares a prefix with the root (a sibling such as `reports2`) is not safe. */
  lemma SiblingNotSafe(path: string, root: string, resolve: string -> Option<string>, sep: char, r: string, tail: string)
    requires resolve(root) == Some(r) && resolve(path) == Some(r + tail)
    requires tail != [] && tail[0] != sep
    ensures !SafeUnderRoot(path, root, resolve, sep)
  {
    var p := r + tail;
    assert p != r by { assert |p| > |r|; }
    assert p[|r|] == tail[0];
  }

  /** A safe path resolves to the root itself or to a path inside it, one separator below. */
  lemma SafeIsInside(path: string, root: string, resolve: string -> Option<string>, sep: char)
    requires SafeUnderRoot(path, root, resolve, sep)
    ensures resolve(root).Some? && resolve(path).Some?
    ensures var r, p := resolve(root).value, resolve(path).value;
            p == r || (|p| > |r| && p[..|r|] == r && p[|r|] == sep)
  {
    var r, p := resolve(root).value, resolve(path).value;
    if p != r {
      assert p[..|r| + 1] == r + [sep];
      assert p[..|r|] == (r + [sep])[..|r|];
    }
  }

  /**
   * The cut between `ids[:-keep]` and `ids[-keep:]` for a list of n > keep ids,
   * by Python's slice rules: `-0` is 0, so keep = 0 removes nothing, and a
   * negative keep counts from the front.
   */
  function SplitPoint(n: nat, keep: int): (s: nat)
    requires n > keep
    ensures s <= n
  {
    if keep > 0 then n - keep
    else if keep == 0 then 0
    else if -keep < n then -keep
    else n
  }

  /** The ids larger (later in string order) than x. */
  ghost function Larger(all: set<string>, x: string): set<string> {
    set y | y in all && StrLt(x, y)
  }

  ghost function Smaller(all: set<string>, x: string): set<string> {
    set y | y in all && StrLt(y, x)
  }

  /**
   * Which ids `cleanup_reports` keeps, stated without a list: for keep > 0
   * those with fewer than keep larger ids, for keep = 0 all of them, for a
   * negative keep those with at least -keep smaller ids.
   */
  ghost predicate IsKept(all: set<string>, x: string, keep: int) {
    if keep > 0 then |Larger(all, x)| < keep
    else if keep == 0 then true
    else |Smaller(all, x)| >= -keep
  }

  /** The ids `cleanup_reports` keeps out of `all`. */
  ghost function KeptIds(all: set<string>, keep: int): set<string> {
    set x | x in all && IsKept(all, x, keep)
  }

  /** In a strictly sorted list, the ids larger than ids[i] are exactly those after it, and the smaller ones those before it. */
  lemma RankInSorted(ids: seq<string>, i: int)
    requires StrictlySorted(ids) && 0 <= i < |ids|
    ensures |Larger(Elems(ids), ids[i])| == |ids| - 1 - i
    ensures |Smaller(Elems(ids), ids[i])| == i
  {
    var all := Elems(ids);
    assert Larger(all, ids[i]) == Elems(ids[i + 1..]) by {
      forall y | y in all && StrLt(ids[i], y) ensures y in ids[i + 1..] {
        var j :| 0 <= j < |ids| && ids[j] == y;
        if j == i { StrLtIrreflexive(y); }
        else if j < i { StrLtTransitive(y, ids[i], y); StrLtIrreflexive(y); }
        else { assert ids[i + 1..][j - i - 1] == y; }
      }
      forall y | y in ids[i + 1..] ensures y in all && StrLt(ids[i], y) {
        var j :| 0 <= j < |ids[i + 1..]| && ids[i + 1..][j] == y;
        assert ids[i + 1 + j] == y;
      }
    }
    assert Smaller(all, ids[i]) == Elems(ids[..i]) by {
      forall y | y in all && StrLt(y, ids[i]) ensures y in ids[..i] {
        var j :| 0 <= j < |ids| && ids[j] == y;
        if j == i { StrLtIrreflexive(y); }
        else if j > i { StrLtTransitive(y, ids[i], y); StrLtIrreflexive(y); }
        else { assert ids[..i][j] == y; }
      }
      forall y | y in ids[..i] ensures y in all && StrLt(y, ids[i]) {
        var j :| 0 <= j < i && ids[..i][j] == y;
        assert ids[j] == y;
      }
    }
    SortedCard(ids[i + 1..]);
    SortedCard(ids[..i]);
  }

  /**
   * The slices `ids[:-keep]` and `ids[-keep:]` remove and keep exactly the
   * ids `IsKept` describes; together they cover the ids without overlap.
   */
  lemma SplitMatchesRank(ids: seq<string>, keep: int)
    requires StrictlySorted(ids) && |ids| > keep
    ensures var s := SplitPoint(|ids|, keep);
            forall i :: 0 <= i < |ids| ==> (i >= s <==> IsKept(Elems(ids), ids[i], keep))
    ensures var s := SplitPoint(|ids|, keep);
            Elems(ids[..s]) !! Elems(ids[s..])
    ensures var s := SplitPoint(|ids|, keep);
            Elems(ids[..s]) + Elems(ids[s..]) == Elems(ids)
  {
    var s := SplitPoint(|ids|, keep);
    forall i | 0 <= i < |ids| ensures i >= s <==> IsKept(Elems(ids), ids[i], keep) {
      RankInSorted(ids, i);
    }
    forall i, j | 0 <= i < s <= j < |ids| ensures ids[i] != ids[j] {
      StrLtIrreflexive(ids[i]);
    }
    forall x | x in ids[..s] ensures x !in ids[s..] {
      var i :| 0 <= i < s && ids[..s][i] == x;
      assert ids[i] == x;
      forall j | 0 <= j < |ids| - s ensures ids[s..][j] != x {
        assert ids[s..][j] == ids[s + j];
      }
    }
    assert ids == ids[..s] + ids[s..];
  }

  /** The kept slice, as a set, is the set of ids `IsKept` accepts. */
  lemma KeptByRank(ids: seq<string>, keep: int, all: set<string>)
    requires StrictlySorted(ids) && |ids| > keep && (forall x :: x in ids <==> x in all)
    ensures Elems(ids[SplitPoint(|ids|, keep)..]) == KeptIds(all, keep)
  {
    var s := SplitPoint(|ids|, keep);
    SplitMatchesRank(ids, keep);
    assert Elems(ids) == all;
    forall x | x in all ensures x in Elems(ids[s..]) <==> IsKept(all, x, keep) {
      var i :| 0 <= i < |ids| && ids[i] == x;
      if i >= s {
        assert ids[s..][i - s] == x;
      } else {
        assert ids[..s][i] == x;
      }
    }
  }

  /** `sorted(to_remove_ids)`: the ids not kept, in string order. */
  ghost function RemovedIds(all: set<string>, keep: int): seq<string> {
    SortedSet(all - KeptIds(all, keep))
  }

  /** The removed slice `all_run_ids[:-keep]` is already that sorted list. */
  lemma RemovedSlice(ids: seq<string>, keep: int, all: set<string>)
    requires StrictlySorted(ids) && |ids| > keep && (forall x :: x in ids <==> x in all)
    ensures ids[..SplitPoint(|ids|, keep)] == RemovedIds(all, keep)
  {
    var s := SplitPoint(|ids|, keep);
    SplitMatchesRank(ids, keep);
    KeptByRank(ids, keep, all);
    assert Elems(ids) == all;
    assert Elems(ids[..s]) == all - KeptIds(all, keep);
    assert StrictlySorted(ids[..s]) by {
      forall i, j | 0 <= i < j < s ensures StrLt(ids[..s][i], ids[..s][j]) {
        assert ids[..s][i] == ids[i] && ids[..s][j] == ids[j];
      }
    }
    StrictlySortedUnique(ids[..s], RemovedIds(all, keep));
  }

  /** The two artifact locations of a run: `burn_in/<id>` (a directory) and `live_shadow_compare/<id>.json`. */
  function BurnInDir(root: string, id: string, sep: char): string {
    root + [sep] + "burn_in" + [sep] + id
  }

  function CompareFile(root: string, id: string, sep: char): string {
    root + [sep] + "live_shadow_compare" + [sep] + id + ".json"
  }

  /** The candidate paths, in the order the deletion loop visits them. */
  function Candidates(root: string, ids: seq<string>, sep: char): (r: seq<string>)
    ensures |r| == 2 * |ids|
  {
    if ids == [] then []
    else Candidates(root, ids[..|ids| - 1], sep) + [BurnInDir(root, ids[|ids| - 1], sep), CompareFile(root, ids[|ids| - 1], sep)]
  }

  /** Where the reports live: the root, how paths resolve (`None` when resolution fails) and the separator. */
  datatype Layout = Layout(root: string, resolve: string -> Option<string>, sep: char)

  predicate Safe(lay: Layout, p: string) {
    SafeUnderRoot(p, lay.root, lay.resolve, lay.sep)
  }

  /** The state the deletion loop threads: artifacts still on disk, paths reported deleted, errors counted. */
  datatype Sweep = Sweep(present: set<string>, deleted: seq<string>, errors: nat)

  /**
   * One visit of the deletion loop. A missing path is skipped; an unsafe one
   * counts as an error; a safe one is reported and, unless dry-run, removed
   * (a removal that fails, as for the paths in `failing`, counts as an error).
   */
  function Visit(st: Sweep, p: string, lay: Layout, dryRun: bool, failing: set<string>): (r: Sweep)
    ensures r.present <= st.present
    ensures forall q :: q in st.present && q !in r.present ==> q == p && Safe(lay, p) && !dryRun && r.deleted == st.deleted + [p]
    ensures r.errors >= st.errors
  {
    if p !in st.present then st
    else if !Safe(lay, p) then Sweep(st.present, st.deleted, st.errors + 1)
    else if dryRun then Sweep(st.present, st.deleted + [p], st.errors)
    else if p in failing then Sweep(st.present, st.deleted + [p], st.errors + 1)
    else Sweep(st.present - {p}, st.deleted + [p], st.errors)
  }

  function SweepAll(st: Sweep, cs: seq<string>, lay: Layout, dryRun: bool, failing: set<string>): Sweep
  {
    if cs == [] then st else Visit(SweepAll(st, cs[..|cs| - 1], lay, dryRun, failing), cs[|cs| - 1], lay, dryRun, failing)
  }

  /**
   * The deletion loop never removes a path that is not safely under the
   * root, removes nothing on a dry run, and reports only safe paths that
   * existed.
   */
  lemma {:induction false} SweepIsSafe(st: Sweep, cs: seq<string>, lay: Layout, dryRun: bool, failing: set<string>)
    ensures var r := SweepAll(st, cs, lay, dryRun, failing);
            && r.present <= st.present
            && (forall q :: q in st.present && q !in r.present ==> Safe(lay, q) && q in cs && q in r.deleted)
            && (dryRun ==> r.present == st.present)
            && |r.deleted| >= |st.deleted| && r.deleted[..|st.deleted|] == st.deleted
            && (forall i :: |st.deleted| <= i < |r.deleted| ==> Safe(lay, r.deleted[i]) && r.deleted[i] in st.present && r.deleted[i] in cs)
    decreases |cs|
  {
    if cs != [] {
      var init := cs[..|cs| - 1];
      SweepIsSafe(st, init, lay, dryRun, failing);
      var mid := SweepAll(st, init, lay, dryRun, failing);
      var r := Visit(mid, cs[|cs| - 1], lay, dryRun, failing);
      assert forall q :: q in init ==> q in cs;
      assert r.deleted == mid.deleted || r.deleted == mid.deleted + [cs[|cs| - 1]];
      assert r.deleted[..|mid.deleted|] == mid.deleted;
      assert r.deleted[..|st.deleted|] == mid.deleted[..|st.deleted|];
      assert forall q :: q in mid.deleted ==> q in r.deleted;
    }
  }

  /**
   * What the deletion loop promises about the artifacts: on a dry run none
   * go; otherwise only existing paths safely under the root go, each of them
   * reported in `deleted`, and every reported path is one of those.
   */
  ghost predicate DeletionSafe(before: set<string>, after: set<string>, deleted: seq<string>, lay: Layout, dryRun: bool) {
    && (dryRun ==> after == before)
    && after <= before
    && (forall q :: q in before && q !in after ==> Safe(lay, q) && q in deleted)
    && (forall p :: p in deleted ==> Safe(lay, p) && p in before)
  }

  /** `SweepIsSafe` for a loop that starts with nothing deleted, stated by membership. */
  lemma SweepFromStart(present: set<string>, cs: seq<string>, lay: Layout, dryRun: bool, failing: set<string>)
    ensures var r := SweepAll(Sweep(present, [], 0), cs, lay, dryRun, failing);
            DeletionSafe(present, r.present, r.deleted, lay, dryRun)
  {
    SweepIsSafe(Sweep(present, [], 0), cs, lay, dryRun, failing);
    var r := SweepAll(Sweep(present, [], 0), cs, lay, dryRun, failing);
    forall p | p in r.deleted ensures Safe(lay, p) && p in present {
      var i :| 0 <= i < |r.deleted| && r.deleted[i] == p;
    }
  }

  /** The candidates a deleting run can remove: those safely under the root whose removal does not fail. */
  function Removable(cs: seq<string>, lay: Layout, failing: set<string>): set<string> {
    set p | p in cs && Safe(lay, p) && p !in failing
  }

  /** Outside a dry run the loop removes exactly the removable candidates. */
  lemma {:induction false} SweepRemoves(st: Sweep, cs: seq<string>, lay: Layout, failing: set<string>)
    ensures SweepAll(st, cs, lay, false, failing).present == st.present - Removable(cs, lay, failing)
    decreases |cs|
  {
    if cs != [] {
      var init, p := cs[..|cs| - 1], cs[|cs| - 1];
      SweepRemoves(st, init, lay, failing);
      assert cs == init + [p];
      assert Removable(cs, lay, failing) == Removable(init, lay, failing) + (if Safe(lay, p) && p !in failing then {p} else {});
    }
  }

  /** The reports directory: artifact paths that exist, and the index file. */
  class ReportsTree {
    var artifacts: set<string>
    var indexFile: IndexFile

    constructor (artifacts0: set<string>, indexFile0: IndexFile)
      ensures artifacts == artifacts0 && indexFile == indexFile0
    {
      artifacts := artifacts0;
      indexFile := indexFile0;
    }

    /**
     * The deletion loop of `cleanup_reports` over the removed ids in sorted
     * order, each id visiting its two artifact locations.
     */
    method DeleteArtifacts(lay: Layout, removed: seq<string>, dryRun: bool, failing: set<string>)
      returns (deleted: seq<string>, errors: nat)
      modifies this
      ensures var r := SweepAll(Sweep(old(artifacts), [], 0), Candidates(lay.root, removed, lay.sep), lay, dryRun, failing);
              artifacts == r.present && deleted == r.deleted && errors == r.errors
      ensures indexFile == old(indexFile)
      ensures DeletionSafe(old(artifacts), artifacts, deleted, lay, dryRun)
    {
      deleted, errors := [], 0;
      var i := 0;
      while i < |removed|
        invariant 0 <= i <= |removed|
        invariant indexFile == old(indexFile)
        invariant Sweep(artifacts, deleted, errors)
                  == SweepAll(Sweep(old(artifacts), [], 0), Candidates(lay.root, removed[..i], lay.sep), lay, dryRun, failing)
      {
        assert removed[..i + 1][..i] == removed[..i];
        var dir := BurnInDir(lay.root, removed[i], lay.sep);
        var file := CompareFile(lay.root, removed[i], lay.sep);
        ghost var cs := Candidates(lay.root, removed[..i], lay.sep);
        assert Candidates(lay.root, removed[..i + 1], lay.sep) == cs + [dir, file];
        assert (cs + [dir, file])[..|cs| + 1] == cs + [dir];
        assert (cs + [dir])[..|cs|] == cs;
        deleted, errors := VisitPath(lay, dir, deleted, errors, dryRun, failing);
        deleted, errors := VisitPath(lay, file, deleted, errors, dryRun, failing);
        i := i + 1;
      }
      assert removed[..i] == removed;
      SweepFromStart(old(artifacts), Candidates(lay.root, removed, lay.sep), lay, dryRun, failing);
    }

    /** `save_index`, reached only when not dry-run, the index file exists and its path is safe. */
    method SaveIfAllowed(lay: Layout, index: Dict, dryRun: bool, indexPath: string)
      modifies this
      ensures artifacts == old(artifacts)
      ensures indexFile == if !dryRun && old(indexFile) != Missing && Safe(lay, indexPath) then Parsed(JObj(index))
                           else old(indexFile)
    {
      if !dryRun && indexFile != Missing && Safe(lay, indexPath) {
        indexFile := Parsed(JObj(index));
      }
    }

    method VisitPath(lay: Layout, p: string, deleted0: seq<string>, errors0: nat, dryRun: bool, failing: set<string>)
      returns (deleted: seq<string>, errors: nat)
      modifies this
      ensures Sweep(artifacts, deleted, errors) == Visit(Sweep(old(artifacts), deleted0, errors0), p, lay, dryRun, failing)
      ensures indexFile == old(indexFile)
    {
      deleted, errors := deleted0, errors0;
      if p !in artifacts {
        return;
      }
      if !Safe(lay, p) {
        errors := errors + 1;
        return;
      }
      deleted := deleted + [p];
      if !dryRun {
        if p in failing {
          errors := errors + 1;
        } else {
          artifacts := artifacts - {p};
        }
      }
    }
  }

  /** Whether the pruned lists keep an entry: a dict whose run_id is a kept id. */
  predicate KeepEntry(e: Json, kept: set<string>) {
    e.JObj? && Get(e.fields, "run_id").JStr? && Get(e.fields, "run_id").s in kept
  }

  function PruneList(items: seq<Json>, kept: set<string>): (r: seq<Json>)
    ensures forall x :: x in r <==> x in items && KeepEntry(x, kept)
    ensures |r| <= |items|
  {
    if items == [] then []
    else
      var rest := PruneList(items[..|items| - 1], kept);
      assert forall x :: x in items <==> x in items[..|items| - 1] || x == items[|items| - 1] by {
        assert items == items[..|items| - 1] + [items[|items| - 1]];
      }
      rest + (if KeepEntry(items[|items| - 1], kept) then [items[|items| - 1]] else [])
  }

  /** Pruning keeps the original order: it distributes over concatenation. */
  lemma {:induction false} PruneListAppend(a: seq<Json>, b: seq<Json>, kept: set<string>)
    ensures PruneList(a + b, kept) == PruneList(a, kept) + PruneList(b, kept)
    decreases |b|
  {
    if b != [] {
      var b' := b[..|b| - 1];
      assert (a + b)[..|a + b| - 1] == a + b';
      assert (a + b)[|a + b| - 1] == b[|b| - 1];
      PruneListAppend(a, b', kept);
    } else {
      assert a + b == a;
    }
  }

  /** The run id of the last entry of a list, or `None` for an empty or missing list. */
  function LatestOf(d: Dict, key: string): Json {
    if Get(d, key).JArr? && |Get(d, key).items| > 0 then EntryRunId(Get(d, key).items[|Get(d, key).items| - 1])
    else JNull
  }

  /** One list of the pruning loop: filter the list if it is one, then reset its latest key. */
  function PruneStep(d: Dict, key: string, kept: set<string>): Dict
    requires key in LatestKeyOf
  {
    var d1 := if Get(d, key).JArr? then d[key := JArr(PruneList(d[key].items, kept))] else d;
    d1[LatestKeyOf[key] := LatestOf(d1, key)]
  }

  function PruneFrom(d: Dict, keys: seq<string>, kept: set<string>): Dict
    requires KnownLists(keys)
    decreases |keys|
  {
    if keys == [] then d else PruneFrom(PruneStep(d, keys[0], kept), keys[1..], kept)
  }

  /** The pruning loop of `cleanup_reports`, run on the loaded index. */
  method PruneIndex(index: Dict, kept: set<string>) returns (r: Dict)
    ensures r == PruneFrom(index, AllListKeys, kept)
  {
    AllListsKnown();
    r := PruneLists(index, AllListKeys, kept);
  }

  /** The loop over the run lists. */
  method PruneLists(index: Dict, keys: seq<string>, kept: set<string>) returns (r: Dict)
    requires KnownLists(keys)
    ensures r == PruneFrom(index, keys, kept)
  {
    r := index;
    var i := 0;
    while i < |keys|
      invariant 0 <= i <= |keys|
      invariant PruneFrom(r, keys[i..], kept) == PruneFrom(index, keys, kept)
    {
      assert keys[i..][1..] == keys[i + 1..];
      r := PruneOne(r, keys[i], kept);
      i := i + 1;
    }
  }

  /** One turn of the loop: filter the list if it is one, then re-point its latest key. */
  method PruneOne(d: Dict, key: string, kept: set<string>) returns (r: Dict)
    requires key in LatestKeyOf
    ensures r == PruneStep(d, key, kept)
  {
    r := d;
    var runs := Get(r, key);
    if runs.JArr? {
      r := r[key := JArr(PruneList(runs.items, kept))];
    }
    var latest := Get(r, key);
    if latest.JArr? && |latest.items| > 0 {
      r := r[LatestKeyOf[key] := EntryRunId(latest.items[|latest.items| - 1])];
    } else {
      r := r[LatestKeyOf[key] := JNull];
    }
  }

  /** Whether a key belongs to one of the lists in `keys` (the list or its latest id). */
  predicate Touched(keys: seq<string>, x: string)
    requires KnownLists(keys)
  {
    exists i :: 0 <= i < |keys| && (x == keys[i] || x == LatestKeyOf[keys[i]])
  }

  /** Pruning the lists `keys` leaves every other key alone. */
  lemma {:induction false} PruneFromUntouched(d: Dict, keys: seq<string>, kept: set<string>, x: string)
    requires KnownLists(keys) && !Touched(keys, x)
    ensures Get(PruneFrom(d, keys, kept), x) == Get(d, x)
    decreases |keys|
  {
    if keys != [] {
      var rest := keys[1..];
      assert !Touched(rest, x) by {
        forall i | 0 <= i < |rest| ensures x != rest[i] && x != LatestKeyOf[rest[i]] { assert rest[i] == keys[i + 1]; }
      }
      PruneFromUntouched(PruneStep(d, keys[0], kept), rest, kept, x);
    }
  }

  /** The run lists and their latest keys are all different names. */
  ghost predicate Separate(keys: seq<string>) {
    && KnownLists(keys)
    && forall i, j :: 0 <= i < |keys| && 0 <= j < |keys| ==>
         && LatestKeyOf[keys[i]] != keys[j]
         && (i != j ==> keys[i] != keys[j] && LatestKeyOf[keys[i]] != LatestKeyOf[keys[j]])
  }

  lemma AllListsSeparate()
    ensures Separate(AllListKeys)
  {
    AllListsKnown();
    ListNamesDistinct();
    LatestNamesDistinct();
    LatestNamesNotLists();
  }

  lemma ListNamesDistinct()
    ensures forall i, j :: 0 <= i < |AllListKeys| && 0 <= j < |AllListKeys| && i != j ==> AllListKeys[i] != AllListKeys[j]
  {
  }

  lemma LatestNamesDistinct()
    ensures forall i, j :: 0 <= i < |AllListKeys| && 0 <= j < |AllListKeys| && i != j ==>
              AllListKeys[i] in LatestKeyOf && AllListKeys[j] in LatestKeyOf && LatestKeyOf[AllListKeys[i]] != LatestKeyOf[AllListKeys[j]]
  {
  }

  lemma LatestNamesNotLists()
    ensures forall i, j :: 0 <= i < |AllListKeys| && 0 <= j < |AllListKeys| ==>
              AllListKeys[i] in LatestKeyOf && LatestKeyOf[AllListKeys[i]] != AllListKeys[j]
  {
  }

  /** One step of the pruning loop touches only its list and that list's latest key. */
  lemma PruneStepFacts(d: Dict, k: string, kept: set<string>)
    requires k in LatestKeyOf && LatestKeyOf[k] != k
    ensures var d1 := PruneStep(d, k, kept);
            && (Get(d, k).JArr? ==> Get(d1, k) == JArr(PruneList(d[k].items, kept)))
            && (!Get(d, k).JArr? ==> Get(d1, k) == Get(d, k))
            && Get(d1, LatestKeyOf[k]) == LatestOf(d1, k)
            && forall x :: x != k && x != LatestKeyOf[k] ==> Get(d1, x) == Get(d, x)
  {
  }

  lemma SeparateTail(keys: seq<string>)
    requires Separate(keys) && keys != []
    ensures Separate(keys[1..])
  {
    var rest := keys[1..];
    assert forall k :: k in rest ==> k in keys;
    forall i, j | 0 <= i < |rest| && 0 <= j < |rest|
      ensures LatestKeyOf[rest[i]] != rest[j] && (i != j ==> rest[i] != rest[j] && LatestKeyOf[rest[i]] != LatestKeyOf[rest[j]])
    {
      assert rest[i] == keys[i + 1] && rest[j] == keys[j + 1];
    }
  }

  lemma HeadUntouched(keys: seq<string>)
    requires Separate(keys) && keys != []
    ensures KnownLists(keys[1..])
    ensures !Touched(keys[1..], keys[0]) && !Touched(keys[1..], LatestKeyOf[keys[0]])
    ensures LatestKeyOf[keys[0]] != keys[0]
  {
    var rest := keys[1..];
    assert forall k :: k in rest ==> k in keys;
    forall i | 0 <= i < |rest|
      ensures keys[0] != rest[i] && keys[0] != LatestKeyOf[rest[i]]
      ensures LatestKeyOf[keys[0]] != rest[i] && LatestKeyOf[keys[0]] != LatestKeyOf[rest[i]]
    {
      assert rest[i] == keys[i + 1];
    }
  }

  /** After pruning, list keys[i] holds exactly its kept entries in order, and its latest key names the last of them. */
  lemma {:induction false} PruneFromAt(d: Dict, keys: seq<string>, kept: set<string>, i: int)
    requires Separate(keys) && 0 <= i < |keys|
    ensures var r, k := PruneFrom(d, keys, kept), keys[i];
            && (Get(d, k).JArr? ==> Get(r, k) == JArr(PruneList(d[k].items, kept)))
            && (!Get(d, k).JArr? ==> Get(r, k) == Get(d, k))
            && Get(r, LatestKeyOf[k]) == LatestOf(r, k)
    decreases i
  {
    if i == 0 {
      PruneFromAtHead(d, keys, kept);
    } else {
      var k0, rest := keys[0], keys[1..];
      SeparateTail(keys);
      HeadUntouched(keys);
      PruneStepFacts(d, k0, kept);
      var d1 := PruneStep(d, k0, kept);
      assert PruneFrom(d1, rest, kept) == PruneFrom(d, keys, kept);
      PruneFromAt(d1, rest, kept, i - 1);
      assert rest[i - 1] == keys[i];
      assert keys[i] != k0 && keys[i] != LatestKeyOf[k0];
    }
  }

  /** The first list is pruned by the first step, and the later steps leave it and its latest key alone. */
  lemma PruneFromAtHead(d: Dict, keys: seq<string>, kept: set<string>)
    requires Separate(keys) && keys != []
    ensures var r, k := PruneFrom(d, keys, kept), keys[0];
            && (Get(d, k).JArr? ==> Get(r, k) == JArr(PruneList(d[k].items, kept)))
            && (!Get(d, k).JArr? ==> Get(r, k) == Get(d, k))
            && Get(r, LatestKeyOf[k]) == LatestOf(r, k)
  {
    var k0, rest := keys[0], keys[1..];
    HeadUntouched(keys);
    PruneStepFacts(d, k0, kept);
    var d1 := PruneStep(d, k0, kept);
    assert PruneFrom(d1, rest, kept) == PruneFrom(d, keys, kept);
    PruneFromUntouched(d1, rest, kept, k0);
    PruneFromUntouched(d1, rest, kept, LatestKeyOf[k0]);
  }

  /** The pruning specification for all nine run lists. */
  lemma PruneIndexSpec(d: Dict, kept: set<string>)
    ensures var r := PruneFrom(d, AllListKeys, kept);
            forall k :: k in AllListKeys ==>
              && (Get(d, k).JArr? ==> Get(r, k) == JArr(PruneList(d[k].items, kept)))
              && (!Get(d, k).JArr? ==> Get(r, k) == Get(d, k))
              && Get(r, LatestKeyOf[k]) == LatestOf(r, k)
  {
    AllListsSeparate();
    PruneSpecFor(d, AllListKeys, kept);
  }

  /** The same for any lists whose names are all different. */
  lemma PruneSpecFor(d: Dict, keys: seq<string>, kept: set<string>)
    requires Separate(keys)
    ensures var r := PruneFrom(d, keys, kept);
            forall k :: k in keys ==>
              && (Get(d, k).JArr? ==> Get(r, k) == JArr(PruneList(d[k].items, kept)))
              && (!Get(d, k).JArr? ==> Get(r, k) == Get(d, k))
              && Get(r, LatestKeyOf[k]) == LatestOf(r, k)
  {
    forall k | k in keys
      ensures var r := PruneFrom(d, keys, kept);
              && (Get(d, k).JArr? ==> Get(r, k) == JArr(PruneList(d[k].items, kept)))
              && (!Get(d, k).JArr? ==> Get(r, k) == Get(d, k))
              && Get(r, LatestKeyOf[k]) == LatestOf(r, k)
    {
      var i :| 0 <= i < |keys| && keys[i] == k;
      PruneFromAt(d, keys, kept, i);
    }
  }

  /**
   * What `cleanup_reports` promises for resolved keep_last_n and dry_run,
   * from the tree before (`a0`, `f0`) to the tree after (`a1`, `f1`), with the
   * returned index, deleted paths and error count.
   */
  ghost predicate Cleaned(a0: set<string>, f0: IndexFile, a1: set<string>, f1: IndexFile, lay: Layout, keep: int,
                          dryRun: bool, indexPath: string, failing: set<string>,
                          result: Result<Dict, string>, deleted: seq<string>, errors: nat)
  {
    var loaded := LoadIndexAll(f0);
    // a load error is passed on and nothing changes
    && (result.Err? <==> loaded.Err?)
    && (loaded.Err? ==> a1 == a0 && f1 == f0 && deleted == [] && errors == 0)
    && (loaded.Ok? ==>
          var all := IdsAcross(loaded.value, AllListKeys);
          if |all| <= keep then
            // no more ids than keep_last_n: the index as loaded, and nothing changes
            result == loaded && deleted == [] && errors == 0 && a1 == a0 && f1 == f0
          else
            // the removed ids' candidates are swept in sorted order ...
            var cs := Candidates(lay.root, RemovedIds(all, keep), lay.sep);
            var r := SweepAll(Sweep(a0, [], 0), cs, lay, dryRun, failing);
            && a1 == r.present && deleted == r.deleted && errors == r.errors
            && (!dryRun ==> a1 == a0 - Removable(cs, lay, failing))
            // ... the index is pruned to the kept ids ...
            && result.value == PruneFrom(loaded.value, AllListKeys, KeptIds(all, keep))
            // ... and saved exactly when not dry-run, the file exists and its path is safe
            && f1 == if !dryRun && f0 != Missing && Safe(lay, indexPath) then Parsed(JObj(result.value)) else f0)
    // however the run goes: a dry run neither deletes nor saves, and only reported paths safely under the root go
    && DeletionSafe(a0, a1, deleted, lay, dryRun)
    && (dryRun ==> f1 == f0)
  }

  /**
   * `cleanup_reports(reports_dir, keep_last_n, dry_run, index_path)`: an
   * absent keep_last_n or dry_run is read from REPORT_RETENTION_COUNT or
   * REPORT_RETENTION_DRY_RUN. The reports root is inside `lay`; deleting a
   * path in `failing` raises `OSError`.
   */
  method CleanupReports(tree: ReportsTree, lay: Layout, keepLastN: Option<int>, dryRunArg: Option<bool>,
                        countEnv: Option<string>, dryRunEnv: Option<string>, indexPath: string, failing: set<string>)
    returns (result: Result<Dict, string>, deleted: seq<string>, errors: nat)
    modifies tree
    ensures Cleaned(old(tree.artifacts), old(tree.indexFile), tree.artifacts, tree.indexFile, lay,
                    KeepLastN(keepLastN, countEnv), DryRunOf(dryRunArg, dryRunEnv), indexPath, failing,
                    result, deleted, errors)
  {
    var keep := KeepLastN(keepLastN, countEnv);
    var dryRun := DryRunOf(dryRunArg, dryRunEnv);
    result, deleted, errors := CleanupResolved(tree, lay, keep, dryRun, indexPath, failing);
  }

  /** `cleanup_reports` past its defaults: load, collect, return early or delete, prune and save. */
  method CleanupResolved(tree: ReportsTree, lay: Layout, keep: int, dryRun: bool, indexPath: string, failing: set<string>)
    returns (result: Result<Dict, string>, deleted: seq<string>, errors: nat)
    modifies tree
    ensures Cleaned(old(tree.artifacts), old(tree.indexFile), tree.artifacts, tree.indexFile, lay, keep, dryRun,
                    indexPath, failing, result, deleted, errors)
  {
    var loaded := LoadIndexAll(tree.indexFile);
    if loaded.Err? {
      return Err(loaded.error), [], 0;
    }
    var index := loaded.value;
    var ids := CollectRunIds(index);
    ghost var all := IdsAcross(index, AllListKeys);
    RunIdCount(ids, all);
    if |ids| <= keep {
      return Ok(index), [], 0;
    }
    var pruned;
    pruned, deleted, errors := PruneAndDelete(tree, lay, index, ids, all, keep, dryRun, indexPath, failing);
    result := Ok(pruned);
  }

  lemma RunIdCount(ids: seq<string>, all: set<string>)
    requires StrictlySorted(ids) && forall x :: x in ids <==> x in all
    ensures |ids| == |all|
  {
    assert Elems(ids) == all;
    SortedCard(ids);
  }

  /** The part of `cleanup_reports` past the early return: delete, prune, save. */
  method PruneAndDelete(tree: ReportsTree, lay: Layout, index: Dict, ids: seq<string>, ghost all: set<string>,
                        keep: int, dryRun: bool, indexPath: string, failing: set<string>)
    returns (pruned: Dict, deleted: seq<string>, errors: nat)
    requires StrictlySorted(ids) && (forall x :: x in ids <==> x in all) && |ids| > keep
    modifies tree
    ensures var cs := Candidates(lay.root, RemovedIds(all, keep), lay.sep);
            var r := SweepAll(Sweep(old(tree.artifacts), [], 0), cs, lay, dryRun, failing);
            && tree.artifacts == r.present && deleted == r.deleted && errors == r.errors
            && (!dryRun ==> tree.artifacts == old(tree.artifacts) - Removable(cs, lay, failing))
    ensures DeletionSafe(old(tree.artifacts), tree.artifacts, deleted, lay, dryRun)
    ensures pruned == PruneFrom(index, AllListKeys, KeptIds(all, keep))
    ensures tree.indexFile == if !dryRun && old(tree.indexFile) != Missing && Safe(lay, indexPath) then Parsed(JObj(pruned))
                              else old(tree.indexFile)
  {
    var s := SplitPoint(|ids|, keep);
    var removed := ids[..s];
    var kept := Elems(ids[s..]);
    KeptByRank(ids, keep, all);
    RemovedSlice(ids, keep, all);
    deleted, errors := tree.DeleteArtifacts(lay, removed, dryRun, failing);
    SweepRemoves(Sweep(old(tree.artifacts), [], 0), Candidates(lay.root, removed, lay.sep), lay, failing);
    pruned := PruneIndex(index, kept);
    tree.SaveIfAllowed(lay, pruned, dryRun, indexPath);
  }
}
