/**
 * The reports index (`reports/index.json`): a dictionary holding one list of
 * run entries per kind of run and, for each list, the id of the latest run.
 * `load_index` normalises what was read; the `append_*` functions add one
 * entry to a list in place and set the matching `latest_*` key.
 */
module IndexStore {
  import opened Wrappers
  import opened Json

  /** The run lists `load_index` keeps, in its order. */
  const LoadedListKeys: seq<string> := [
    "runs", "live_shadow_runs", "live_shadow_analyze_runs", "activation_runs",
    "burn_in_runs", "provider_parity_runs", "quality_audit_runs"]

  /** Every run list the reports code knows about (the retention code's list). */
  const AllListKeys: seq<string> := [
    "runs", "live_shadow_runs", "live_shadow_analyze_runs", "activation_runs",
    "burn_in_runs", "provider_parity_runs", "quality_audit_runs",
    "burn_in_ops_runs", "tuning_plan_runs"]

  /** The `latest_*` key that belongs to each run list. */
  const LatestKeyOf: map<string, string> := map[
    "runs" := "latest_run_id",
    "live_shadow_runs" := "latest_live_shadow_run_id",
    "live_shadow_analyze_runs" := "latest_live_shadow_analyze_run_id",
    "activation_runs" := "latest_activation_run_id",
    "burn_in_runs" := "latest_burn_in_run_id",
    "provider_parity_runs" := "latest_provider_parity_run_id",
    "quality_audit_runs" := "latest_quality_audit_run_id",
    "burn_in_ops_runs" := "latest_burn_in_ops_run_id",
    "tuning_plan_runs" := "latest_tuning_plan_run_id"]

  /** What reading the index file gives. */
  datatype IndexFile =
    | Missing              // the path does not exist
    | Unreadable           // OSError on reading, or text that is not JSON
    | Parsed(value: Json)  // the decoded JSON document

  ghost predicate KnownLists(keys: seq<string>) {
    forall k :: k in keys ==> k in LatestKeyOf
  }

  /** The keys of a loaded index: each run list and its latest id. */
  function IndexKeys(keys: seq<string>): (r: set<string>)
    requires KnownLists(keys)
    ensures forall k :: k in keys ==> k in r && LatestKeyOf[k] in r
    ensures forall x :: x in r ==> exists k :: k in keys && (x == k || x == LatestKeyOf[k])
  {
    if keys == [] then {} else {keys[0], LatestKeyOf[keys[0]]} + IndexKeys(keys[1..])
  }

  /** Each list key holds a list. */
  ghost predicate Normalized(keys: seq<string>, d: Dict) {
    forall k :: k in keys ==> k in d && d[k].JArr?
  }

  /** `load_index` on a readable JSON object, keeping the given run lists. */
  function Normalize(keys: seq<string>, d: Dict): (r: Dict)
    requires KnownLists(keys)
    ensures r.Keys == IndexKeys(keys)
    ensures Normalized(keys, r)
    ensures forall k :: k in keys && Get(d, k).JArr? ==> r[k] == d[k]
    ensures forall k :: k in keys && !Get(d, k).JArr? ==> r[k] == JArr([])
    ensures forall k :: k in keys && LatestKeyOf[k] !in keys ==> r[LatestKeyOf[k]] == Get(d, LatestKeyOf[k])
  {
    map k | k in IndexKeys(keys) :: if k in keys then (if Get(d, k).JArr? then Get(d, k) else JArr([])) else Get(d, k)
  }

  /** The index `load_index` returns when the file is missing or unreadable. */
  function EmptyIndex(keys: seq<string>): (r: Dict)
    requires KnownLists(keys)
    ensures r.Keys == IndexKeys(keys)
    ensures forall k :: k in keys ==> r[k] == JArr([])
    ensures forall k :: k in keys && LatestKeyOf[k] !in keys ==> r[LatestKeyOf[k]] == JNull
  {
    Normalize(keys, map[])
  }

  /**
   * `load_index` keeping the lists `keys`. A JSON document that is not an
   * object makes `data.get` raise, which the code does not catch: `Err`.
   */
  function LoadIndexWith(keys: seq<string>, f: IndexFile): (r: Result<Dict, string>)
    requires KnownLists(keys)
    ensures r.Ok? <==> !(f.Parsed? && !f.value.JObj?)
    ensures f.Missing? || f.Unreadable? ==> r == Ok(EmptyIndex(keys))
    ensures r.Ok? ==> r.value.Keys == IndexKeys(keys) && Normalized(keys, r.value)
    ensures f.Parsed? && f.value.JObj? ==> r == Ok(Normalize(keys, f.value.fields))
  {
    match f
    case Missing => Ok(EmptyIndex(keys))
    case Unreadable => Ok(EmptyIndex(keys))
    case Parsed(JObj(d)) => Ok(Normalize(keys, d))
    case Parsed(_) => Err("AttributeError: loaded index is not a dict")
  }

  /** `load_index` as written: only the seven lists of `LoadedListKeys` survive. */
  function LoadIndex(f: IndexFile): (r: Result<Dict, string>)
    ensures r.Ok? <==> !(f.Parsed? && !f.value.JObj?)
    ensures r.Ok? ==> r.value.Keys == IndexKeys(LoadedListKeys)
    ensures r.Ok? ==> forall k :: k in LoadedListKeys ==> r.value[k].JArr?
    ensures f.Missing? || f.Unreadable? ==> KnownLists(LoadedListKeys) && r == Ok(EmptyIndex(LoadedListKeys))
    ensures f.Parsed? && f.value.JObj? ==>
              forall k :: k in LoadedListKeys && Get(f.value.fields, k).JArr? ==> r.value[k] == f.value.fields[k]
  {
    AllListsKnown();
    LoadIndexWith(LoadedListKeys, f)
  }

  lemma AllListsKnown()
    ensures KnownLists(AllListKeys) && KnownLists(LoadedListKeys)
  {
  }

  /**
   * `load_index` keeping every run list the reports code writes, including
   * `burn_in_ops_runs` and `tuning_plan_runs`; the rest of this model loads
   * the index through this function.
   */
  function LoadIndexAll(f: IndexFile): (r: Result<Dict, string>)
    ensures r.Ok? ==> forall k :: k in AllListKeys ==> k in r.value && r.value[k].JArr?
    ensures f.Parsed? && f.value.JObj? ==>
              r.Ok? && forall k :: k in AllListKeys && Get(f.value.fields, k).JArr? ==> r.value[k] == f.value.fields[k]
  {
    AllListsKnown();
    LoadIndexWith(AllListKeys, f)
  }

  /**
   * As written, `load_index` drops the `burn_in_ops_runs` list (and its
   * latest id) from an index file that holds one.
   */
  lemma LoadIndexDropsOpsRuns(d: Dict)
    ensures LoadIndex(Parsed(JObj(d))).Ok?
    ensures "burn_in_ops_runs" !in LoadIndex(Parsed(JObj(d))).value
    ensures "latest_burn_in_ops_run_id" !in LoadIndex(Parsed(JObj(d))).value
  {
    OpsNamesNotLoaded();
    NotIndexKey("burn_in_ops_runs", LoadedListKeys);
    NotIndexKey("latest_burn_in_ops_run_id", LoadedListKeys);
  }

  /** The corrected loader keeps that list whenever it holds a list. */
  lemma LoadIndexAllKeepsOpsRuns(d: Dict)
    requires "burn_in_ops_runs" in d && d["burn_in_ops_runs"].JArr?
    ensures LoadIndexAll(Parsed(JObj(d))).Ok?
    ensures LoadIndexAll(Parsed(JObj(d))).value["burn_in_ops_runs"] == d["burn_in_ops_runs"]
  {
    assert AllListKeys[7] == "burn_in_ops_runs";
  }

  /** Each run list of a loaded index is the file's list, or empty where the file holds no list. */
  lemma LoadIndexAllList(d: Dict, i: nat)
    requires i < |AllListKeys|
    ensures LoadIndexAll(Parsed(JObj(d))).Ok?
    ensures Get(LoadIndexAll(Parsed(JObj(d))).value, AllListKeys[i]) ==
              if Get(d, AllListKeys[i]).JArr? then Get(d, AllListKeys[i]) else JArr([])
  {
    AllListsKnown();
    var k := AllListKeys[i];
    assert k in AllListKeys;
    assert LoadIndexAll(Parsed(JObj(d))) == Ok(Normalize(AllListKeys, d));
  }

  /** The same for `load_index` as written. */
  lemma LoadIndexList(d: Dict, i: nat)
    requires i < |LoadedListKeys|
    ensures LoadIndex(Parsed(JObj(d))).Ok?
    ensures Get(LoadIndex(Parsed(JObj(d))).value, LoadedListKeys[i]) ==
              if Get(d, LoadedListKeys[i]).JArr? then Get(d, LoadedListKeys[i]) else JArr([])
  {
    AllListsKnown();
    var k := LoadedListKeys[i];
    assert k in LoadedListKeys;
    assert LoadIndex(Parsed(JObj(d))) == Ok(Normalize(LoadedListKeys, d));
  }

  lemma OpsNamesNotLoaded()
    ensures forall k :: k in LoadedListKeys ==> "burn_in_ops_runs" != k && "burn_in_ops_runs" != LatestKeyOf[k]
    ensures forall k :: k in LoadedListKeys ==> "latest_burn_in_ops_run_id" != k && "latest_burn_in_ops_run_id" != LatestKeyOf[k]
  {
  }

  lemma {:induction false} NotIndexKey(x: string, keys: seq<string>)
    requires KnownLists(keys)
    requires forall k :: k in keys ==> x != k && x != LatestKeyOf[k]
    ensures x !in IndexKeys(keys)
  {
  }

  /** Loading an index that `load_index` produced (and `save_index` wrote) gives it back. */
  lemma LoadNormalizedIsIdentity(keys: seq<string>, d: Dict)
    requires KnownLists(keys)
    ensures LoadIndexWith(keys, Parsed(JObj(Normalize(keys, d)))) == Ok(Normalize(keys, d))
  {
    var n := Normalize(keys, d);
    var n2 := Normalize(keys, n);
    forall k | k in IndexKeys(keys) ensures n2[k] == n[k] {
      if k !in keys {
        assert n2[k] == Get(n, k);
      }
    }
    assert n2 == n;
  }

  /**
   * `index.get(key) or []`: a falsy value reads as a fresh empty list; a truthy
   * value that is not a list has no `append`, so the call raises (`None`).
   */
  function ExistingList(d: Dict, key: string): (r: Option<seq<Json>>)
    ensures r.Some? <==> (!Truthy(Get(d, key)) || Get(d, key).JArr?)
    ensures Get(d, key).JArr? ==> r == Some(Get(d, key).items)
  {
    var v := Get(d, key);
    if !Truthy(v) then Some([]) else if v.JArr? then Some(v.items) else None
  }

  /** The entry `append_run` builds: six copied fields, plus live_io_alerts_count when it is given. */
  function RunEntry(meta: Dict): (e: Dict)
    ensures e.Keys == {"run_id", "created_at_utc", "connector_name", "matches_count",
                       "batch_output_checksum", "alerts_count"}
                      + (if Get(meta, "live_io_alerts_count") != JNull then {"live_io_alerts_count"} else {})
    ensures forall k :: k in e ==> e[k] == Get(meta, k)
  {
    var base := map["run_id" := Get(meta, "run_id"), "created_at_utc" := Get(meta, "created_at_utc"),
                    "connector_name" := Get(meta, "connector_name"), "matches_count" := Get(meta, "matches_count"),
                    "batch_output_checksum" := Get(meta, "batch_output_checksum"),
                    "alerts_count" := Get(meta, "alerts_count")];
    if Get(meta, "live_io_alerts_count") != JNull then base["live_io_alerts_count" := meta["live_io_alerts_count"]]
    else base
  }

  /** The entry shape shared by the live shadow compare and analyze lists. */
  function LiveShadowEntry(meta: Dict): (e: Dict)
    ensures e.Keys == {"run_id", "created_at_utc", "connector_name", "matches_count", "summary", "alerts_count"}
    ensures forall k :: k in e ==> e[k] == Get(meta, k)
  {
    map["run_id" := Get(meta, "run_id"), "created_at_utc" := Get(meta, "created_at_utc"),
        "connector_name" := Get(meta, "connector_name"), "matches_count" := Get(meta, "matches_count"),
        "summary" := Get(meta, "summary"), "alerts_count" := Get(meta, "alerts_count")]
  }

  /** The entry of `append_activation_run`: `activated` defaults to False, the summary to `{}`. */
  function ActivationEntry(meta: Dict): (e: Dict)
    ensures e.Keys == {"run_id", "created_at_utc", "connector_name", "matches_count",
                       "activated", "reason", "activation_summary"}
    ensures forall k :: k in e && k != "activated" && k != "activation_summary" ==> e[k] == Get(meta, k)
    ensures e["activated"] == GetOr(meta, "activated", JBool(false))
    ensures e["activation_summary"] == GetOr(meta, "activation_summary", JObj(map[]))
  {
    map["run_id" := Get(meta, "run_id"), "created_at_utc" := Get(meta, "created_at_utc"),
        "connector_name" := Get(meta, "connector_name"), "matches_count" := Get(meta, "matches_count"),
        "activated" := GetOr(meta, "activated", JBool(false)), "reason" := Get(meta, "reason"),
        "activation_summary" := GetOr(meta, "activation_summary", JObj(map[]))]
  }

  /** The entry of `append_burn_in_run`: the summary defaults to `{}`. */
  function BurnInEntry(meta: Dict): (e: Dict)
    ensures e.Keys == {"run_id", "created_at_utc", "connector_name", "matches_count", "burn_in_summary"}
    ensures forall k :: k in e && k != "burn_in_summary" ==> e[k] == Get(meta, k)
    ensures e["burn_in_summary"] == GetOr(meta, "burn_in_summary", JObj(map[]))
  {
    map["run_id" := Get(meta, "run_id"), "created_at_utc" := Get(meta, "created_at_utc"),
        "connector_name" := Get(meta, "connector_name"), "matches_count" := Get(meta, "matches_count"),
        "burn_in_summary" := GetOr(meta, "burn_in_summary", JObj(map[]))]
  }

  /** The entry of `append_provider_parity_run`. */
  function ProviderParityEntry(meta: Dict): (e: Dict)
    ensures e.Keys == {"run_id", "created_at_utc", "provider_a", "provider_b", "matches_count", "summary", "alerts_count"}
    ensures forall k :: k in e ==> e[k] == Get(meta, k)
  {
    map["run_id" := Get(meta, "run_id"), "created_at_utc" := Get(meta, "created_at_utc"),
        "provider_a" := Get(meta, "provider_a"), "provider_b" := Get(meta, "provider_b"),
        "matches_count" := Get(meta, "matches_count"), "summary" := Get(meta, "summary"),
        "alerts_count" := Get(meta, "alerts_count")]
  }

  /** The entry of `append_quality_audit_run`. */
  function QualityAuditEntry(meta: Dict): (e: Dict)
    ensures e.Keys == {"run_id", "created_at_utc", "run_count", "summary"}
    ensures forall k :: k in e ==> e[k] == Get(meta, k)
  {
    map["run_id" := Get(meta, "run_id"), "created_at_utc" := Get(meta, "created_at_utc"),
        "run_count" := Get(meta, "run_count"), "summary" := Get(meta, "summary")]
  }

  /** The index dictionary every `append_*` function mutates in place. */
  class ReportIndex {
    var data: Dict

    constructor (d: Dict)
      ensures data == d
    {
      data := d;
    }

    /**
     * The shape every `append_*` shares: append `entry` to the list under
     * `listKey` and set `latestKey` to the run id. When the list cannot be
     * appended to, Python raises before anything changes: `ok` is false.
     */
    method AppendTo(listKey: string, latestKey: string, entry: Dict, runId: Json) returns (ok: bool)
      modifies this
      ensures ok <==> ExistingList(old(data), listKey).Some?
      ensures ok ==> data == old(data)[listKey := JArr(ExistingList(old(data), listKey).value + [JObj(entry)])]
                                      [latestKey := runId]
      ensures !ok ==> data == old(data)
    {
      var existing := ExistingList(data, listKey);
      if existing.None? {
        return false;
      }
      data := data[listKey := JArr(existing.value + [JObj(entry)])];
      data := data[latestKey := runId];
      return true;
    }

    method AppendRun(meta: Dict) returns (ok: bool)
      modifies this
      ensures ok <==> ExistingList(old(data), "runs").Some?
      ensures ok ==> data == old(data)["runs" := JArr(ExistingList(old(data), "runs").value + [JObj(RunEntry(meta))])]
                                      ["latest_run_id" := Get(meta, "run_id")]
      ensures !ok ==> data == old(data)
    {
      ok := AppendTo("runs", "latest_run_id", RunEntry(meta), Get(meta, "run_id"));
    }

    method AppendLiveShadowRun(meta: Dict) returns (ok: bool)
      modifies this
      ensures ok <==> ExistingList(old(data), "live_shadow_runs").Some?
      ensures ok ==> data == old(data)["live_shadow_runs" := JArr(ExistingList(old(data), "live_shadow_runs").value
                                                                  + [JObj(LiveShadowEntry(meta))])]
                                      ["latest_live_shadow_run_id" := Get(meta, "run_id")]
      ensures !ok ==> data == old(data)
    {
      ok := AppendTo("live_shadow_runs", "latest_live_shadow_run_id", LiveShadowEntry(meta), Get(meta, "run_id"));
    }

    method AppendLiveShadowAnalyzeRun(meta: Dict) returns (ok: bool)
      modifies this
      ensures ok <==> ExistingList(old(data), "live_shadow_analyze_runs").Some?
      ensures ok ==> data == old(data)["live_shadow_analyze_runs" := JArr(ExistingList(old(data), "live_shadow_analyze_runs").value
                                                                          + [JObj(LiveShadowEntry(meta))])]
                                      ["latest_live_shadow_analyze_run_id" := Get(meta, "run_id")]
      ensures !ok ==> data == old(data)
    {
      ok := AppendTo("live_shadow_analyze_runs", "latest_live_shadow_analyze_run_id", LiveShadowEntry(meta), Get(meta, "run_id"));
    }

    method AppendActivationRun(meta: Dict) returns (ok: bool)
      modifies this
      ensures ok <==> ExistingList(old(data), "activation_runs").Some?
      ensures ok ==> data == old(data)["activation_runs" := JArr(ExistingList(old(data), "activation_runs").value
                                                                 + [JObj(ActivationEntry(meta))])]
                                      ["latest_activation_run_id" := Get(meta, "run_id")]
      ensures !ok ==> data == old(data)
    {
      ok := AppendTo("activation_runs", "latest_activation_run_id", ActivationEntry(meta), Get(meta, "run_id"));
    }

    method AppendBurnInRun(meta: Dict) returns (ok: bool)
      modifies this
      ensures ok <==> ExistingList(old(data), "burn_in_runs").Some?
      ensures ok ==> data == old(data)["burn_in_runs" := JArr(ExistingList(old(data), "burn_in_runs").value
                                                              + [JObj(BurnInEntry(meta))])]
                                      ["latest_burn_in_run_id" := Get(meta, "run_id")]
      ensures !ok ==> data == old(data)
    {
      ok := AppendTo("burn_in_runs", "latest_burn_in_run_id", BurnInEntry(meta), Get(meta, "run_id"));
    }

    method AppendProviderParityRun(meta: Dict) returns (ok: bool)
      modifies this
      ensures ok <==> ExistingList(old(data), "provider_parity_runs").Some?
      ensures ok ==> data == old(data)["provider_parity_runs" := JArr(ExistingList(old(data), "provider_parity_runs").value
                                                                      + [JObj(ProviderParityEntry(meta))])]
                                      ["latest_provider_parity_run_id" := Get(meta, "run_id")]
      ensures !ok ==> data == old(data)
    {
      ok := AppendTo("provider_parity_runs", "latest_provider_parity_run_id", ProviderParityEntry(meta), Get(meta, "run_id"));
    }

    method AppendQualityAuditRun(meta: Dict) returns (ok: bool)
      modifies this
      ensures ok <==> ExistingList(old(data), "quality_audit_runs").Some?
      ensures ok ==> data == old(data)["quality_audit_runs" := JArr(ExistingList(old(data), "quality_audit_runs").value
                                                                    + [JObj(QualityAuditEntry(meta))])]
                                      ["latest_quality_audit_run_id" := Get(meta, "run_id")]
      ensures !ok ==> data == old(data)
    {
      ok := AppendTo("quality_audit_runs", "latest_quality_audit_run_id", QualityAuditEntry(meta), Get(meta, "run_id"));
    }
  }

  /** The run id of a list entry, as the readers take it (`entry.get("run_id")`). */
  function EntryRunId(e: Json): Json {
    if e.JObj? then Get(e.fields, "run_id") else JNull
  }

  /**
   * On a loaded index an append always succeeds; it adds exactly one entry at
   * the end of its list, leaves the earlier entries as they were, and keeps
   * the index normalised.
   */
  lemma AppendOnLoadedIndex(keys: seq<string>, d: Dict, listKey: string, entry: Dict, runId: Json)
    requires KnownLists(keys) && Normalized(keys, d) && listKey in keys
    ensures ExistingList(d, listKey) == Some(d[listKey].items)
    ensures var d' := d[listKey := JArr(d[listKey].items + [JObj(entry)])][LatestKeyOf[listKey] := runId];
            && Normalized(keys, d')
            && |d'[listKey].items| == |d[listKey].items| + 1
            && d'[listKey].items[..|d[listKey].items|] == d[listKey].items
            && EntryRunId(d'[listKey].items[|d[listKey].items|]) == Get(entry, "run_id")
  {
    var d' := d[listKey := JArr(d[listKey].items + [JObj(entry)])][LatestKeyOf[listKey] := runId];
    assert LatestKeyOf[listKey] !in keys by {
      assert forall k :: k in AllListKeys ==> LatestKeyOf[k] !in AllListKeys;
      assert listKey in AllListKeys by { assert forall k :: k in keys ==> k in LatestKeyOf; }
    }
  }
}
